/**
 * The check-in views. Each view first applies its permission classes in
 * order (authentication, then the role), then does what its `get_queryset`
 * or `post` does. Responses become `Result` values; the request's user is
 * `None` when the request carries none.
 */
module CheckinsViews {
  import opened Wrappers
  import opened Seqs
  import opened AccountsModels
  import opened CheckinsPermissions
  import opened CheckinsModels
  import opened CheckinsSerializers

  datatype ViewError =
    | NotAuthenticated   // no user on the request
    | PermissionDenied   // the user's role is not the one the view requires
    | NotFound           // get_object_or_404 found no row
    | AlreadyEvaluated   // "Este checkin já foi avaliado."
    | UploadNotPending   // "Não é possível adicionar arquivos a um checkin já avaliado."
    | FilesRequired      // "É necessário enviar pelo menos um arquivo."
    | Invalid            // the input serializer refused the payload

  /** The row with primary key `pk`, if there is one. */
  function Lookup(s: seq<Checkin>, pk: CheckinId): (r: Option<Checkin>)
    ensures r.Some? <==> pk in Ids(s)
    ensures r.Some? ==> r.value in s && r.value.id == pk
  {
    match IndexOf(s, pk)
    case None => None
    case Some(i) => Some(s[i])
  }

  /** Every check-in that was already evaluated is still there, unchanged:
      an evaluation is never overwritten. */
  ghost predicate EvaluationsKept(before: seq<Checkin>, after: seq<Checkin>) {
    forall c :: c in before && c.status != Pendente ==> c in after
  }

  /** Overwriting a pending row keeps every evaluated row. */
  lemma UpdatePendingKeepsEvaluations(s: seq<Checkin>, i: nat, e: Checkin)
    requires i < |s| && s[i].status == Pendente
    ensures EvaluationsKept(s, s[i := e])
  {
    forall c | c in s && c.status != Pendente ensures c in s[i := e] {
      var k :| 0 <= k < |s| && s[k] == c;
      assert s[i := e][k] == c;
    }
  }

  /** `get_queryset` of the list and detail views: a logistics user sees
      every check-in, anyone else only the ones they submitted; newest
      first. */
  function ScopedQuery(db: CheckinStore, user: User): (r: seq<Checkin>)
    reads db
    ensures forall c :: c in r <==> c in db.checkins && (user.IsLogistica() || c.motorista == user.id)
    ensures forall c :: multiset(r)[c] ==
              if user.IsLogistica() || c.motorista == user.id then multiset(db.checkins)[c] else 0
    ensures NewestFirst(r)
    ensures |r| <= |db.checkins|
  {
    var keep := (c: Checkin) => user.IsLogistica() || c.motorista == user.id;
    var visible := Where(db.checkins, keep);
    WhereCount(db.checkins, keep);
    SortNewest(visible)
  }

  /** `CheckinListView`. */
  function ListView(db: CheckinStore, requester: Option<User>): (r: Result<seq<Checkin>, ViewError>)
    reads db
    ensures requester.None? ==> r == Err(NotAuthenticated)
    ensures requester.Some? ==> r == Ok(ScopedQuery(db, requester.value))
    ensures requester.Some? ==> r.Ok? && NewestFirst(r.value)
    ensures requester.Some? ==> forall c :: c in r.value <==>
              c in db.checkins && (requester.value.IsLogistica() || c.motorista == requester.value.id)
  {
    match requester
    case None => Err(NotAuthenticated)
    case Some(u) => Ok(ScopedQuery(db, u))
  }

  /** `CheckinDetailView`: the row is looked up inside the scoped queryset,
      so another driver's check-in is not found. */
  function DetailView(db: CheckinStore, requester: Option<User>, pk: CheckinId): (r: Result<Checkin, ViewError>)
    reads db
    ensures requester.None? ==> r == Err(NotAuthenticated)
    ensures r.Ok? ==>
              && r.value in db.checkins && r.value.id == pk
              && (requester.value.IsLogistica() || r.value.motorista == requester.value.id)
    ensures requester.Some? && r.Err? ==>
              && r.error == NotFound
              && forall c :: c in db.checkins && c.id == pk ==>
                   !requester.value.IsLogistica() && c.motorista != requester.value.id
  {
    match requester
    case None => Err(NotAuthenticated)
    case Some(u) =>
      var visible := ScopedQuery(db, u);
      match Lookup(visible, pk)
      case None => Err(NotFound)
      case Some(c) => Ok(c)
  }

  /** `get_queryset` of the pending view: exactly the pending check-ins,
      newest first. */
  function PendingQuery(db: CheckinStore): (r: seq<Checkin>)
    reads db
    ensures forall c :: c in r <==> c in db.checkins && c.status == Pendente
    ensures forall c :: multiset(r)[c] == if c.status == Pendente then multiset(db.checkins)[c] else 0
    ensures NewestFirst(r)
  {
    var keep := (c: Checkin) => c.status == Pendente;
    WhereCount(db.checkins, keep);
    SortNewest(Where(db.checkins, keep))
  }

  /** `CheckinPendentesView`: logistics users only. */
  function PendingView(db: CheckinStore, requester: Option<User>): (r: Result<seq<Checkin>, ViewError>)
    reads db
    ensures requester.None? ==> r == Err(NotAuthenticated)
    ensures requester.Some? && !IsLogistica(requester) ==> r == Err(PermissionDenied)
    ensures IsLogistica(requester) ==> r == Ok(PendingQuery(db))
    ensures IsLogistica(requester) ==>
              && r.Ok? && NewestFirst(r.value)
              && forall c :: c in r.value <==> c in db.checkins && c.status == Pendente
  {
    if requester.None? then Err(NotAuthenticated)
    else if !IsLogistica(requester) then Err(PermissionDenied)
    else Ok(PendingQuery(db))
  }

  /** The attachment rows that saving `files` for check-in `pk` creates,
      one per file and in the files' order, under consecutive keys. */
  function NewArquivos(firstId: ArquivoId, pk: CheckinId, files: seq<UploadedFile>, now: Time): (r: seq<Arquivo>)
    ensures |r| == |files|
    ensures forall k :: 0 <= k < |files| ==>
              r[k].checkin == pk && r[k].arquivo == files[k] && r[k].nomeArquivo == files[k].name
    ensures forall k :: 0 <= k < |files| ==> r[k].id == firstId + k && r[k].dataUpload == now
  {
    seq(|files|, k requires 0 <= k < |files| => Arquivo(firstId + k, pk, files[k], files[k].name, now))
  }

  /** The loop of the create and upload views: one attachment per file. */
  method SaveArquivos(db: CheckinStore, pk: CheckinId, files: seq<UploadedFile>, now: Time)
    returns (saved: seq<Arquivo>)
    requires db.Valid() && pk in Ids(db.checkins)
    modifies db
    ensures db.Valid()
    ensures saved == NewArquivos(old(db.nextArquivoId), pk, files, now)
    ensures db.arquivos == old(db.arquivos) + saved
    ensures db.checkins == old(db.checkins)
    ensures db.nextCheckinId == old(db.nextCheckinId)
  {
    saved := [];
    for i := 0 to |files|
      invariant db.Valid() && db.checkins == old(db.checkins)
      invariant db.nextCheckinId == old(db.nextCheckinId)
      invariant db.nextArquivoId == old(db.nextArquivoId) + i
      invariant saved == NewArquivos(old(db.nextArquivoId), pk, files[..i], now)
      invariant db.arquivos == old(db.arquivos) + saved
    {
      var a := db.AddArquivo(pk, files[i], now);
      saved := saved + [a];
    }
    assert files[..|files|] == files;
  }

  /** `CheckinCreateView.post`. The check-in is saved before the files are
      looked at, and the missing-files answer is a plain error response, so
      a request without files leaves the new check-in stored. */
  method CreateView(db: CheckinStore, requester: Option<User>, payload: CreatePayload,
                    files: seq<UploadedFile>, now: Time)
    returns (r: Result<Checkin, ViewError>)
    requires db.Valid()
    modifies db
    ensures db.Valid()
    ensures requester.None? ==> r == Err(NotAuthenticated) && unchanged(db)
    ensures requester.Some? && !IsMotorista(requester) ==> r == Err(PermissionDenied) && unchanged(db)
    ensures IsMotorista(requester) && ValidateCreate(payload).None? ==> r == Err(Invalid) && unchanged(db)
    ensures IsMotorista(requester) && ValidateCreate(payload).Some? ==>
      var fields := ValidateCreate(payload).value;
      var c := Checkin(old(db.nextCheckinId), requester.value.id, Pendente, fields.comentario, now, now,
                       fields.latitude, fields.longitude, None, "", None);
      && db.checkins == old(db.checkins) + [c]
      && (files == [] ==> r == Err(FilesRequired) && db.arquivos == old(db.arquivos))
      && (files != [] ==>
            && r == Ok(c)
            && db.arquivos == old(db.arquivos) + NewArquivos(old(db.nextArquivoId), c.id, files, now)
            && QtdArquivos(c, db.arquivos) == |files|)
    ensures EvaluationsKept(old(db.checkins), db.checkins)
  {
    if requester.None? {
      return Err(NotAuthenticated);
    }
    if !IsMotorista(requester) {
      return Err(PermissionDenied);
    }
    var fields := ValidateCreate(payload);
    if fields.None? {
      return Err(Invalid);
    }
    var checkin := SaveCreate(db, fields.value, requester.value.id, now);
    if files == [] {
      return Err(FilesRequired);
    }
    ghost var before := db.arquivos;
    var saved := SaveArquivos(db, checkin.id, files, now);
    QtdArquivosAppend(checkin, before, saved);
    QtdArquivosOwnRows(checkin, saved);
    r := Ok(checkin);
  }

  /** `CheckinAprovarView.post` (`decision == Aprovado`) and
      `CheckinRejeitarView.post` (`decision == Rejeitado`): the status is
      read, then written by `aprovar` / `rejeitar`. A check-in that is no
      longer pending is refused and left as it is. */
  method EvaluateView(db: CheckinStore, requester: Option<User>, pk: CheckinId,
                      payload: EvalPayload, decision: Status, now: Time)
    returns (r: Result<Checkin, ViewError>)
    requires db.Valid() && decision != Pendente
    modifies db
    ensures db.Valid()
    ensures requester.None? ==> r == Err(NotAuthenticated)
    ensures requester.Some? && !IsLogistica(requester) ==> r == Err(PermissionDenied)
    ensures IsLogistica(requester) && pk !in Ids(old(db.checkins)) ==> r == Err(NotFound)
    ensures IsLogistica(requester) && pk in Ids(old(db.checkins)) ==>
      var i := IndexOf(old(db.checkins), pk).value;
      var c := old(db.checkins)[i];
      if c.status != Pendente then r == Err(AlreadyEvaluated)
      else match ValidateEvaluation(payload)
        case None => r == Err(Invalid)
        case Some(comentario) =>
          var e := Evaluated(c, decision, requester.value.id, comentario, now);
          r == Ok(e) && db.checkins == old(db.checkins)[i := e]
    ensures r.Err? ==> unchanged(db)
    ensures db.arquivos == old(db.arquivos)
    ensures EvaluationsKept(old(db.checkins), db.checkins)
  {
    if requester.None? {
      return Err(NotAuthenticated);
    }
    if !IsLogistica(requester) {
      return Err(PermissionDenied);
    }
    var index := IndexOf(db.checkins, pk);
    if index.None? {
      return Err(NotFound);
    }
    var checkin := db.checkins[index.value];
    if checkin.status != Pendente {
      return Err(AlreadyEvaluated);
    }
    var comentario := ValidateEvaluation(payload);
    if comentario.None? {
      return Err(Invalid);
    }
    ghost var before := db.checkins;
    if decision == Aprovado {
      db.Aprovar(pk, requester.value.id, now, comentario.value);
    } else {
      db.Rejeitar(pk, requester.value.id, now, comentario.value);
    }
    UpdatePendingKeepsEvaluations(before, index.value, db.checkins[index.value]);
    r := Ok(db.checkins[index.value]);
  }

  /** `CheckinArquivoUploadView.post`: only the owner's check-in is found;
      it must still be pending and at least one file must be sent. The
      answer lists exactly the attachments created. */
  method UploadView(db: CheckinStore, requester: Option<User>, pk: CheckinId,
                    files: seq<UploadedFile>, now: Time)
    returns (r: Result<seq<Arquivo>, ViewError>)
    requires db.Valid()
    modifies db
    ensures db.Valid()
    ensures requester.None? ==> r == Err(NotAuthenticated)
    ensures requester.Some? && !IsMotorista(requester) ==> r == Err(PermissionDenied)
    ensures IsMotorista(requester) ==>
      match Lookup(old(db.checkins), pk)
      case None => r == Err(NotFound)
      case Some(c) =>
        if c.motorista != requester.value.id then r == Err(NotFound)
        else if c.status != Pendente then r == Err(UploadNotPending)
        else if files == [] then r == Err(FilesRequired)
        else r == Ok(NewArquivos(old(db.nextArquivoId), pk, files, now))
    ensures r.Err? ==> unchanged(db)
    ensures r.Ok? ==> db.arquivos == old(db.arquivos) + r.value
    ensures db.checkins == old(db.checkins)
  {
    if requester.None? {
      return Err(NotAuthenticated);
    }
    if !IsMotorista(requester) {
      return Err(PermissionDenied);
    }
    var found := Lookup(db.checkins, pk);
    if found.None? || found.value.motorista != requester.value.id {
      return Err(NotFound);
    }
    if found.value.status != Pendente {
      return Err(UploadNotPending);
    }
    if files == [] {
      return Err(FilesRequired);
    }
    var saved := SaveArquivos(db, pk, files, now);
    r := Ok(saved);
  }
}

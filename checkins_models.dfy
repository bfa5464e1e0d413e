/**
 * The check-in model and its attachments. A check-in row is a value; the
 * two tables and their id counters live in `CheckinStore`, whose methods
 * are the ORM writes the app performs: create a check-in, add an
 * attachment, `aprovar`, `rejeitar`, and the deletions the foreign keys
 * define.
 */
module CheckinsModels {
  import opened Wrappers
  import opened Seqs
  import opened AccountsModels

  type CheckinId = nat
  type ArquivoId = nat

  /** The stored values of `STATUS_CHOICES`. */
  const STATUS_CHOICES: seq<string> := ["pendente", "aprovado", "rejeitado"]

  datatype Status = Pendente | Aprovado | Rejeitado {
    /** The string stored in the `status` column; it is one of the choices
        and fits the column's `max_length` of 10. */
    function Code(): (code: string)
      ensures code in STATUS_CHOICES && |code| <= 10
    {
      match this
      case Pendente => "pendente"
      case Aprovado => "aprovado"
      case Rejeitado => "rejeitado"
    }
  }

  /** Reads a stored status back; only the three choices are accepted. */
  function ParseStatus(code: string): (r: Option<Status>)
    ensures r.Some? <==> code in STATUS_CHOICES
    ensures r.Some? ==> r.value.Code() == code
  {
    if code == "pendente" then Some(Pendente)
    else if code == "aprovado" then Some(Aprovado)
    else if code == "rejeitado" then Some(Rejeitado)
    else None
  }

  lemma StatusRoundTrip(s: Status)
    ensures ParseStatus(s.Code()) == Some(s)
  {
  }

  /** A `DecimalField(max_digits=9, decimal_places=6)` value: `unscaled`
      millionths. The model never computes with it. */
  datatype Decimal = Decimal(unscaled: int)

  /** An uploaded file: its original name and its bytes. */
  datatype UploadedFile = UploadedFile(name: string, content: seq<bv8>)

  datatype Checkin = Checkin(
    id: CheckinId,
    motorista: UserId,
    status: Status,
    comentario: string,
    dataCriacao: Time,
    dataAtualizacao: Time,
    latitude: Option<Decimal>,
    longitude: Option<Decimal>,
    aprovadoPor: Option<UserId>,
    comentarioAvaliacao: string,
    dataAvaliacao: Option<Time>)

  /** `CheckinArquivo`: a file bound to exactly one check-in. */
  datatype Arquivo = Arquivo(
    id: ArquivoId,
    checkin: CheckinId,
    arquivo: UploadedFile,
    nomeArquivo: string,
    dataUpload: Time)

  function Ids(s: seq<Checkin>): set<CheckinId> {
    set c | c in s :: c.id
  }

  /** Where the row with primary key `pk` sits, if there is one. */
  function IndexOf(s: seq<Checkin>, pk: CheckinId): (r: Option<nat>)
    ensures r.Some? <==> pk in Ids(s)
    ensures r.Some? ==> r.value < |s| && s[r.value].id == pk
  {
    if s == [] then None
    else if s[0].id == pk then Some(0)
    else match IndexOf(s[1..], pk)
      case None => None
      case Some(i) => Some(i + 1)
  }

  /** The default ordering `-data_criacao`: newest creation first. */
  predicate NewestFirst(s: seq<Checkin>) {
    forall i, j :: 0 <= i < j < |s| ==> s[i].dataCriacao >= s[j].dataCriacao
  }

  function InsertNewest(c: Checkin, s: seq<Checkin>): (r: seq<Checkin>)
    requires NewestFirst(s)
    ensures NewestFirst(r)
    ensures multiset(r) == multiset(s) + multiset{c}
  {
    if s == [] || c.dataCriacao >= s[0].dataCriacao then
      [c] + s
    else
      var t := InsertNewest(c, s[1..]);
      assert s == [s[0]] + s[1..];
      forall j | 0 <= j < |t| ensures s[0].dataCriacao >= t[j].dataCriacao {
        assert t[j] in multiset(t);
        if t[j] != c {
          assert t[j] in s[1..];
        }
      }
      [s[0]] + t
  }

  /** The rows of `s` in the default ordering. Rows created at the same
      instant keep their relative order here; the database promises no
      particular order for them. */
  function SortNewest(s: seq<Checkin>): (r: seq<Checkin>)
    ensures NewestFirst(r)
    ensures multiset(r) == multiset(s)
    ensures |r| == |s| && forall c :: c in r <==> c in s
  {
    if s == [] then []
    else
      assert s == [s[0]] + s[1..];
      var r := InsertNewest(s[0], SortNewest(s[1..]));
      SameRows(r, s);
      r
  }

  /** Sequences with the same multiset have the same rows and length. */
  lemma SameRows(a: seq<Checkin>, b: seq<Checkin>)
    requires multiset(a) == multiset(b)
    ensures |a| == |b| && forall c :: c in a <==> c in b
  {
    assert |a| == |multiset(a)|;
    forall c ensures c in a <==> c in b {
      assert c in a <==> c in multiset(a);
      assert c in b <==> c in multiset(b);
    }
  }

  /** What `aprovar` / `rejeitar` followed by `save()` make of a row: the
      decision, the evaluator, the comment and the evaluation time are
      overwritten whatever the row held, `auto_now` refreshes
      `data_atualizacao`, and nothing else changes. */
  function Evaluated(c: Checkin, decision: Status, avaliador: UserId,
                     comentario: string, now: Time): (r: Checkin)
    ensures r.status == decision && r.aprovadoPor == Some(avaliador)
    ensures r.comentarioAvaliacao == comentario && r.dataAvaliacao == Some(now)
    ensures r.dataAtualizacao == now
    ensures r.id == c.id && r.motorista == c.motorista && r.comentario == c.comentario
    ensures r.dataCriacao == c.dataCriacao && r.latitude == c.latitude && r.longitude == c.longitude
  {
    c.(status := decision, aprovadoPor := Some(avaliador), comentarioAvaliacao := comentario,
       dataAvaliacao := Some(now), dataAtualizacao := now)
  }

  /** The `SET_NULL` rule on `aprovado_por`: rows evaluated by `uid` lose
      their evaluator; ids and everything else stay. */
  function ClearEvaluator(s: seq<Checkin>, uid: UserId): (r: seq<Checkin>)
    ensures |r| == |s|
    ensures forall i :: 0 <= i < |s| ==>
      r[i] == if s[i].aprovadoPor == Some(uid) then s[i].(aprovadoPor := None) else s[i]
  {
    seq(|s|, i requires 0 <= i < |s| =>
      if s[i].aprovadoPor == Some(uid) then s[i].(aprovadoPor := None) else s[i])
  }

  /** The check-in and attachment tables. */
  class CheckinStore {
    var checkins: seq<Checkin>
    var arquivos: seq<Arquivo>
    var nextCheckinId: CheckinId
    var nextArquivoId: ArquivoId

    /** Primary keys are unique and below their counters; an evaluated
        check-in carries its evaluation time and a pending one does not;
        every attachment points at an existing check-in. */
    ghost predicate Valid()
      reads this
    {
      && UniqueKeys(checkins, (c: Checkin) => c.id)
      && (forall c :: c in checkins ==>
            c.id < nextCheckinId && (c.status == Pendente <==> c.dataAvaliacao == None))
      && UniqueKeys(arquivos, (a: Arquivo) => a.id)
      && (forall a :: a in arquivos ==> a.id < nextArquivoId && a.checkin in Ids(checkins))
    }

    constructor ()
      ensures Valid() && checkins == [] && arquivos == []
    {
      checkins, arquivos := [], [];
      nextCheckinId, nextArquivoId := 0, 0;
    }

    /** `Checkin.objects.create(...)`: a new row under a fresh key, with
        the model defaults: pending, no evaluator, an empty evaluation
        comment and no evaluation time. */
    method Create(motorista: UserId, comentario: string, latitude: Option<Decimal>,
                  longitude: Option<Decimal>, now: Time)
      returns (c: Checkin)
      requires Valid()
      modifies this
      ensures Valid()
      ensures c == Checkin(old(nextCheckinId), motorista, Pendente, comentario, now, now,
                           latitude, longitude, None, "", None)
      ensures c.id !in Ids(old(checkins))
      ensures checkins == old(checkins) + [c] && arquivos == old(arquivos)
      ensures nextArquivoId == old(nextArquivoId)
    {
      c := Checkin(nextCheckinId, motorista, Pendente, comentario, now, now,
                   latitude, longitude, None, "", None);
      checkins := checkins + [c];
      nextCheckinId := nextCheckinId + 1;
    }

    /** `CheckinArquivo.objects.create(...)` for a file of check-in `pk`;
        the stored name is the file's own name. */
    method AddArquivo(pk: CheckinId, f: UploadedFile, now: Time) returns (a: Arquivo)
      requires Valid() && pk in Ids(checkins)
      modifies this
      ensures Valid()
      ensures a == Arquivo(old(nextArquivoId), pk, f, f.name, now)
      ensures arquivos == old(arquivos) + [a] && checkins == old(checkins)
      ensures nextArquivoId == old(nextArquivoId) + 1 && nextCheckinId == old(nextCheckinId)
    {
      a := Arquivo(nextArquivoId, pk, f, f.name, now);
      arquivos := arquivos + [a];
      nextArquivoId := nextArquivoId + 1;
    }

    /** `save()` of an existing row; `auto_now` sets `data_atualizacao`. */
    method Save(i: nat, c: Checkin, now: Time)
      requires Valid() && i < |checkins| && c.id == checkins[i].id
      requires c.status == Pendente <==> c.dataAvaliacao == None
      modifies this
      ensures Valid()
      ensures checkins == old(checkins)[i := c.(dataAtualizacao := now)]
      ensures arquivos == old(arquivos)
      ensures nextCheckinId == old(nextCheckinId) && nextArquivoId == old(nextArquivoId)
    {
      var old_ := checkins;
      checkins := checkins[i := c.(dataAtualizacao := now)];
      assert Ids(checkins) == Ids(old_) by {
        forall x | x in Ids(old_) ensures x in Ids(checkins) {
          var k :| 0 <= k < |old_| && old_[k].id == x;
          assert checkins[k].id == x;
        }
      }
    }

    /** `aprovar`: four assignments to the row, then `save()`. There is no
        check of the current status. */
    method Aprovar(pk: CheckinId, avaliador: UserId, now: Time, comentario: string := "")
      requires Valid() && pk in Ids(checkins)
      modifies this
      ensures Valid()
      ensures var i := IndexOf(old(checkins), pk).value;
        checkins == old(checkins)[i := Evaluated(old(checkins)[i], Aprovado, avaliador, comentario, now)]
      ensures arquivos == old(arquivos)
      ensures nextCheckinId == old(nextCheckinId) && nextArquivoId == old(nextArquivoId)
    {
      var i := IndexOf(checkins, pk).value;
      var c := checkins[i];
      c := c.(status := Aprovado);
      c := c.(aprovadoPor := Some(avaliador));
      c := c.(comentarioAvaliacao := comentario);
      c := c.(dataAvaliacao := Some(now));
      Save(i, c, now);
    }

    /** `rejeitar`: as `aprovar`, with the rejected status. */
    method Rejeitar(pk: CheckinId, avaliador: UserId, now: Time, comentario: string := "")
      requires Valid() && pk in Ids(checkins)
      modifies this
      ensures Valid()
      ensures var i := IndexOf(old(checkins), pk).value;
        checkins == old(checkins)[i := Evaluated(old(checkins)[i], Rejeitado, avaliador, comentario, now)]
      ensures arquivos == old(arquivos)
      ensures nextCheckinId == old(nextCheckinId) && nextArquivoId == old(nextArquivoId)
    {
      var i := IndexOf(checkins, pk).value;
      var c := checkins[i];
      c := c.(status := Rejeitado);
      c := c.(aprovadoPor := Some(avaliador));
      c := c.(comentarioAvaliacao := comentario);
      c := c.(dataAvaliacao := Some(now));
      Save(i, c, now);
    }

    /** Deleting check-in `pk` deletes its attachments (`CASCADE`). */
    method DeleteCheckin(pk: CheckinId)
      requires Valid()
      modifies this
      ensures Valid()
      ensures checkins == Where(old(checkins), (c: Checkin) => c.id != pk)
      ensures arquivos == Where(old(arquivos), (a: Arquivo) => a.checkin != pk)
      ensures pk !in Ids(checkins) && forall a :: a in arquivos ==> a.checkin != pk
      ensures nextCheckinId == old(nextCheckinId) && nextArquivoId == old(nextArquivoId)
    {
      var keepCheckin := (c: Checkin) => c.id != pk;
      var keepArquivo := (a: Arquivo) => a.checkin != pk;
      WhereKeepsUniqueKeys(checkins, keepCheckin, (c: Checkin) => c.id);
      WhereKeepsUniqueKeys(arquivos, keepArquivo, (a: Arquivo) => a.id);
      var old_ := checkins;
      checkins := Where(checkins, keepCheckin);
      arquivos := Where(arquivos, keepArquivo);
      forall a | a in arquivos ensures a.checkin in Ids(checkins) {
        var c :| c in old_ && c.id == a.checkin;
        assert c in checkins;
      }
    }

    /** Deleting user `uid`: the check-ins it submitted go, with their
        attachments (`CASCADE` on `motorista`, then on `checkin`), and the
        check-ins it evaluated lose their evaluator (`SET_NULL` on
        `aprovado_por`). */
    method UserDeleted(uid: UserId)
      requires Valid()
      modifies this
      ensures Valid()
      ensures checkins == ClearEvaluator(Where(old(checkins), (c: Checkin) => c.motorista != uid), uid)
      ensures var kept := Ids(checkins);
        arquivos == Where(old(arquivos), (a: Arquivo) => a.checkin in kept)
      ensures forall c :: c in checkins ==> c.motorista != uid && c.aprovadoPor != Some(uid)
      ensures nextCheckinId == old(nextCheckinId) && nextArquivoId == old(nextArquivoId)
    {
      var keepCheckin := (c: Checkin) => c.motorista != uid;
      WhereKeepsUniqueKeys(checkins, keepCheckin, (c: Checkin) => c.id);
      var remaining := Where(checkins, keepCheckin);
      var cleared := ClearEvaluator(remaining, uid);
      var kept := Ids(cleared);
      var keepArquivo := (a: Arquivo) => a.checkin in kept;
      WhereKeepsUniqueKeys(arquivos, keepArquivo, (a: Arquivo) => a.id);
      checkins := cleared;
      arquivos := Where(arquivos, keepArquivo);
      forall c | c in checkins ensures c.motorista != uid && c.aprovadoPor != Some(uid) {
        var i :| 0 <= i < |cleared| && cleared[i] == c;
        assert remaining[i] in remaining;
      }
    }
  }
}

/**
 * The check-in serializers: the computed fields of the list and detail
 * output (driver name, evaluator name, attachment count) and the two input
 * serializers, which accept a fixed set of fields and drop every other key.
 */
module CheckinsSerializers {
  import opened Wrappers
  import opened Seqs
  import opened PyText
  import opened AccountsModels
  import opened CheckinsModels

  /** `get_full_name() or email`: the full name, or the email when the full
      name is empty. */
  function DisplayName(u: User): (name: string)
    ensures u.FullName() != [] ==> name == u.FullName()
    ensures AllSpace(u.firstName) && AllSpace(u.lastName) ==> name == u.email
    ensures u.email != [] ==> name != []
  {
    var full := u.FullName();
    if full != [] then full else u.email
  }

  /** `get_motorista_nome`; `motorista` is the user the row points at. */
  function MotoristaNome(c: Checkin, motorista: User): (name: string)
    requires motorista.id == c.motorista
    ensures name == DisplayName(motorista)
    ensures motorista.email != [] ==> name != []
  {
    DisplayName(motorista)
  }

  /** `get_avaliador_nome`: no name without an evaluator; otherwise the
      evaluator's display name. */
  function AvaliadorNome(c: Checkin, avaliador: Option<User>): (name: Option<string>)
    requires avaliador.Some? <==> c.aprovadoPor.Some?
    requires avaliador.Some? ==> avaliador.value.id == c.aprovadoPor.value
    ensures name.None? <==> c.aprovadoPor.None?
    ensures name.Some? ==> name.value == DisplayName(avaliador.value)
  {
    match avaliador
    case None => None
    case Some(u) => Some(DisplayName(u))
  }

  /** `get_qtd_arquivos`: the number of attachment rows of the check-in. */
  function QtdArquivos(c: Checkin, arquivos: seq<Arquivo>): (n: nat)
    ensures n <= |arquivos|
    ensures n == 0 <==> forall a :: a in arquivos ==> a.checkin != c.id
  {
    var own := Where(arquivos, (a: Arquivo) => a.checkin == c.id);
    assert own != [] ==> own[0] in own;
    |own|
  }

  /** Counting attachments is additive over the table. */
  lemma QtdArquivosAppend(c: Checkin, s: seq<Arquivo>, t: seq<Arquivo>)
    ensures QtdArquivos(c, s + t) == QtdArquivos(c, s) + QtdArquivos(c, t)
  {
    WhereAppend(s, t, (a: Arquivo) => a.checkin == c.id);
  }

  /** Rows that all belong to the check-in are all counted. */
  lemma QtdArquivosOwnRows(c: Checkin, t: seq<Arquivo>)
    requires forall a :: a in t ==> a.checkin == c.id
    ensures QtdArquivos(c, t) == |t|
  {
    WhereAll(t, (a: Arquivo) => a.checkin == c.id);
  }

  /** One input field as the serializer sees it: left out, given with a
      value its field accepts, or given with a value its field refuses. */
  datatype Field<T> = Omitted | Given(value: T) | Rejected

  /** What a client sends to create a check-in: the three declared fields,
      and every other key (`motorista`, `status`, ...), which is ignored. */
  datatype CreatePayload = CreatePayload(
    comentario: Field<string>,
    latitude: Field<Option<Decimal>>,
    longitude: Field<Option<Decimal>>,
    others: map<string, string>)

  /** The values the new row takes from the payload. */
  datatype CreateFields = CreateFields(comentario: string, latitude: Option<Decimal>, longitude: Option<Decimal>)

  /** `CheckinCreateSerializer.is_valid` and `validated_data`, with the
      model defaults for the fields left out ('' and null). */
  function ValidateCreate(p: CreatePayload): (r: Option<CreateFields>)
    ensures r.None? <==> p.comentario.Rejected? || p.latitude.Rejected? || p.longitude.Rejected?
    ensures r.Some? ==> (p.comentario.Given? ==> r.value.comentario == p.comentario.value)
    ensures r.Some? ==> (p.comentario.Omitted? ==> r.value.comentario == "")
    ensures r.Some? ==> (p.latitude.Given? ==> r.value.latitude == p.latitude.value)
    ensures r.Some? ==> (p.latitude.Omitted? ==> r.value.latitude == None)
    ensures r.Some? ==> (p.longitude.Given? ==> r.value.longitude == p.longitude.value)
    ensures r.Some? ==> (p.longitude.Omitted? ==> r.value.longitude == None)
  {
    if p.comentario.Rejected? || p.latitude.Rejected? || p.longitude.Rejected? then None
    else Some(CreateFields(
      if p.comentario.Given? then p.comentario.value else "",
      if p.latitude.Given? then p.latitude.value else None,
      if p.longitude.Given? then p.longitude.value else None))
  }

  /** Keys outside `comentario`, `latitude` and `longitude` have no effect. */
  lemma CreateIgnoresOtherKeys(p: CreatePayload, others: map<string, string>)
    ensures ValidateCreate(p.(others := others)) == ValidateCreate(p)
  {
  }

  /** `CheckinCreateSerializer.create`: the requesting user becomes the
      driver, whatever the payload held, and the row is inserted. */
  method SaveCreate(db: CheckinStore, fields: CreateFields, requester: UserId, now: Time)
    returns (c: Checkin)
    requires db.Valid()
    modifies db
    ensures db.Valid()
    ensures c.motorista == requester && c.status == Pendente
    ensures c == Checkin(old(db.nextCheckinId), requester, Pendente, fields.comentario, now, now,
                         fields.latitude, fields.longitude, None, "", None)
    ensures c.id !in Ids(old(db.checkins))
    ensures db.checkins == old(db.checkins) + [c] && db.arquivos == old(db.arquivos)
    ensures db.nextArquivoId == old(db.nextArquivoId)
  {
    c := db.Create(requester, fields.comentario, fields.latitude, fields.longitude, now);
  }

  /** What a client sends to approve or reject: the evaluation comment, and
      every other key, which is ignored. */
  datatype EvalPayload = EvalPayload(comentarioAvaliacao: Field<string>, others: map<string, string>)

  /** `CheckinAvaliacaoSerializer.is_valid` followed by
      `validated_data.get('comentario_avaliacao', '')`. */
  function ValidateEvaluation(p: EvalPayload): (r: Option<string>)
    ensures r.None? <==> p.comentarioAvaliacao.Rejected?
    ensures p.comentarioAvaliacao.Omitted? ==> r == Some("")
    ensures p.comentarioAvaliacao.Given? ==> r == Some(p.comentarioAvaliacao.value)
  {
    match p.comentarioAvaliacao
    case Omitted => Some("")
    case Given(s) => Some(s)
    case Rejected => None
  }

  /** Only `comentario_avaliacao` is read from the payload. */
  lemma EvaluationIgnoresOtherKeys(p: EvalPayload, others: map<string, string>)
    ensures ValidateEvaluation(p.(others := others)) == ValidateEvaluation(p)
  {
  }
}

/**
 * The custom user of the accounts app: its fields and defaults, the name
 * helpers, and the manager that creates users and superusers. The user
 * table is a class whose `create_user` appends a row, subject to the
 * unique constraints on email and cpf.
 */
module AccountsModels {
  import opened Wrappers
  import opened PyText
  import opened Seqs

  type UserId = nat
  /** A timestamp as the clock reports it; never computed with. */
  type Time = int

  /** The two role values of `ROLE_CHOICES`; the role may also be blank. */
  const MOTORISTA: string := "motorista"
  const LOGISTICA: string := "logistica"
  const ROLE_CHOICES: seq<string> := [MOTORISTA, LOGISTICA]

  /** What `set_password` leaves in the password column. Hashing is a
      foreign call: `HashOf(raw)` stands for the hash of `raw`. */
  datatype PasswordHash = NotSet | Unusable | HashOf(raw: string)

  datatype User = User(
    id: UserId,
    email: string,
    password: PasswordHash,
    firstName: string,
    lastName: string,
    isActive: bool,
    isStaff: bool,
    isSuperuser: bool,
    dateJoined: Time,
    role: string,
    phone: string,
    cpf: string)
  {
    /** `get_full_name`: first and last name joined by a space, stripped.
        It is empty exactly when both names are blank or whitespace. */
    function FullName(): (r: string)
      ensures r == [] <==> AllSpace(firstName) && AllSpace(lastName)
      ensures r == [] || (!IsSpace(r[0]) && !IsSpace(r[|r| - 1]))
    {
      AllSpaceConcat(firstName + " ", lastName);
      AllSpaceConcat(firstName, " ");
      Strip(firstName + " " + lastName)
    }

    /** `get_short_name`: the first name as stored, not stripped. */
    function ShortName(): (r: string)
      ensures r == firstName
    {
      firstName
    }

    /** `is_logistica`: holds only for the logistics choice of the role,
        never for the driver choice or a blank role. */
    predicate IsLogistica()
      ensures IsLogistica() <==> role == ROLE_CHOICES[1]
      ensures IsLogistica() ==> role in ROLE_CHOICES && role != MOTORISTA && role != ""
    {
      role == LOGISTICA
    }
  }

  /** A first name with no surrounding whitespace is where the full name
      starts, whatever the last name is. */
  lemma ShortNameStartsFullName(u: User)
    requires u.firstName != [] && !IsSpace(u.firstName[0])
    requires !IsSpace(u.firstName[|u.firstName| - 1])
    ensures u.ShortName() != [] && u.ShortName() <= u.FullName()
  {
    var s := u.firstName + " " + u.lastName;
    assert s[0] == u.firstName[0];
    assert TrimStart(s) == s;
    assert s == u.firstName + (" " + u.lastName);
    TrimEndKeepsPrefix(u.firstName, " " + u.lastName);
  }

  /** The keyword arguments a caller passes on to the user model; `None`
      is a key the caller left out. */
  datatype ExtraFields = ExtraFields(
    firstName: Option<string>,
    lastName: Option<string>,
    role: Option<string>,
    phone: Option<string>,
    cpf: Option<string>,
    isActive: Option<bool>,
    isStaff: Option<bool>,
    isSuperuser: Option<bool>)

  const NoExtraFields: ExtraFields := ExtraFields(None, None, None, None, None, None, None, None)

  datatype AccountError =
    | EmailRequired   // ValueError: the email field is mandatory
    | NotStaff        // ValueError: a superuser needs is_staff=True
    | NotSuperuser    // ValueError: a superuser needs is_superuser=True
    | IntegrityError  // the unique constraint on email or cpf refused the row

  /** `self.model(email=email, **extra_fields)`: every field not passed
      takes its model default (blank strings, inactive, not staff, not a
      superuser, no password yet). */
  function NewUser(id: UserId, email: string, extra: ExtraFields, now: Time): (u: User)
    ensures u.id == id && u.email == email && u.password == NotSet && u.dateJoined == now
    ensures extra.isActive == None ==> !u.isActive
    ensures extra.isStaff == None ==> !u.isStaff
    ensures extra.isSuperuser == None ==> !u.isSuperuser
    ensures extra.cpf == None ==> u.cpf == ""
  {
    User(id, email, NotSet,
         extra.firstName.GetOr(""), extra.lastName.GetOr(""),
         extra.isActive.GetOr(false), extra.isStaff.GetOr(false), extra.isSuperuser.GetOr(false),
         now, extra.role.GetOr(""), extra.phone.GetOr(""), extra.cpf.GetOr(""))
  }

  /** `set_password`: `None` gives an unusable password. */
  function SetPassword(raw: Option<string>): (h: PasswordHash)
    ensures h != NotSet
    ensures h == Unusable <==> raw == None
    ensures raw.Some? ==> h == HashOf(raw.value)
  {
    match raw
    case None => Unusable
    case Some(p) => HashOf(p)
  }

  /** Some stored user already has this email or this cpf. */
  predicate Taken(users: seq<User>, email: string, cpf: string) {
    exists u :: u in users && (u.email == email || u.cpf == cpf)
  }

  /** cpf is unique and blank by default, so once one user has no cpf,
      every later user without one is refused by the unique constraint. */
  lemma BlankCpfTaken(users: seq<User>, first: User, email: string)
    requires first in users && first.cpf == ""
    ensures Taken(users, email, "")
  {
  }

  /** The user table. */
  class UserStore {
    var users: seq<User>
    var nextId: UserId

    /** Ids below the counter; email and cpf unique, as the table's
        unique constraints enforce. */
    ghost predicate Valid()
      reads this
    {
      && (forall u :: u in users ==> u.id < nextId)
      && UniqueKeys(users, (u: User) => u.id)
      && UniqueKeys(users, (u: User) => u.email)
      && UniqueKeys(users, (u: User) => u.cpf)
    }

    constructor ()
      ensures Valid() && users == [] && nextId == 0
    {
      users := [];
      nextId := 0;
    }

    /** `save()` of a new row: the insert fails on a duplicate email or cpf. */
    method Insert(u: User) returns (ok: bool)
      requires Valid() && u.id == nextId
      modifies this
      ensures Valid()
      ensures ok <==> !Taken(old(users), u.email, u.cpf)
      ensures ok ==> users == old(users) + [u] && nextId == old(nextId) + 1
      ensures !ok ==> users == old(users) && nextId == old(nextId)
    {
      ok := !Taken(users, u.email, u.cpf);
      if ok {
        users := users + [u];
        nextId := nextId + 1;
      }
    }

    /** `create_user`: refuses an empty email; otherwise builds the user
        from the normalised email and the extra fields, sets the password
        and saves. */
    method CreateUser(email: string, password: Option<string>, extra: ExtraFields,
                      normalize: string -> string, now: Time)
      returns (r: Result<User, AccountError>)
      requires Valid()
      modifies this
      ensures Valid()
      ensures email == "" ==> r == Err(EmailRequired) && users == old(users)
      ensures email != "" ==>
        var u := NewUser(old(nextId), normalize(email), extra, now).(password := SetPassword(password));
        if Taken(old(users), u.email, u.cpf)
        then r == Err(IntegrityError) && users == old(users)
        else r == Ok(u) && users == old(users) + [u]
      ensures r.Err? ==> users == old(users)
    {
      if email == "" {
        return Err(EmailRequired);
      }
      var normalized := normalize(email);
      var user := NewUser(nextId, normalized, extra, now);
      user := user.(password := SetPassword(password));
      var saved := Insert(user);
      if saved {
        r := Ok(user);
      } else {
        r := Err(IntegrityError);
      }
    }

    /** `create_superuser`: the three flags default to true; an explicit
        false for is_staff or is_superuser is refused before anything is
        created. */
    method CreateSuperuser(email: string, password: Option<string>, extra: ExtraFields,
                           normalize: string -> string, now: Time)
      returns (r: Result<User, AccountError>)
      requires Valid()
      modifies this
      ensures Valid()
      ensures extra.isStaff == Some(false) ==> r == Err(NotStaff)
      ensures extra.isStaff != Some(false) && extra.isSuperuser == Some(false) ==> r == Err(NotSuperuser)
      ensures extra.isStaff != Some(false) && extra.isSuperuser != Some(false) && email == "" ==>
                r == Err(EmailRequired)
      ensures (extra.isStaff != Some(false) && extra.isSuperuser != Some(false) && email != ""
               && !Taken(old(users), normalize(email), extra.cpf.GetOr(""))) ==> r.Ok?
      ensures extra.isStaff != Some(false) && extra.isSuperuser != Some(false) && email != "" ==>
        var d := extra.(isStaff := Some(true), isSuperuser := Some(true),
                        isActive := Some(extra.isActive.GetOr(true)));
        var u := NewUser(old(nextId), normalize(email), d, now).(password := SetPassword(password));
        if Taken(old(users), u.email, u.cpf)
        then r == Err(IntegrityError) && users == old(users)
        else r == Ok(u) && users == old(users) + [u]
      ensures r.Ok? ==>
                && r.value.isStaff && r.value.isSuperuser
                && r.value.isActive == extra.isActive.GetOr(true)
                && r.value.email == normalize(email)
                && users == old(users) + [r.value]
      ensures r.Err? ==> users == old(users)
    {
      var fields := extra;
      if fields.isStaff == None { fields := fields.(isStaff := Some(true)); }
      if fields.isSuperuser == None { fields := fields.(isSuperuser := Some(true)); }
      if fields.isActive == None { fields := fields.(isActive := Some(true)); }
      if fields.isStaff != Some(true) {
        assert extra.isStaff.Some? && !extra.isStaff.value;
        return Err(NotStaff);
      }
      if fields.isSuperuser != Some(true) {
        assert extra.isSuperuser.Some? && !extra.isSuperuser.value;
        return Err(NotSuperuser);
      }
      r := CreateUser(email, password, fields, normalize, now);
    }
  }
}

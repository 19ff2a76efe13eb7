/** The administrator session: the credential decision made on the row the
    `admin_users` lookup returns, and the session kept both in memory and
    in the browser's `admin_user` storage slot. */
module Auth {
  import opened Common

  /** A row of `admin_users`. */
  datatype AdminRow = AdminRow(
    id: string,
    email: string,
    full_name: string,
    role: string,
    password_hash: string,
    is_active: bool)

  /** The session record: four fields copied from the row, never the password. */
  datatype SessionUser = SessionUser(id: string, email: string, full_name: string, role: string)

  /** What the lookup produced: the service reported an error, the call
      itself threw with some message, or it answered with at most one row. */
  datatype LookupResult =
    | ServiceError
    | Thrown(message: string)
    | Answered(row: Option<AdminRow>)

  /** What `login` resolves to. */
  datatype LoginReply = Success | Failure(error: string)

  const StorageKey: string := "admin_user"
  const AuthFailed: string := "Authentication failed. Please try again."
  const BadCredentials: string := "Invalid email or password"

  /** The rows the query `eq('email', email).eq('is_active', true)` selects. */
  predicate Eligible(row: AdminRow, email: string) {
    row.email == email && row.is_active
  }

  /** The query's answer over a table: the first eligible row, if any. */
  function Query(table: seq<AdminRow>, email: string): (r: Option<AdminRow>)
    ensures r.Some? ==> r.value in table && Eligible(r.value, email)
    ensures r.None? ==> forall row :: row in table ==> !Eligible(row, email)
  {
    if |table| == 0 then None
    else if Eligible(table[0], email) then Some(table[0])
    else Query(table[1..], email)
  }

  function SessionOf(row: AdminRow): (u: SessionUser)
    ensures u.id == row.id && u.email == row.email
    ensures u.full_name == row.full_name && u.role == row.role
  {
    SessionUser(row.id, row.email, row.full_name, row.role)
  }

  /** The credential decision of `login`: a service error fails with the
      generic message, a missing row or a password that is not exactly the
      stored one fails with the credentials message, a thrown call fails
      with its own message, and otherwise the row's session is granted. */
  function Authenticate(lookup: LookupResult, password: string): (r: Result<SessionUser>)
    ensures r.Ok? <==> lookup.Answered? && lookup.row.Some? && password == lookup.row.value.password_hash
    ensures r.Ok? ==> r.value == SessionOf(lookup.row.value)
    ensures lookup.ServiceError? ==> r == Err(AuthFailed)
    ensures lookup.Thrown? ==> r == Err(lookup.message)
    ensures lookup.Answered? && (lookup.row.None? || password != lookup.row.value.password_hash) ==>
      r == Err(BadCredentials)
  {
    match lookup
    case ServiceError => Err(AuthFailed)
    case Thrown(message) => Err(message)
    case Answered(None) => Err(BadCredentials)
    case Answered(Some(row)) =>
      if password != row.password_hash then Err(BadCredentials) else Ok(SessionOf(row))
  }

  /** Against a table answered by the query: a session is granted exactly
      when some active row carries the typed email and the typed password,
      and the session always belongs to such a row. */
  lemma GrantedOnlyToEligibleRow(table: seq<AdminRow>, email: string, password: string)
    ensures var r := Authenticate(Answered(Query(table, email)), password);
      r.Ok? ==> (exists row :: row in table && Eligible(row, email) &&
                   row.password_hash == password && r.value == SessionOf(row))
    ensures (forall row :: row in table && Eligible(row, email) ==> row.password_hash != password) ==>
      Authenticate(Answered(Query(table, email)), password) == Err(BadCredentials)
  {
  }

  /** The user a start-up restores from storage. */
  function Restored(storage: map<string, SessionUser>): (u: Option<SessionUser>)
    ensures u.Some? <==> StorageKey in storage
    ensures u.Some? ==> u.value == storage[StorageKey]
  {
    if StorageKey in storage then Some(storage[StorageKey]) else None
  }

  /** A session written by a login is what the next start-up restores; after
      a logout nothing is restored. */
  lemma SessionSurvivesReload(storage: map<string, SessionUser>, u: SessionUser)
    ensures Restored(storage[StorageKey := u]) == Some(u)
    ensures Restored(storage - {StorageKey}) == None
  {
  }

  class AuthContext {
    var user: Option<SessionUser>
    var loading: bool
    /** The browser's local storage, each slot holding a session record. */
    var storage: map<string, SessionUser>

    /** A user held in memory is always the one in the storage slot. */
    ghost predicate Valid()
      reads this
    {
      user.Some? ==> Restored(storage) == user
    }

    /** The provider as first rendered: no user yet, loading. */
    constructor(saved: map<string, SessionUser>)
      ensures user.None? && loading && storage == saved
      ensures Valid()
    {
      user := None;
      loading := true;
      storage := saved;
    }

    /** The mount effect: a stored session becomes the user (otherwise the
        user is left as it was), and loading ends. */
    method RestoreSession()
      requires Valid()
      modifies this
      ensures user == (if StorageKey in storage then Restored(storage) else old(user))
      ensures !loading && storage == old(storage)
      ensures Valid()
    {
      if StorageKey in storage {
        user := Some(storage[StorageKey]);
      }
      loading := false;
    }

    /** `login`: a granted session is set as the user and written to the
        slot; a refusal leaves the user and the storage as they were. Loading
        is false afterwards on every path. */
    method Login(email: string, password: string, lookup: LookupResult) returns (reply: LoginReply)
      requires Valid()
      modifies this
      ensures var r := Authenticate(lookup, password);
        reply == (if r.Ok? then Success else Failure(r.error))
      ensures reply.Success? ==>
        user == Some(Authenticate(lookup, password).value) &&
        storage == old(storage)[StorageKey := user.value]
      ensures reply.Failure? ==> user == old(user) && storage == old(storage)
      ensures !loading && Valid()
    {
      loading := true;
      var r := Authenticate(lookup, password);
      match r {
        case Ok(u) =>
          user := Some(u);
          storage := storage[StorageKey := u];
          reply := Success;
        case Err(message) =>
          reply := Failure(message);
      }
      loading := false;
    }

    /** `logout`: no user and no stored session, whatever the state before. */
    method Logout()
      requires Valid()
      modifies this
      ensures user.None? && storage == old(storage) - {StorageKey}
      ensures loading == old(loading) && Valid()
    {
      user := None;
      storage := storage - {StorageKey};
    }

    /** `isAuthenticated` is `!!user`. */
    function IsAuthenticated(): (b: bool)
      reads this
      ensures b <==> user.Some?
    {
      user.Some?
    }
  }
}

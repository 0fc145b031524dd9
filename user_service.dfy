/** Registration, login and lookup over the `users` table. Password hashing is
    a parameter: a hash function and the matching check. */
module UserService {
  import opened Wrappers
  import Seqs

  const DuplicateMessage: string := "User with this email or username already exists"
  const BadCredentialsMessage: string := "Invalid email or password"
  const InactiveMessage: string := "User account is inactive"
  const UserNotFound: string := "User not found"

  datatype User = User(id: string, email: string, username: string,
                       hashedPassword: string, isActive: bool)

  datatype UserRegister = UserRegister(email: string, username: string, password: string)
  datatype UserLogin = UserLogin(email: string, password: string)

  /** `hash_password` and `verify_password`. */
  datatype Hasher = Hasher(hash: string -> string, verify: (string, string) -> bool)

  /** The one thing assumed of the hashing library: a password checks out
      against its own hash. */
  ghost predicate Sound(h: Hasher) {
    forall p :: h.verify(p, h.hash(p))
  }

  function SameEmailOrUsername(email: string, username: string): User -> bool {
    (u: User) => u.email == email || u.username == username
  }

  function WithEmail(email: string): User -> bool {
    (u: User) => u.email == email
  }

  function WithId(id: string): User -> bool {
    (u: User) => u.id == id
  }

  /** `authenticate_user`: an unknown email and a wrong password give the same
      401; only a correct password on an inactive account gives the 403. */
  function Authenticate(users: seq<User>, login: UserLogin, h: Hasher): (r: Result<User>)
    ensures r.Ok? ==>
      && r.value in users && r.value.email == login.email && r.value.isActive
      && h.verify(login.password, r.value.hashedPassword)
    ensures (forall u :: u in users ==> u.email != login.email) ==>
      r == Err(HttpError(401, BadCredentialsMessage))
    ensures r.Err? ==> r.error == HttpError(401, BadCredentialsMessage) || r.error == HttpError(403, InactiveMessage)
    ensures r.Err? && r.error.status == 403 ==>
      exists u :: u in users && u.email == login.email && h.verify(login.password, u.hashedPassword) && !u.isActive
  {
    match Seqs.Find(users, WithEmail(login.email))
    case None => Err(HttpError(401, BadCredentialsMessage))
    case Some(i) =>
      var u := users[i];
      if !h.verify(login.password, u.hashedPassword) then Err(HttpError(401, BadCredentialsMessage))
      else if !u.isActive then Err(HttpError(403, InactiveMessage))
      else Ok(u)
  }

  /** `get_user_by_id`. */
  function GetUserById(users: seq<User>, id: string): (r: Result<User>)
    ensures r.Ok? <==> exists u :: u in users && u.id == id
    ensures r.Ok? ==> r.value in users && r.value.id == id
    ensures r.Err? ==> r.error == HttpError(404, UserNotFound)
  {
    match Seqs.Find(users, WithId(id))
    case None =>
      assert forall u :: u in users ==> !WithId(id)(u);
      Err(HttpError(404, UserNotFound))
    case Some(i) => Ok(users[i])
  }

  predicate UniqueKeys(users: seq<User>) {
    forall i, j :: 0 <= i < j < |users| ==>
      users[i].id != users[j].id && users[i].email != users[j].email && users[i].username != users[j].username
  }

  class UserTable {
    var users: seq<User>

    /** IDs, emails and usernames are each unique (the table's constraints). */
    predicate Valid()
      reads this
    {
      UniqueKeys(users)
    }

    constructor ()
      ensures Valid() && users == []
    {
      users := [];
    }

    /** `create_user`: rejected when any user already has the email or the
        username; otherwise one active row with the hashed password is added.
        The username and password lengths are the request schema's. */
    method CreateUser(data: UserRegister, h: Hasher, newId: string) returns (r: Result<User>)
      requires Valid()
      requires 3 <= |data.username| <= 50 && |data.password| >= 8
      requires forall u :: u in users ==> u.id != newId
      modifies this
      ensures Valid()
      ensures (exists u :: u in old(users) && (u.email == data.email || u.username == data.username)) <==> r.Err?
      ensures r.Err? ==> r.error == HttpError(400, DuplicateMessage) && users == old(users)
      ensures r.Ok? ==>
        && r.value == User(newId, data.email, data.username, h.hash(data.password), true)
        && users == old(users) + [r.value]
    {
      match Seqs.Find(users, SameEmailOrUsername(data.email, data.username)) {
        case Some(i) =>
          assert users[i] in users;
          r := Err(HttpError(400, DuplicateMessage));
        case None =>
          assert forall u :: u in users ==> !SameEmailOrUsername(data.email, data.username)(u);
          var user := User(newId, data.email, data.username, h.hash(data.password), true);
          ghost var before := users;
          users := users + [user];
          assert forall k :: 0 <= k < |before| ==> users[k] == before[k] && users[k] in before;
          r := Ok(user);
      }
    }
  }

  /** A user just registered with a password logs in with that password. */
  lemma {:induction false} RegisteredUserCanLogIn(users: seq<User>, data: UserRegister, h: Hasher, newId: string)
    requires Sound(h)
    requires forall u :: u in users ==> u.email != data.email
    ensures var u := User(newId, data.email, data.username, h.hash(data.password), true);
            Authenticate(users + [u], UserLogin(data.email, data.password), h) == Ok(u)
  {
    var u := User(newId, data.email, data.username, h.hash(data.password), true);
    var all := users + [u];
    assert h.verify(data.password, h.hash(data.password));
    var found := Seqs.Find(all, WithEmail(data.email));
    assert all[|users|] == u;
    assert found.Some?;
    assert all[found.value] in users || found.value == |users|;
  }

  /** With unique emails, a known email and a password that verifies decide
      the answer by the account's state alone: `Ok` when active, 403 when not. */
  lemma KnownUserWithRightPassword(users: seq<User>, login: UserLogin, h: Hasher, u: User)
    requires UniqueKeys(users)
    requires u in users && u.email == login.email
    requires h.verify(login.password, u.hashedPassword)
    ensures Authenticate(users, login, h) == if u.isActive then Ok(u) else Err(HttpError(403, InactiveMessage))
  {
    var k :| 0 <= k < |users| && users[k] == u;
    var found := Seqs.Find(users, WithEmail(login.email));
    assert WithEmail(login.email)(users[k]);
    assert found.Some?;
    var i := found.value;
    assert users[i].email == login.email;
    assert i == k;
  }

  /** Another password gets in only if the hasher accepts it for the stored hash;
      it is the same rejection as for an unknown email otherwise. */
  lemma WrongPasswordLooksLikeUnknownEmail(users: seq<User>, email: string, password: string, h: Hasher)
    requires forall u :: u in users && u.email == email ==> !h.verify(password, u.hashedPassword)
    ensures Authenticate(users, UserLogin(email, password), h) == Err(HttpError(401, BadCredentialsMessage))
  {
    match Seqs.Find(users, WithEmail(email)) {
      case None =>
      case Some(i) => assert users[i] in users;
    }
  }
}

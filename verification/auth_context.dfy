/** The demo authentication context: three fixed accounts, a login that looks the account up
    by e-mail and accepts one fixed password, a logout, and the `user` / `isLoading` state. */
module AuthContext {
  import opened Wrappers
  import opened Domain
  import opened Lists

  const DemoPassword: string := "demo123"

  const MockUsers: seq<User> := [
    User("1", "ciudadano@demo.com", "María García", "ciudadano", Some("+57 300 123 4567"), None),
    User("2", "supervisor@demo.com", "Carlos Rodríguez", "supervisor", Some("+57 300 234 5678"), Some("Zona Centro")),
    User("3", "trabajador@demo.com", "Juan Pérez", "trabajador", Some("+57 300 345 6789"), Some("Zona Centro"))
  ]

  function Email(u: User): string
  {
    u.email
  }

  function EmailIs(email: string): User -> bool
  {
    (u: User) => u.email == email
  }

  function RoleIs(role: Role): User -> bool
  {
    (u: User) => u.role == role.Literal()
  }

  /** `mockUsers.find(u => u.email === email)`. */
  function FindUserByEmail(email: string): (r: Option<User>)
    ensures r.None? <==> forall u :: u in MockUsers ==> u.email != email
    ensures r.Some? ==> r.value in MockUsers && r.value.email == email
  {
    Find(MockUsers, EmailIs(email))
  }

  /** The condition of `login`: a known e-mail and the demo password. */
  predicate LoginAccepted(email: string, password: string)
  {
    FindUserByEmail(email).Some? && password == DemoPassword
  }

  /** Each role has exactly one account. */
  lemma RoleHasOneAccount(role: Role)
    ensures |Filter(MockUsers, RoleIs(role))| == 1
  {
    var p := RoleIs(role);
    var a, b, c := MockUsers[0], MockUsers[1], MockUsers[2];
    assert MockUsers == [a] + [b] + [c];
    FilterAppend([a] + [b], [c], p);
    FilterAppend([a], [b], p);
    assert Filter([a], p) == (if p(a) then [a] else []) by { assert [a][1..] == []; }
    assert Filter([b], p) == (if p(b) then [b] else []) by { assert [b][1..] == []; }
    assert Filter([c], p) == (if p(c) then [c] else []) by { assert [c][1..] == []; }
    match role
    case Ciudadano => assert p(a) && !p(b) && !p(c);
    case Supervisor => assert !p(a) && p(b) && !p(c);
    case Trabajador => assert !p(a) && !p(b) && p(c);
  }

  /** The accounts have distinct e-mails and declared roles, and each role has exactly one
      account. */
  lemma MockUsersDistinct()
    ensures forall i, j :: 0 <= i < j < |MockUsers| ==> Email(MockUsers[i]) != Email(MockUsers[j])
    ensures forall role: Role :: |Filter(MockUsers, RoleIs(role))| == 1
    ensures forall u :: u in MockUsers ==> WellTypedUser(u)
  {
    forall role: Role
      ensures |Filter(MockUsers, RoleIs(role))| == 1
    {
      RoleHasOneAccount(role);
    }
  }

  /** Every account can log in with its own e-mail and the demo password, and the session then
      holds that very account. */
  lemma EveryAccountLogsIn(u: User)
    requires u in MockUsers
    ensures LoginAccepted(u.email, DemoPassword)
    ensures FindUserByEmail(u.email) == Some(u)
  {
    MockUsersDistinct();
    FindByUniqueKey(MockUsers, Email, u, EmailIs(u.email));
  }

  class AuthSession {
    var user: Option<User>
    var isLoading: bool

    constructor ()
      ensures user.None? && isLoading
    {
      user, isLoading := None, true;
    }

    /** The mount effect. `stored` is what the browser's storage holds under "user": nothing,
        a string that parses to a user record, or a string `JSON.parse` rejects. A parsed user
        is restored as it is, whatever its role; loading then ends. A rejected string throws
        before loading is ended, so nothing changes and the spinner stays. */
    method RestoreSession(stored: Option<Call<User>>)
      modifies this
      ensures stored == None ==> user == old(user) && !isLoading
      ensures stored.Some? && stored.value.Resolved? ==> user == Some(stored.value.value) && !isLoading
      ensures stored == Some(Rejected) ==> user == old(user) && isLoading == old(isLoading)
    {
      match stored {
        case None =>
          isLoading := false;
        case Some(Resolved(u)) =>
          user := Some(u);
          isLoading := false;
        case Some(Rejected) =>
      }
    }

    /** `login`, the simulated delay taken as done. It succeeds exactly for a known e-mail with
        the demo password, and then the session holds the first account with that e-mail; a
        failure leaves the user as it was. Loading ends either way. */
    method Login(email: string, password: string) returns (success: bool)
      modifies this
      ensures success <==> LoginAccepted(email, password)
      ensures success ==> user == FindUserByEmail(email)
      ensures !success ==> user == old(user)
      ensures !isLoading
    {
      isLoading := true;
      var found := FindUserByEmail(email);
      if found.Some? && password == DemoPassword {
        user := found;
        isLoading := false;
        return true;
      }
      isLoading := false;
      return false;
    }

    /** `logout`: nobody is signed in afterwards. */
    method Logout()
      modifies this
      ensures user.None?
      ensures isLoading == old(isLoading)
    {
      user := None;
    }
  }
}

/** The mock authentication store (store/useAuthStore.ts): a user and an
    authenticated flag, changed by a login against one hard-coded account,
    a logout and a profile update. */
module AuthStore {
  import opened Wrappers

  const DemoEmail := "test@example.com"
  const DemoPassword := "password123"
  const DemoName := "John Doe"

  /** `User`: the profile image is optional. */
  datatype User = User(email: string, name: string, profileImage: Option<string>)

  /** The store's two data fields. */
  datatype AuthView = AuthView(user: Option<User>, isAuthenticated: bool)

  const Initial := AuthView(None, false)

  /** Authenticated only with a user. */
  predicate Consistent(v: AuthView) {
    v.isAuthenticated ==> v.user.Some?
  }

  /** The user a successful login installs. */
  function DemoUser(email: string): User {
    User(email, DemoName, Some(""))
  }

  /** Whether `login(email, password)` resolves to true. */
  predicate CredentialsAccepted(email: string, password: string) {
    email == DemoEmail && password == DemoPassword
  }

  datatype AuthAction =
    | Login(email: string, password: string)
    | Logout
    | UpdateProfile(updatedUser: User)

  predicate SuccessfulLogin(a: AuthAction) {
    a.Login? && CredentialsAccepted(a.email, a.password)
  }

  /** The store's state after one action. */
  function Apply(v: AuthView, a: AuthAction): (r: AuthView)
    ensures Consistent(v) ==> Consistent(r)
    ensures r.isAuthenticated <==> SuccessfulLogin(a) || (v.isAuthenticated && !a.Logout?)
  {
    match a
    case Login(email, password) =>
      if CredentialsAccepted(email, password) then AuthView(Some(DemoUser(email)), true) else v
    case Logout => AuthView(None, false)
    case UpdateProfile(u) => v.(user := Some(u))
  }

  /** The store's state after a sequence of actions, applied in order. */
  function ApplyAll(v: AuthView, actions: seq<AuthAction>): AuthView
    decreases |actions|
  {
    if actions == [] then v else Apply(ApplyAll(v, actions[..|actions| - 1]), actions[|actions| - 1])
  }

  /** Every reachable state is consistent: the invariant holds initially and every
      operation preserves it. */
  lemma {:induction false} AlwaysConsistent(actions: seq<AuthAction>)
    ensures Consistent(ApplyAll(Initial, actions))
  {
    ReachableConsistent(Initial, actions);
  }

  lemma {:induction false} ReachableConsistent(v: AuthView, actions: seq<AuthAction>)
    requires Consistent(v)
    ensures Consistent(ApplyAll(v, actions))
    decreases |actions|
  {
    if actions != [] {
      ReachableConsistent(v, actions[..|actions| - 1]);
    }
  }

  /** No logout among `actions` from index `from` on. */
  predicate NoLogoutFrom(actions: seq<AuthAction>, from: int) {
    forall j :: from <= j < |actions| && 0 <= j ==> !actions[j].Logout?
  }

  /** The store is authenticated exactly when some successful login has not been
      followed by a logout, or it started authenticated and no logout came. */
  lemma {:induction false} AuthenticatedAfter(v: AuthView, actions: seq<AuthAction>)
    ensures ApplyAll(v, actions).isAuthenticated <==>
              (exists i :: 0 <= i < |actions| && SuccessfulLogin(actions[i]) && NoLogoutFrom(actions, i + 1))
              || (v.isAuthenticated && NoLogoutFrom(actions, 0))
    decreases |actions|
  {
    if actions != [] {
      var n := |actions| - 1;
      var init := actions[..n];
      var last := actions[n];
      AuthenticatedAfter(v, init);
      assert forall j :: 0 <= j < n ==> init[j] == actions[j];
      var lhs := ApplyAll(v, actions).isAuthenticated;
      var viaLogin := exists i :: 0 <= i < |actions| && SuccessfulLogin(actions[i]) && NoLogoutFrom(actions, i + 1);
      var viaStart := v.isAuthenticated && NoLogoutFrom(actions, 0);
      if last.Logout? {
        assert !NoLogoutFrom(actions, 0);
        assert !viaLogin by {
          forall i | 0 <= i < |actions| && SuccessfulLogin(actions[i]) ensures !NoLogoutFrom(actions, i + 1) {
            assert i < n;
          }
        }
      } else if SuccessfulLogin(last) {
        assert SuccessfulLogin(actions[n]) && NoLogoutFrom(actions, n + 1);
      } else {
        // neither a logout nor a successful login: the flag carries over
        forall i | 0 <= i <= n ensures NoLogoutFrom(actions, i) <==> NoLogoutFrom(init, i) {
          if NoLogoutFrom(init, i) {
            forall j | i <= j < |actions| ensures !actions[j].Logout? {
              if j < n { assert init[j] == actions[j]; }
            }
          }
        }
        if viaLogin {
          var i :| 0 <= i < |actions| && SuccessfulLogin(actions[i]) && NoLogoutFrom(actions, i + 1);
          assert i < n;
          assert SuccessfulLogin(init[i]) && NoLogoutFrom(init, i + 1);
        }
      }
    }
  }

  /** `logout` is idempotent. */
  lemma LogoutIdempotent(v: AuthView)
    ensures Apply(Apply(v, Logout), Logout) == Apply(v, Logout) == Initial
  {
  }

  /** The zustand store. */
  class Store {
    var user: Option<User>
    var isAuthenticated: bool

    function View(): AuthView
      reads this
    {
      AuthView(user, isAuthenticated)
    }

    ghost predicate Valid()
      reads this
    {
      Consistent(View())
    }

    /** The initial state: no user, not authenticated. */
    constructor ()
      ensures View() == Initial && Valid()
    {
      user := None;
      isAuthenticated := false;
    }

    /** `login(email, password)`: only the demo account is accepted; any other
        credentials leave the state unchanged. */
    method Login(email: string, password: string) returns (ok: bool)
      requires Valid()
      modifies this
      ensures Valid()
      ensures View() == Apply(old(View()), AuthAction.Login(email, password))
      ensures ok == CredentialsAccepted(email, password)
      ensures ok ==> user == Some(User(DemoEmail, DemoName, Some(""))) && isAuthenticated
      ensures !ok ==> unchanged(this)
    {
      if email == DemoEmail && password == DemoPassword {
        user, isAuthenticated := Some(User(email, DemoName, Some(""))), true;
        return true;
      }
      return false;
    }

    /** `logout`: back to the initial state. */
    method Logout()
      modifies this
      ensures Valid()
      ensures View() == Apply(old(View()), AuthAction.Logout)
      ensures View() == Initial
    {
      user, isAuthenticated := None, false;
    }

    /** `updateProfile(updatedUser)`: the user is replaced, the flag is left alone. */
    method UpdateProfile(updatedUser: User)
      requires Valid()
      modifies this
      ensures Valid()
      ensures View() == Apply(old(View()), AuthAction.UpdateProfile(updatedUser))
      ensures user == Some(updatedUser) && isAuthenticated == old(isAuthenticated)
    {
      user := Some(updatedUser);
    }
  }
}

/** The account and appearance context: the signed-in user, whether the
    first authentication report is still awaited, and the body colour of
    the device. The identity provider is outside the model: what it
    reports arrives as a parameter. */
module Account {
  import opened Media

  datatype User = User(uid: string, displayName: string)

  /** What `loginWithGoogle` settles with: a user, no user (the redirect
      flow), or a thrown error. */
  datatype LoginOutcome = SignedIn(user: User) | NoUser | LoginFailed

  datatype AccountState = AccountState(user: Option<User>, loading: bool, color: string)

  const DefaultColor := "silver"

  /** Start-up: nobody signed in, waiting for the first report, silver. */
  function Initial(): (s: AccountState)
    ensures s.user == None && s.loading && s.color == DefaultColor
  {
    AccountState(None, true, DefaultColor)
  }

  /** The provider reports the current user (possibly nobody); loading
      ends. */
  function AuthStateChanged(s: AccountState, u: Option<User>): (r: AccountState)
    ensures r.user == u && !r.loading && r.color == s.color
  {
    s.(user := u, loading := false)
  }

  /** The 1.5 s safety timer: loading ends whatever the provider did. */
  function LoadTimedOut(s: AccountState): (r: AccountState)
    ensures !r.loading && r.user == s.user && r.color == s.color
  {
    s.(loading := false)
  }

  /** `login()`: a returned user is adopted only when nobody is signed in;
      no user and a failure both leave the state as it was. */
  function LoggedIn(s: AccountState, outcome: LoginOutcome): (r: AccountState)
    ensures r.color == s.color && r.loading == s.loading
    ensures s.user.Some? ==> r == s
    ensures !outcome.SignedIn? ==> r == s
    ensures s.user.None? && outcome.SignedIn? ==> r.user == Some(outcome.user)
  {
    if outcome.SignedIn? && s.user.None? then s.(user := Some(outcome.user)) else s
  }

  /** `logout()`: nobody signed in and the colour back to silver. */
  function LoggedOut(s: AccountState): (r: AccountState)
    ensures r.user == None && r.color == DefaultColor && r.loading == s.loading
  {
    s.(user := None, color := DefaultColor)
  }

  /** `changeColor(color)`. */
  function ColorChanged(s: AccountState, color: string): (r: AccountState)
    ensures r.color == color && r.user == s.user && r.loading == s.loading
  {
    s.(color := color)
  }

  /** Signing out undoes a sign-in and any colour chosen meanwhile: the
      account is back to the signed-out silver state it had at start-up,
      apart from the loading flag. */
  lemma LogoutUndoesLogin(s: AccountState, outcome: LoginOutcome, color: string)
    requires s.user == None && s.color == DefaultColor
    ensures LoggedOut(ColorChanged(LoggedIn(s, outcome), color)) == s
  {
  }

  /** A login never replaces a user who is already signed in. */
  lemma LoginKeepsExistingUser(s: AccountState, outcome: LoginOutcome)
    requires s.user.Some?
    ensures LoggedIn(s, outcome).user == s.user
  {
  }

  class Auth {
    var user: Option<User>
    var authLoading: bool
    var ipodColor: string

    function State(): AccountState
      reads this
    {
      AccountState(user, authLoading, ipodColor)
    }

    constructor ()
      ensures State() == Initial()
    {
      user := None;
      authLoading := true;
      ipodColor := DefaultColor;
    }

    method OnAuthStateChanged(u: Option<User>)
      modifies this
      ensures State() == AuthStateChanged(old(State()), u)
    {
      user := u;
      authLoading := false;
    }

    method OnLoadTimeout()
      modifies this
      ensures State() == LoadTimedOut(old(State()))
    {
      authLoading := false;
    }

    method Login(outcome: LoginOutcome)
      modifies this
      ensures State() == LoggedIn(old(State()), outcome)
    {
      if outcome.SignedIn? && user.None? {
        user := Some(outcome.user);
      }
    }

    method Logout()
      modifies this
      ensures State() == LoggedOut(old(State()))
    {
      user := None;
      ipodColor := DefaultColor;
    }

    method ChangeColor(color: string)
      modifies this
      ensures State() == ColorChanged(old(State()), color)
    {
      ipodColor := color;
    }
  }
}

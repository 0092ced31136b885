/** The session slice of the store: `authLogin` copies the session out of its
    payload and `authLogout` puts every field back to its initial value. The
    slice is mutated in place, so it is a class; `State()` is its value. */
module Auth {
  import opened Common

  /** The signed-in user, as far as the model needs it. */
  datatype User = User(id: string)

  /** The four fields of the slice. */
  datatype Session = Session(user: Option<User>, status: bool, accessToken: Option<string>, refreshToken: Option<string>)

  /** `initialState`: nobody signed in. */
  const InitialState := Session(None, false, None, None)

  /** The payload of `authLogin`; a field the caller leaves out is `None`. */
  datatype LoginPayload = LoginPayload(user: Option<User>, accessToken: Option<string>, refreshToken: Option<string>)

  /** The slice after `authLogin`. */
  function LoginState(s: Session, p: LoginPayload): Session {
    Session(p.user, true, p.accessToken, p.refreshToken)
  }

  /** The slice after `authLogout`. */
  function LogoutState(s: Session): Session {
    InitialState
  }

  /** A login leaves nothing of the previous session behind: the result is
      the same whatever the slice held before. */
  lemma LoginOverwrites(s: Session, t: Session, p: LoginPayload)
    ensures LoginState(s, p) == LoginState(t, p)
    ensures LoginState(s, p).status
    ensures LoginState(s, p).user == p.user && LoginState(s, p).accessToken == p.accessToken
    ensures LoginState(s, p).refreshToken == p.refreshToken
  {
  }

  /** A second login replaces the first one's fields. */
  lemma SecondLoginWins(s: Session, p: LoginPayload, q: LoginPayload)
    ensures LoginState(LoginState(s, p), q) == LoginState(s, q)
  {
  }

  /** Logging out twice is logging out once. */
  lemma LogoutIdempotent(s: Session)
    ensures LogoutState(LogoutState(s)) == LogoutState(s)
  {
  }

  /** Login then logout gives back `initialState`, from any slice. */
  lemma LoginThenLogout(s: Session, p: LoginPayload)
    ensures LogoutState(LoginState(s, p)) == InitialState
    ensures !LogoutState(LoginState(s, p)).status
  {
  }

  class AuthSlice {
    var user: Option<User>
    var status: bool
    var accessToken: Option<string>
    var refreshToken: Option<string>

    function State(): Session
      reads this
    {
      Session(user, status, accessToken, refreshToken)
    }

    constructor ()
      ensures State() == InitialState
    {
      user, status, accessToken, refreshToken := None, false, None, None;
    }

    /** `authLogin`: the status is raised and the three session fields are
        copied from the payload. */
    method Login(p: LoginPayload)
      modifies this
      ensures State() == LoginState(old(State()), p)
    {
      status := true;
      user := p.user;
      accessToken := p.accessToken;
      refreshToken := p.refreshToken;
    }

    /** `authLogout`: all four fields go back to `initialState`. */
    method Logout()
      modifies this
      ensures State() == LogoutState(old(State()))
    {
      status := false;
      user := None;
      accessToken := None;
      refreshToken := None;
    }
  }

  /** Two logins and a logout on the slice: the tokens of the first session
      are gone after the second login, and the logout leaves the initial
      state. */
  method SessionLifecycle(p: LoginPayload, q: LoginPayload) returns (afterSecond: Session, afterLogout: Session)
    ensures afterSecond == Session(q.user, true, q.accessToken, q.refreshToken)
    ensures afterLogout == InitialState
  {
    var slice := new AuthSlice();
    slice.Login(p);
    slice.Login(q);
    afterSecond := slice.State();
    slice.Logout();
    afterLogout := slice.State();
  }
}

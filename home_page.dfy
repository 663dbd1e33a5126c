/**
  The home page's state machine. It starts on the intro; the auth effect
  moves it to email verification, the dashboard or the auth selection;
  the intro and the two forms move it by their callbacks.

  The auth selection navigates by route rather than by changing the state,
  so the sign-in and sign-up states are never entered.
 */
module HomePage {
  import opened Wrappers
  import opened UserTypes

  datatype AppState = Intro | AuthSelection | SignInState | SignUpState | DashboardState | EmailVerification

  /** The auth account as the context holds it: present or not, and whether its email is verified. */
  datatype Account = Account(emailVerified: bool)

  /**
    The auth effect: nothing before mounting or while loading; an unverified
    account goes to email verification; a verified one with a loaded profile
    to the dashboard, without one it stays; with no account every state but
    the intro goes to the auth selection.
   */
  function AuthEffect(s: AppState, mounted: bool, loading: bool, account: Option<Account>, profile: bool): (r: AppState)
    ensures !mounted || loading ==> r == s
    ensures mounted && !loading && account.Some? ==>
      r == (if !account.value.emailVerified then EmailVerification else if profile then DashboardState else s)
    ensures mounted && !loading && account.None? ==> r == (if s == Intro then Intro else AuthSelection)
  {
    if !mounted || loading then s
    else if account.Some? then
      if !account.value.emailVerified then EmailVerification
      else if profile then DashboardState
      else s
    else if s != Intro then AuthSelection
    else s
  }

  datatype View =
    | Blank
    | IntroPage
    | AuthSelectionPage
    | SignInForm
    | SignUpForm
    | ResidentDashboard
    | WatchmanDashboard
    | CommitteeDashboard
    | EmailVerificationPage

  /** `renderCurrentState`: the dashboard is chosen by role, by default the resident's. */
  function Render(s: AppState, mounted: bool, loading: bool, role: Option<string>): (v: View)
    ensures !mounted || loading <==> v == Blank
    ensures mounted && !loading && s == DashboardState ==>
      v == (if role == Some("watchman") then WatchmanDashboard
            else if role == Some("committee") then CommitteeDashboard
            else ResidentDashboard)
    ensures v == IntroPage <==> mounted && !loading && s == Intro
  {
    if !mounted || loading then Blank
    else match s
      case Intro => IntroPage
      case AuthSelection => AuthSelectionPage
      case SignInState => SignInForm
      case SignUpState => SignUpForm
      case DashboardState =>
        if role == Some("resident") then ResidentDashboard
        else if role == Some("watchman") then WatchmanDashboard
        else if role == Some("committee") then CommitteeDashboard
        else ResidentDashboard
      case EmailVerification => EmailVerificationPage
  }

  /** What can happen to the page: an auth change, or a callback of the view currently shown. */
  datatype Event =
    | AuthChange(mounted: bool, loading: bool, account: Option<Account>, profile: bool)
    | IntroDone
    | SignInDone
    | SignUpDone
    | BackPressed

  /**
    One event; a callback only fires while the view that owns it is shown.
    No event enters a form state the page is not already in, and none
    enters the intro from elsewhere.
   */
  function Step(s: AppState, e: Event): (r: AppState)
    ensures r == SignInState || r == SignUpState ==> r == s
    ensures r == Intro ==> s == Intro
  {
    match e
    case AuthChange(m, l, a, p) => AuthEffect(s, m, l, a, p)
    case IntroDone => if s == Intro then AuthSelection else s
    case SignInDone => if s == SignInState then DashboardState else s
    case SignUpDone => if s == SignUpState then AuthSelection else s
    case BackPressed => if s == SignInState || s == SignUpState then AuthSelection else s
  }

  function Run(s: AppState, es: seq<Event>): AppState
    decreases |es|
  {
    if es == [] then s else Run(Step(s, es[0]), es[1..])
  }

  /** From the intro, no sequence of events ever reaches the sign-in or sign-up state. */
  lemma {:induction false} FormsUnreachable(s: AppState, es: seq<Event>)
    requires s != SignInState && s != SignUpState
    ensures Run(s, es) != SignInState && Run(s, es) != SignUpState
    decreases |es|
  {
    if es != [] {
      FormsUnreachable(Step(s, es[0]), es[1..]);
    }
  }

  /** Once the page has left the intro, it never returns to it. */
  lemma {:induction false} IntroNotRevisited(s: AppState, es: seq<Event>)
    requires s != Intro
    ensures Run(s, es) != Intro
    decreases |es|
  {
    if es != [] {
      IntroNotRevisited(Step(s, es[0]), es[1..]);
    }
  }

  class Home {
    var state: AppState
    var mounted: bool

    /** The page starts on the intro, not yet mounted. */
    constructor ()
      ensures state == Intro && !mounted
    {
      state := Intro;
      mounted := false;
    }

    method Mount()
      modifies this
      ensures mounted && state == old(state)
    {
      mounted := true;
    }

    /** The effect on `[user, firebaseUser, loading, mounted, appState]`. */
    method OnAuthChange(loading: bool, account: Option<Account>, profile: bool)
      modifies this
      ensures state == AuthEffect(old(state), mounted, loading, account, profile)
      ensures state == Step(old(state), AuthChange(mounted, loading, account, profile))
      ensures mounted == old(mounted)
    {
      if !mounted || loading {
        return;
      }
      if account.Some? {
        if !account.value.emailVerified {
          state := EmailVerification;
        } else if profile {
          state := DashboardState;
        }
      } else if state != Intro {
        state := AuthSelection;
      }
    }

    /** The intro's `onComplete`, which exists while the intro is shown. */
    method IntroComplete()
      requires state == Intro
      modifies this
      ensures state == Step(old(state), IntroDone) && state == AuthSelection
      ensures mounted == old(mounted)
    {
      state := AuthSelection;
    }

    /** The sign-in form's `onSuccess`, which exists while that form is shown. */
    method SignInSuccess()
      requires state == SignInState
      modifies this
      ensures state == Step(old(state), SignInDone) && state == DashboardState
      ensures mounted == old(mounted)
    {
      state := DashboardState;
    }

    /** The sign-up form's `onSuccess`, which exists while that form is shown. */
    method SignUpSuccess()
      requires state == SignUpState
      modifies this
      ensures state == Step(old(state), SignUpDone) && state == AuthSelection
      ensures mounted == old(mounted)
    {
      state := AuthSelection;
    }

    /** The forms' back button, which exists while one of the forms is shown. */
    method Back()
      requires state == SignInState || state == SignUpState
      modifies this
      ensures state == Step(old(state), BackPressed) && state == AuthSelection
      ensures mounted == old(mounted)
    {
      state := AuthSelection;
    }
  }
}

/**
  The sign-in form: the verified-email gate, the user record it sets from
  the profile document, the redirect by (lower-cased) role, and the
  password-reset guard.
 */
module SignIn {
  import opened Wrappers
  import opened Text
  import opened UserTypes
  import opened Backend
  import opened Routes
  import SignUp

  /** The record the form sets: absent profile fields become empty strings; `uid` and `emailVerified` come from the account. */
  function SignedInUser(uid: string, verified: bool, d: ProfileDoc): (u: User)
    ensures u.uid == uid && u.emailVerified == verified
    ensures u.email == OrElse(d.email, "") && u.role == OrElse(d.role, "") && u.name == OrElse(d.name, "")
    ensures u.societyId == Some(OrElse(d.societyId, ""))
    ensures u.apartment.None? && u.phoneNumber.None? && u.residentId.None?
  {
    User(uid, OrElse(d.email, ""), OrElse(d.role, ""), OrElse(d.name, ""), None, None, verified, None,
         Some(OrElse(d.societyId, "")))
  }

  /** The redirect after setting the user: on the lower-cased role, one of the three dashboards, or none. */
  function RoleRoute(role: string): (r: Option<Route>)
    ensures r.Some? <==> ParseRole(Lower(role)).Some?
    ensures r.Some? ==> r.value == DashboardOf(ParseRole(Lower(role)).value)
  {
    var k := Lower(role);
    if k == "resident" then Some(ResidentDashboard)
    else if k == "watchman" then Some(WatchmanDashboard)
    else if k == "committee" then Some(CommitteeDashboard)
    else None
  }

  /** Unlike the page guards, this redirect ignores case: "Resident" is taken to the resident dashboard. */
  lemma RoleRouteIgnoresCase()
    ensures RoleRoute("Resident") == Some(ResidentDashboard)
    ensures ParseRole("Resident").None?
  {
    assert Lower("Resident") == "resident";
  }

  /** What `signInWithEmailAndPassword` gives. */
  datatype Credential = BadCredentials | SignedIn(uid: string, verified: bool)

  datatype SignInResult =
    | NotInitialized
    | InvalidCredentials
    | Unverified
    | Routed(route: Route)
    | RoleNotDefined
    | NoProfile
    | ProfileReadFailed

  class Form {
    var email: string
    var loading: bool
    /** The shared auth context's user, which this form sets. */
    var user: Option<User>
    /** Whether an account session is open. */
    var session: bool

    constructor (email: string)
      ensures this.email == email && !loading && user.None? && !session
    {
      this.email := email;
      loading := false;
      user := None;
      session := false;
    }

    /**
      `handleSubmit`. An unverified account is signed out again and sets no
      user; a verified one with a profile sets the user and is routed by
      role; a missing profile clears the user; a failed read clears the user
      and calls `onSuccess` (`calledOnSuccess`). `signOutOk` is the outcome of
      signing the unverified account out: a failure lands in the outer catch,
      reported as invalid credentials, with the session still open.
     */
    method Submit(users: Users, authReady: bool, cred: Credential, readOk: bool, signOutOk: bool)
      returns (res: SignInResult, calledOnSuccess: bool)
      modifies this
      ensures !authReady ==> res == NotInitialized && user == old(user) && session == old(session) && loading == old(loading)
      ensures authReady ==> !loading
      ensures authReady && cred.BadCredentials? ==> res == InvalidCredentials && user == old(user) && session == old(session)
      ensures authReady && cred.SignedIn? && !cred.verified ==>
        user == old(user) &&
        if signOutOk then res == Unverified && !session else res == InvalidCredentials && session
      ensures authReady && cred.SignedIn? && cred.verified ==>
        session &&
        (if !readOk then res == ProfileReadFailed && user.None?
         else if cred.uid !in users.docs then res == NoProfile && user.None?
         else
           var d := users.docs[cred.uid];
           user == Some(SignedInUser(cred.uid, true, d)) &&
           res == match RoleRoute(OrElse(d.role, "")) case Some(r) => Routed(r) case None => RoleNotDefined)
      ensures calledOnSuccess <==> res == ProfileReadFailed
      ensures email == old(email)
    {
      calledOnSuccess := false;
      if !authReady {
        return NotInitialized, false;
      }
      loading := true;
      match cred {
        case BadCredentials =>
          res := InvalidCredentials;
        case SignedIn(uid, verified) =>
          session := true;
          if !verified {
            if signOutOk {
              session := false;
              res := Unverified;
            } else {
              res := InvalidCredentials;
            }
          } else if !readOk {
            user := None;
            res := ProfileReadFailed;
            calledOnSuccess := true;
          } else if uid in users.docs {
            var d := users.docs[uid];
            user := Some(SignedInUser(uid, true, d));
            var next := RoleRoute(OrElse(d.role, ""));
            res := if next.Some? then Routed(next.value) else RoleNotDefined;
          } else {
            user := None;
            res := NoProfile;
          }
      }
      loading := false;
    }
  }

  /**
    A watchman who signed up and then signs in with a verified address is
    given the default society and taken to the watchman dashboard.
   */
  lemma SignUpThenSignIn(f: SignUp.SignUpForm, uid: string)
    requires f.role == Watchman
    ensures SignedInUser(uid, true, SignUp.ProfileOf(f)).societyId == Some(SignUp.DefaultSocietyId)
    ensures RoleRoute(OrElse(SignUp.ProfileOf(f).role, "")) == Some(WatchmanDashboard)
  {
    assert Lower("watchman") == "watchman";
  }

  datatype ResetResult = ResetNotInitialized | NeedsEmail | ResetSent | ResetFailed

  /** "Forgot your password?": nothing is sent without services or with an empty email; `ok` is the send's outcome. */
  function ResetPassword(authReady: bool, email: string, ok: bool): (r: ResetResult)
    ensures r == ResetSent ==> authReady && email != ""
    ensures !authReady ==> r == ResetNotInitialized
    ensures authReady && email == "" ==> r == NeedsEmail
    ensures authReady && email != "" ==> (r == ResetSent <==> ok)
  {
    if !authReady then ResetNotInitialized
    else if email == "" then NeedsEmail
    else if ok then ResetSent
    else ResetFailed
  }
}

/**
  The authentication context: the listener that turns an auth account
  into the application's user record, and `logout`.
 */
module AuthContext {
  import opened Wrappers
  import opened Text
  import opened UserTypes
  import opened Backend
  import DeleteRoute

  /** An auth account: its uid and whether its email is verified. */
  datatype Account = Account(uid: string, emailVerified: bool)

  /**
    `{ uid, ...userData, residentId: userData.residentId || "", emailVerified }`:
    the profile's fields, with `uid` and `emailVerified` from the account and
    the resident id defaulting to "". A missing text field reads as "".
   */
  function ProfileUser(a: Account, d: ProfileDoc): (u: User)
    ensures u.uid == a.uid && u.emailVerified == a.emailVerified
    ensures u.residentId == Some(OrElse(d.residentId, ""))
    ensures u.email == OrElse(d.email, "") && u.role == OrElse(d.role, "") && u.name == OrElse(d.name, "")
    ensures u.apartment == d.apartment && u.phoneNumber == d.phoneNumber && u.societyId == d.societyId
  {
    User(a.uid, OrElse(d.email, ""), OrElse(d.role, ""), OrElse(d.name, ""), d.apartment, d.phoneNumber,
         a.emailVerified, Some(OrElse(d.residentId, "")), d.societyId)
  }

  /** The body of the cleanup request sent for an account without a profile. */
  function CleanupRequest(uid: string): DeleteRoute.Body {
    DeleteRoute.Body(None, Some(uid))
  }

  /** The cleanup request selects the visitors that account added (nothing for an empty uid). */
  lemma CleanupSelectsOwnVisitors(uid: string)
    ensures uid != "" ==> DeleteRoute.Select(CleanupRequest(uid)) == Some(DeleteRoute.ByAddedBy(uid))
    ensures uid == "" ==> DeleteRoute.Select(CleanupRequest(uid)).None?
  {
  }

  class Provider {
    var user: Option<User>
    var account: Option<Account>
    var loading: bool

    constructor ()
      ensures user.None? && account.None? && loading
    {
      user := None;
      account := None;
      loading := true;
    }

    /**
      The `onAuthStateChanged` handler. `readOk` is the outcome of reading
      the profile, `signOutOk` that of signing an unverified account out; a
      failing sign-out lands in the handler's catch, which clears only the
      user. Returns the uid whose visitors the cleanup request asks to
      delete, if one is sent.
     */
    method OnAuthStateChanged(users: Users, a: Option<Account>, readOk: bool, signOutOk: bool) returns (cleanup: Option<string>)
      modifies this
      ensures !loading
      ensures cleanup.Some? <==> a.Some? && readOk && a.value.uid !in users.docs
      ensures cleanup.Some? ==> cleanup.value == a.value.uid
      ensures a.None? ==> user.None? && account.None?
      ensures a.Some? && !readOk ==> user.None? && account == a
      ensures a.Some? && readOk && a.value.uid !in users.docs ==> user.None? && account == a
      ensures a.Some? && readOk && a.value.uid in users.docs ==>
        if a.value.emailVerified then user == Some(ProfileUser(a.value, users.docs[a.value.uid])) && account == a
        else user.None? && account == (if signOutOk then None else a)
    {
      account := a;
      cleanup := None;
      if a.Some? {
        if !readOk {
          user := None;
        } else if a.value.uid in users.docs {
          var full := ProfileUser(a.value, users.docs[a.value.uid]);
          if !a.value.emailVerified {
            user := None;
            if signOutOk {
              account := None;
            }
            loading := false;
            return;
          }
          user := Some(full);
        } else {
          user := None;
          cleanup := Some(a.value.uid);
        }
      } else {
        user := None;
      }
      loading := false;
    }

    /** `logout`: without auth nothing happens; a successful sign-out clears both; a failed one changes nothing. */
    method Logout(authReady: bool, ok: bool)
      modifies this
      ensures authReady && ok ==> user.None? && account.None?
      ensures !(authReady && ok) ==> user == old(user) && account == old(account)
      ensures loading == old(loading)
    {
      if !authReady {
        return;
      }
      if ok {
        user := None;
        account := None;
      }
    }
  }
}

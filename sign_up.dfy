/**
  The sign-up form: the checks made before an account is created, in
  their order; the profile document written for the new account; the
  field filters; and what a failure leads to.
 */
module SignUp {
  import opened Wrappers
  import opened UserTypes
  import opened Validators
  import opened Backend
  import Suggestions

  datatype SignUpForm = SignUpForm(
    name: string,
    email: string,
    password: string,
    confirmPassword: string,
    role: Role,
    residentId: string,
    phoneNumber: string,
    societyId: string)

  const MinPasswordLength: nat := 6
  const DefaultSocietyId := "default-society-id"

  datatype Rejection = NotInitialized | PasswordsDiffer | PasswordTooShort

  /**
    The checks before anything is created, in order: services missing, then
    a confirmation that differs, then a password shorter than six characters.
   */
  function Check(f: SignUpForm, ready: bool): (r: Option<Rejection>)
    ensures r.None? <==> ready && f.password == f.confirmPassword && |f.password| >= MinPasswordLength
    ensures !ready ==> r == Some(NotInitialized)
    ensures ready && f.password != f.confirmPassword ==> r == Some(PasswordsDiffer)
    ensures r == Some(PasswordTooShort) <==> ready && f.password == f.confirmPassword && |f.password| < MinPasswordLength
  {
    if !ready then Some(NotInitialized)
    else if f.password != f.confirmPassword then Some(PasswordsDiffer)
    else if |f.password| < MinPasswordLength then Some(PasswordTooShort)
    else None
  }

  /** The mismatch is reported first: a short password that also differs from its confirmation is reported as differing. */
  lemma MismatchBeforeLength(f: SignUpForm)
    requires f.password != f.confirmPassword && |f.password| < MinPasswordLength
    ensures Check(f, true) == Some(PasswordsDiffer)
  {
  }

  /**
    The `userData` written for a new account: the form's name, email, role,
    resident id and phone; a society only for a watchman, and then the
    default one. The creation time is not modelled.
   */
  function ProfileOf(f: SignUpForm): (d: ProfileDoc)
    ensures d.name == Some(f.name) && d.email == Some(f.email) && d.role == Some(RoleName(f.role))
    ensures d.residentId == Some(f.residentId) && d.phoneNumber == Some(f.phoneNumber)
    ensures d.societyId.Some? <==> f.role == Watchman
    ensures d.societyId.Some? ==> d.societyId.value == DefaultSocietyId
    ensures d.residentName.None? && d.apartment.None?
  {
    var base := ProfileDoc(Some(f.name), Some(f.email), Some(RoleName(f.role)), None, Some(f.residentId),
                           Some(f.phoneNumber), None, None);
    if f.role == Watchman then base.(societyId := Some(DefaultSocietyId)) else base
  }

  /** The society typed into the form is never stored. */
  lemma ProfileIgnoresFormSociety(f: SignUpForm, s: string)
    ensures ProfileOf(f.(societyId := s)) == ProfileOf(f)
  {
  }

  /**
    A profile written here carries no resident name, so the watchman's
    resident-name suggestions never list an account created through this form.
   */
  lemma SignedUpProfileNotSuggested(f: SignUpForm)
    ensures !Suggestions.Listed(ProfileOf(f))
  {
  }

  /** "Passwords do not match" is shown while the confirmation is non-empty and differs. */
  predicate MismatchHint(f: SignUpForm) {
    f.confirmPassword != "" && f.confirmPassword != f.password
  }

  /** With a non-empty confirmation, the hint shows exactly when the submit would be refused as a mismatch. */
  lemma MismatchHintAgrees(f: SignUpForm)
    requires f.confirmPassword != ""
    ensures MismatchHint(f) <==> Check(f, true) == Some(PasswordsDiffer)
  {
  }

  /** What `createUserWithEmailAndPassword` does. */
  datatype Creation = Created(uid: string) | EmailInUse | CreateFailed

  datatype SignUpResult = Refused(why: Rejection) | Success | RedirectToSignIn | Failed

  class Form {
    var form: SignUpForm
    var loading: bool

    constructor ()
      ensures form == SignUpForm("", "", "", "", Resident, "", "", "") && !loading
    {
      form := SignUpForm("", "", "", "", Resident, "", "", "");
      loading := false;
    }

    /** The apartment field (shown to residents only): 0 to 5 digits, or the old value stays. */
    method EditApartment(input: string)
      modifies this
      ensures form == old(form).(residentId := OnFlatChange(old(form).residentId, input))
      ensures loading == old(loading)
    {
      form := form.(residentId := OnFlatChange(form.residentId, input));
    }

    /** The phone field: 0 to 10 digits, or the old value stays. */
    method EditPhone(input: string)
      modifies this
      ensures form == old(form).(phoneNumber := OnPhoneChange(old(form).phoneNumber, input))
      ensures loading == old(loading)
    {
      form := form.(phoneNumber := OnPhoneChange(form.phoneNumber, input));
    }

    /**
      `handleSubmit`: a refused form creates nothing; otherwise the account
      is created (`creation`), the verification email is attempted (its
      failure is only reported), the profile is written (`saveOk`), and
      success is signalled. An address already in use leads to sign-in.
     */
    method Submit(users: Users, ready: bool, creation: Creation, saveOk: bool) returns (res: SignUpResult)
      modifies this, users
      ensures Check(old(form), ready).Some? ==>
                res == Refused(Check(old(form), ready).value) && users.docs == old(users.docs) && loading == old(loading)
      ensures Check(old(form), ready).None? ==> !loading
      ensures res == Success <==> Check(old(form), ready).None? && creation.Created? && saveOk
      ensures res == RedirectToSignIn <==> Check(old(form), ready).None? && creation == EmailInUse
      ensures res == Success ==> users.docs == old(users.docs)[creation.uid := ProfileOf(old(form))]
      ensures res != Success ==> users.docs == old(users.docs)
      ensures form == old(form)
    {
      var refusal := Check(form, ready);
      if refusal.Some? {
        return Refused(refusal.value);
      }
      loading := true;
      match creation {
        case EmailInUse =>
          res := RedirectToSignIn;
        case CreateFailed =>
          res := Failed;
        case Created(uid) =>
          var written := users.Set(uid, ProfileOf(form), saveOk);
          res := if written then Success else Failed;
      }
      loading := false;
    }
  }
}

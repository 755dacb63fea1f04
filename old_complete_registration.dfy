/** The registration page an emailed sign-in link opens: the user confirms the address and
    chooses a password. */
module OldCompleteRegistration {
  import opened Common
  import opened PasswordValidation
  import opened PasswordValidity
  import opened AuthContext

  /** The key the address is read from on mount. */
  const SignInEmailKey: string := "emailForSignIn"
  /** The key removed after a successful registration (a different key). */
  const RegistrationEmailKey: string := "emailForRegistration"

  /** What signing in with the email link yielded: the error message, or the user's flags
      together with the outcomes of the password update and of fetching the ID token, and the
      session dispatched. */
  datatype SignInReply =
    | SignInFailed(message: string)
    | SignedIn(emailVerified: bool, isNewUser: bool, updateError: Option<string>,
               tokenError: Option<string>, session: AuthUser)

  datatype RegistrationOutcome =
    | Rejected          // the email/password guard refused
    | Failed            // signing in, updating the password or fetching the token threw
    | Registered        // new verified user: password set, logged in, sent home
    | ExistingUser      // verified existing user: the branch is empty
    | NotVerified       // neither branch applies

  class RegistrationPage {
    var email: string
    var password: string
    var loading: bool
    var passwordValidators: Validators
    var storage: map<string, string>
    var auth: State

    ghost predicate Valid()
      reads this
    {
      passwordValidators == Validate(password)
    }

    /** Mounting pre-fills the address from the sign-in key. */
    constructor (storedValues: map<string, string>, authState: State)
      ensures Valid()
      ensures email == StoredOrEmpty(storedValues, SignInEmailKey) && password == "" && !loading
      ensures storage == storedValues && auth == authState
    {
      email := StoredOrEmpty(storedValues, SignInEmailKey);
      password := "";
      loading := false;
      passwordValidators := AllFalse;
      storage := storedValues;
      auth := authState;
    }

    method OnEmailChange(value: string)
      requires Valid()
      modifies this
      ensures Valid()
      ensures email == value && password == old(password) && loading == old(loading)
      ensures storage == old(storage) && auth == old(auth)
    {
      email := value;
    }

    /** Every change of the password recomputes the validators from the new value. */
    method OnPasswordChange(value: string)
      requires Valid()
      modifies this
      ensures Valid()
      ensures password == value && passwordValidators == Validate(value)
      ensures email == old(email) && loading == old(loading)
      ensures storage == old(storage) && auth == old(auth)
    {
      passwordValidators := PasswordValidation.PasswordValidation(value);
      password := value;
    }

    predicate IsPasswordValid()
      reads this
    {
      AllValid(passwordValidators)
    }

    /** The Submit button's `disabled`. */
    function ButtonDisabled(): (disabled: bool)
      reads this
      ensures !disabled <==> email != "" && !loading && password != "" && IsPasswordValid()
    {
      email == "" || loading || password == "" || !IsPasswordValid()
    }

    /** The email input's `disabled`: a non-empty registration address in storage, or loading. */
    function EmailInputDisabled(): (disabled: bool)
      reads this
      ensures !disabled <==> !loading && StoredOrEmpty(storage, RegistrationEmailKey) == ""
    {
      (RegistrationEmailKey in storage && storage[RegistrationEmailKey] != "") || loading
    }

    /** `handleSubmit`. `updatedTo` is the password handed to `updatePassword`;
        `redirectTo` the route pushed. */
    method HandleSubmit(reply: SignInReply)
      returns (outcome: RegistrationOutcome, updatedTo: Option<string>, redirectTo: Option<string>)
      requires Valid()
      modifies this
      ensures Valid()
      ensures email == old(email) && password == old(password)
      ensures outcome == Rejected <==> old(email) == "" || old(password) == ""
      ensures outcome == Rejected || outcome == Failed ==> !loading
      ensures outcome == Rejected ==> storage == old(storage) && auth == old(auth)
      ensures outcome == Failed && reply.SignInFailed? ==> storage == old(storage) && auth == old(auth)
      ensures outcome == Failed && reply.SignedIn? ==>
        storage == old(storage) - {RegistrationEmailKey} && auth == old(auth)
      ensures outcome == Failed <==>
        old(email) != "" && old(password) != "" &&
        (reply.SignInFailed? ||
         (reply.emailVerified && reply.isNewUser && (reply.updateError.Some? || reply.tokenError.Some?)))
      ensures outcome == NotVerified <==>
        old(email) != "" && old(password) != "" && reply.SignedIn? && !reply.emailVerified
      ensures storage == old(storage) || storage == old(storage) - {RegistrationEmailKey}
      ensures SignInEmailKey in old(storage) ==>
        SignInEmailKey in storage && storage[SignInEmailKey] == old(storage)[SignInEmailKey]
      ensures outcome == Registered ==>
        reply.SignedIn? && storage == old(storage) - {RegistrationEmailKey} && auth.user == reply.session &&
        redirectTo == Some("/") && loading
      ensures outcome == Registered <==>
        old(email) != "" && old(password) != "" && reply.SignedIn? &&
        reply.emailVerified && reply.isNewUser && reply.updateError.None? && reply.tokenError.None?
      ensures outcome == ExistingUser <==>
        old(email) != "" && old(password) != "" && reply.SignedIn? && reply.emailVerified && !reply.isNewUser
      ensures outcome == ExistingUser || outcome == NotVerified ==>
        loading && storage == old(storage) && auth == old(auth)
      ensures redirectTo.Some? ==> outcome == Registered
      ensures updatedTo.Some? <==>
        old(email) != "" && old(password) != "" && reply.SignedIn? && reply.emailVerified && reply.isNewUser
      ensures updatedTo.Some? ==> updatedTo.value == old(password)
    {
      loading := true;
      redirectTo := None;
      updatedTo := None;
      if email == "" || password == "" {
        loading := false;
        return Rejected, None, None;
      }
      if reply.SignInFailed? {
        loading := false;
        return Failed, None, None;
      }
      if reply.emailVerified && reply.isNewUser {
        storage := storage - {RegistrationEmailKey};
        updatedTo := Some(password);
        if reply.updateError.Some? || reply.tokenError.Some? {
          loading := false;
          return Failed, updatedTo, None;
        }
        auth := FirebaseReducer(auth, Action(LoggedInUser, Some(Payload(reply.session))));
        return Registered, updatedTo, Some("/");
      } else if reply.emailVerified && !reply.isNewUser {
        return ExistingUser, None, None;
      }
      outcome := NotVerified;
    }
  }

  /** The button, unlike the guard, enables only a password that meets every rule. */
  lemma EnabledButtonMeansRulesMet(page: RegistrationPage)
    requires page.Valid() && !page.ButtonDisabled()
    ensures AllValid(Validate(page.password)) && page.email != ""
  {
  }

}

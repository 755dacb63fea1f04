/** The page an emailed reset link opens: the user enters the address and a new password. */
module PasswordReset {
  import opened Common
  import opened PasswordValidation
  import opened PasswordValidity
  import AuthForm
  import opened AuthContext

  /** The local-storage key that remembers the address the reset link was sent to. */
  const ResetEmailKey: string := "emailForPasswordReset"

  const ExpiredCode: string := "auth/expired-action-code"
  const InvalidEmailCode: string := "auth/invalid-email"

  datatype ErrorKind = LinkExpired | InvalidEmail | OtherError

  /** The `catch` block's branch on `error.code`. */
  function ClassifyError(code: string): (kind: ErrorKind)
    ensures kind == LinkExpired <==> code == ExpiredCode
    ensures kind == InvalidEmail <==> code == InvalidEmailCode
  {
    if code == ExpiredCode then LinkExpired
    else if code == InvalidEmailCode then InvalidEmail
    else OtherError
  }

  /** Only an expired link schedules a redirect, back to the forgot-password page. */
  function ErrorRedirect(kind: ErrorKind): (target: Option<string>)
    ensures target.Some? <==> kind == LinkExpired
    ensures target.Some? ==> target.value == "/password/forgot"
  {
    if kind == LinkExpired then Some("/password/forgot") else None
  }

  /** The error codes the four awaited remote steps threw, `None` for a step that succeeded:
      signing in with the email link, updating the password, fetching the ID token, and the
      `userCreate` mutation. */
  datatype ResetReply = ResetReply(signInError: Option<string>, updateError: Option<string>,
                                   tokenError: Option<string>, userCreateError: Option<string>)

  /** The code the `catch` block sees: that of the first step that threw. */
  function FirstError(reply: ResetReply): (code: Option<string>)
    ensures code.None? <==>
      reply.signInError.None? && reply.updateError.None? && reply.tokenError.None? && reply.userCreateError.None?
    ensures reply.signInError.Some? ==> code == reply.signInError
    ensures reply.signInError.None? && reply.updateError.Some? ==> code == reply.updateError
    ensures reply.signInError.None? && reply.updateError.None? && reply.tokenError.Some? ==> code == reply.tokenError
    ensures reply.signInError.None? && reply.updateError.None? && reply.tokenError.None? ==>
      code == reply.userCreateError
  {
    if reply.signInError.Some? then reply.signInError
    else if reply.updateError.Some? then reply.updateError
    else if reply.tokenError.Some? then reply.tokenError
    else reply.userCreateError
  }

  datatype ResetOutcome = Rejected | InvalidLink | Failed(kind: ErrorKind) | Reset

  class PasswordResetPage {
    var email: string
    var password: string
    var loading: bool
    var passwordValidators: Validators
    var storage: map<string, string>
    var auth: State

    /** The validators always describe the password typed so far. */
    ghost predicate Valid()
      reads this
    {
      passwordValidators == Validate(password)
    }

    /** Mounting: the email is pre-filled from local storage, or "". */
    constructor (storedValues: map<string, string>, authState: State)
      ensures Valid()
      ensures email == StoredOrEmpty(storedValues, ResetEmailKey) && password == "" && !loading
      ensures passwordValidators == AllFalse && storage == storedValues && auth == authState
    {
      email := StoredOrEmpty(storedValues, ResetEmailKey);
      password := "";
      loading := false;
      passwordValidators := AllFalse;
      storage := storedValues;
      auth := authState;
    }

    method OnEmailChange(value: string)
      requires Valid()
      modifies this
      ensures Valid()
      ensures email == value && password == old(password) && loading == old(loading)
      ensures storage == old(storage) && auth == old(auth)
    {
      email := value;
    }

    method OnPasswordChange(value: string)
      requires Valid()
      modifies this
      ensures Valid()
      ensures password == value && passwordValidators == Validate(value)
      ensures email == old(email) && loading == old(loading)
      ensures storage == old(storage) && auth == old(auth)
    {
      passwordValidators := PasswordValidation.PasswordValidation(value);
      password := value;
    }

    predicate IsPasswordValid()
      reads this
    {
      AllValid(passwordValidators)
    }

    /** The handler's field guard. */
    predicate GuardPasses()
      reads this
    {
      email != "" && password != "" && IsPasswordValid()
    }

    /** The props the page hands to the shared form. It passes no confirmation password. */
    function FormProps(): (props: AuthForm.Props)
      reads this
      ensures props.showEmailField && props.showPasswordField && props.showPasswordValidation
      ensures props.email == Some(email) && props.password == Some(password)
      ensures props.isPasswordValid == Some(IsPasswordValid()) && props.loading == loading
      ensures props.confirmPassword.None? && props.showForgotPassword.None?
    {
      AuthForm.Props(loading, true, Some(email), true, Some(password), true,
                     Some(IsPasswordValid()), None, None)
    }

    /** `handleSubmit`. `linkValid` is whether the page URL is a sign-in link, `reply` the
        remote steps' failures and `session` the user the login dispatch carries.
        `redirectTo` is the navigation scheduled after the toast. */
    method HandleSubmit(linkValid: bool, reply: ResetReply, session: AuthUser)
      returns (outcome: ResetOutcome, redirectTo: Option<string>)
      requires Valid()
      modifies this
      ensures Valid()
      ensures email == old(email) && password == old(password)
      ensures outcome == Rejected <==> !old(GuardPasses())
      ensures outcome == Rejected ==> !loading && storage == old(storage) && auth == old(auth) && redirectTo.None?
      ensures outcome == InvalidLink <==> old(GuardPasses()) && !linkValid
      ensures outcome == InvalidLink ==>
        loading && storage == old(storage) && auth == old(auth) && redirectTo == Some("/login")
      ensures outcome.Failed? <==> old(GuardPasses()) && linkValid && FirstError(reply).Some?
      ensures outcome.Failed? ==>
        !loading && outcome.kind == ClassifyError(FirstError(reply).value) &&
        redirectTo == ErrorRedirect(outcome.kind)
      ensures outcome.Failed? && reply.signInError.Some? ==> storage == old(storage) && auth == old(auth)
      ensures outcome.Failed? && reply.signInError.None? ==> storage == old(storage) - {ResetEmailKey}
      ensures outcome.Failed? && reply.signInError.None? && (reply.updateError.Some? || reply.tokenError.Some?) ==>
        auth == old(auth)
      ensures outcome.Failed? && reply.signInError.None? && reply.updateError.None? && reply.tokenError.None? ==>
        auth.user == session
      ensures outcome == Reset ==>
        loading && redirectTo == Some("/profile") &&
        storage == old(storage) - {ResetEmailKey} && auth.user == session
    {
      loading := true;
      var isPasswordValid := PasswordValidity.IsPasswordValid(Entries(passwordValidators));
      if email == "" || password == "" || !isPasswordValid {
        loading := false;
        return Rejected, None;
      }
      if !linkValid {
        return InvalidLink, Some("/login");
      }
      var error: Option<string> := None;
      if reply.signInError.Some? {
        error := reply.signInError;
      } else {
        storage := storage - {ResetEmailKey};
        if reply.updateError.Some? {
          error := reply.updateError;
        } else if reply.tokenError.Some? {
          error := reply.tokenError;
        } else {
          auth := FirebaseReducer(auth, Action(LoggedInUser, Some(Payload(session))));
          error := reply.userCreateError;
        }
      }
      if error.Some? {
        loading := false;
        var kind := ClassifyError(error.value);
        if kind == LinkExpired {
          redirectTo := Some("/password/forgot");
        } else {
          redirectTo := None;
        }
        return Failed(kind), redirectTo;
      }
      return Reset, Some("/profile");
    }
  }

  /** Because the page shows the email field, the shared form's Submit button depends on the
      email alone. */
  lemma SubmitGatedByEmailOnly(page: PasswordResetPage)
    ensures AuthForm.SubmitDisabled(page.FormProps()) <==> page.email == ""
  {
  }

  /** So the button can be enabled while the handler's guard still refuses: an empty or
      invalid password is caught only inside the handler. */
  lemma EnabledButtonCanFailGuard(page: PasswordResetPage)
    requires page.email != "" && page.password == ""
    ensures !AuthForm.SubmitDisabled(page.FormProps()) && !page.GuardPasses()
  {
  }
}

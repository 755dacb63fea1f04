/** The shared sign-in / password form: which controls it disables and what it labels. */
module AuthForm {
  import opened Common

  /** The props that decide the form's flags. Optional string props are `None` when the
      caller leaves them undefined; `showForgotPassword` keeps its absence because it has a
      default. */
  datatype Props = Props(
    loading: bool,
    showEmailField: bool,
    email: Option<string>,
    showPasswordField: bool,
    password: Option<string>,
    showPasswordValidation: bool,
    isPasswordValid: Option<bool>,
    confirmPassword: Option<string>,
    showForgotPassword: Option<bool>)

  /** `!isPasswordValid` is false only for the value `true`; undefined reads as false. */
  predicate IsTrue(b: Option<bool>)
  {
    b == Some(true)
  }

  /** The Submit button's `disabled` expression. The conditional operator binds looser than
      `||` and groups to the right, so the source's nested expression reads
        showEmailField ? !email
          : (false || loading || showPasswordField) ? !password
          : (false || showPasswordValidation) ? (!isPasswordValid || !confirmPassword)
          : false
      and an email field makes the email alone decide. */
  function SubmitDisabled(p: Props): (disabled: bool)
    ensures p.showEmailField ==> (disabled <==> !Filled(p.email))
    ensures !p.showEmailField && (p.loading || p.showPasswordField) ==>
      (disabled <==> !Filled(p.password))
    ensures !p.showEmailField && !p.loading && !p.showPasswordField && p.showPasswordValidation ==>
      (disabled <==> !IsTrue(p.isPasswordValid) || !Filled(p.confirmPassword))
    ensures !p.showEmailField && !p.loading && !p.showPasswordField && !p.showPasswordValidation ==>
      !disabled
  {
    if p.showEmailField then !Filled(p.email)
    else if false || p.loading || p.showPasswordField then !Filled(p.password)
    else if false || p.showPasswordValidation then
      !IsTrue(p.isPasswordValid) || !Filled(p.confirmPassword)
    else false
  }

  /** With an email field, nothing but the email reaches the button: two prop sets that agree
      on the email disable it alike, whatever their loading flag, password and validation. */
  lemma EmailFieldMasksEverythingElse(p: Props, q: Props)
    requires p.showEmailField && q.showEmailField && p.email == q.email
    ensures SubmitDisabled(p) == SubmitDisabled(q)
  {
  }

  /** A concrete case of the above: a filled-in email enables Submit while the form is still
      loading, with an empty password the validator rejects. */
  lemma LoadingFormWithEmailStaysEnabled()
    ensures !SubmitDisabled(Props(true, true, Some("a@b.co"), true, Some(""), true, Some(false), None, None))
  {
  }

  /** Without an email field, loading hands the decision to the password, even when no
      password field is shown (then the password is undefined and Submit is disabled). */
  lemma LoadingWithoutPasswordFieldDisables(p: Props)
    requires !p.showEmailField && p.loading && !p.showPasswordField && p.password.None?
    ensures SubmitDisabled(p)
  {
  }

  /** The email input's `disabled`: loading, or a non-empty address stored under
      `emailForPasswordReset`. */
  function EmailInputDisabled(loading: bool, storedResetEmail: Option<string>): (disabled: bool)
    ensures !disabled <==> !loading && (storedResetEmail.None? || storedResetEmail.value == "")
  {
    loading || Filled(storedResetEmail)
  }

  /** The forgot-password link is rendered only when the prop is `true`; it defaults to false. */
  function ShowsForgotPasswordLink(showForgotPassword: Option<bool>): (shown: bool)
    ensures shown <==> showForgotPassword == Some(true)
  {
    var show := if showForgotPassword.Some? then showForgotPassword.value else false;
    show
  }

  /** The password input's label text (its caption) and placeholder. */
  datatype PasswordText = PasswordText(caption: string, placeholder: string)

  /** The password input announces a new password exactly when the validation is shown. */
  function PasswordInputText(showPasswordValidation: bool): (text: PasswordText)
    ensures text.caption == "New Password" <==> showPasswordValidation
    ensures text.placeholder == "Enter New Password" <==> showPasswordValidation
    ensures !showPasswordValidation ==> text == PasswordText("Password", "Enter Password")
  {
    if showPasswordValidation then PasswordText("New Password", "Enter New Password")
    else PasswordText("Password", "Enter Password")
  }
}

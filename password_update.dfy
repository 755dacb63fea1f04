/** The page where a signed-in user with an email/password login changes the password. */
module PasswordUpdate {
  import opened Common
  import opened PasswordValidation
  import opened PasswordValidity

  const PasswordProviderId: string := "password"

  /** The mount effect's scan of `currentUser.providerData`: `providerIds` holds each entry's
      `providerId` (`None` for a null entry; no signed-in user gives no entries). The flag is
      set as soon as one entry is the password provider. */
  method HasPasswordProvider(providerIds: seq<Option<string>>) returns (found: bool)
    ensures found <==> exists i :: 0 <= i < |providerIds| && providerIds[i] == Some(PasswordProviderId)
  {
    found := false;
    for i := 0 to |providerIds|
      invariant found <==> exists j :: 0 <= j < i && providerIds[j] == Some(PasswordProviderId)
    {
      if providerIds[i] == Some(PasswordProviderId) {
        found := true;
      }
    }
  }

  /** How a submission ended. */
  datatype SubmitResult =
    | Rejected            // the field guard refused it
    | NotPasswordAccount  // the user has no password login: nothing happens
    | NoEmail             // the current user has no email: nothing happens
    | WrongOldPassword    // reauthentication failed
    | UpdateFailed        // updating the password failed
    | Changed             // the password was changed

  class PasswordUpdatePage {
    var oldPassword: string
    var newPassword: string
    var loading: bool
    var userHasPasswordEnabledLogin: bool
    var passwordValidators: Validators

    /** The validators describe the new password whenever there is one. Success clears the
        new password without recomputing them, so they may be stale only for "". */
    ghost predicate Valid()
      reads this
    {
      newPassword != "" ==> passwordValidators == Validate(newPassword)
    }

    constructor ()
      ensures Valid()
      ensures oldPassword == "" && newPassword == "" && !loading
      ensures !userHasPasswordEnabledLogin && passwordValidators == AllFalse
    {
      oldPassword, newPassword, loading := "", "", false;
      userHasPasswordEnabledLogin := false;
      passwordValidators := AllFalse;
    }

    /** The mount effect: sets the flag when a password provider is found, never clears it. */
    method DetectPasswordLogin(providerIds: seq<Option<string>>)
      requires Valid()
      modifies this
      ensures Valid()
      ensures userHasPasswordEnabledLogin <==> (old(userHasPasswordEnabledLogin) ||
        exists i :: 0 <= i < |providerIds| && providerIds[i] == Some(PasswordProviderId))
      ensures oldPassword == old(oldPassword) && newPassword == old(newPassword)
      ensures loading == old(loading) && passwordValidators == old(passwordValidators)
    {
      var found := HasPasswordProvider(providerIds);
      if found {
        userHasPasswordEnabledLogin := true;
      }
    }

    method OnOldPasswordChange(value: string)
      requires Valid()
      modifies this
      ensures Valid()
      ensures oldPassword == value && newPassword == old(newPassword) && loading == old(loading)
      ensures userHasPasswordEnabledLogin == old(userHasPasswordEnabledLogin)
      ensures passwordValidators == old(passwordValidators)
    {
      oldPassword := value;
    }

    /** Every keystroke re-runs the validator on the new value. */
    method OnNewPasswordChange(value: string)
      requires Valid()
      modifies this
      ensures Valid()
      ensures newPassword == value && passwordValidators == Validate(value)
      ensures oldPassword == old(oldPassword) && loading == old(loading)
      ensures userHasPasswordEnabledLogin == old(userHasPasswordEnabledLogin)
    {
      passwordValidators := PasswordValidation.PasswordValidation(value);
      newPassword := value;
    }

    /** The render-time `isPasswordValid`. */
    predicate IsPasswordValid()
      reads this
    {
      AllValid(passwordValidators)
    }

    /** The Submit button's `disabled`. */
    function ButtonDisabled(): (disabled: bool)
      reads this
      ensures !disabled <==> !loading && oldPassword != "" && newPassword != "" && IsPasswordValid()
    {
      loading || oldPassword == "" || newPassword == "" || !IsPasswordValid()
    }

    /** `handleSubmit`. `currentUserHasEmail`, `reauthenticated` and `passwordUpdated` are the
        outcomes of the Firebase calls; `updatedTo` is the password handed to
        `updatePassword`, if it was called. */
    method HandleSubmit(currentUserHasEmail: bool, reauthenticated: bool, passwordUpdated: bool)
      returns (result: SubmitResult, updatedTo: Option<string>)
      requires Valid()
      modifies this
      ensures Valid()
      ensures userHasPasswordEnabledLogin == old(userHasPasswordEnabledLogin)
      ensures passwordValidators == old(passwordValidators)
      ensures result == Rejected <==>
        old(oldPassword) == "" || old(newPassword) == "" || !AllValid(old(passwordValidators))
      ensures result == Rejected ==>
        !loading && oldPassword == old(oldPassword) && newPassword == old(newPassword)
      ensures result == NotPasswordAccount <==>
        old(oldPassword) != "" && old(newPassword) != "" && AllValid(old(passwordValidators)) &&
        !old(userHasPasswordEnabledLogin)
      ensures result == NotPasswordAccount || result == NoEmail ==>
        loading && oldPassword == old(oldPassword) && newPassword == old(newPassword)
      ensures result == WrongOldPassword ==> !loading && oldPassword == "" && newPassword == old(newPassword)
      ensures result == UpdateFailed || result == Changed ==> !loading && oldPassword == "" && newPassword == ""
      ensures updatedTo.Some? <==> result == UpdateFailed || result == Changed
      ensures updatedTo.Some? <==>
        old(oldPassword) != "" && old(newPassword) != "" && AllValid(old(passwordValidators)) &&
        old(userHasPasswordEnabledLogin) && currentUserHasEmail && reauthenticated
      ensures updatedTo.Some? ==> updatedTo.value == old(newPassword) && AllValid(Validate(updatedTo.value))
      ensures result == Changed <==> updatedTo.Some? && passwordUpdated
      ensures result == NoEmail <==> result != Rejected && old(userHasPasswordEnabledLogin) && !currentUserHasEmail
      ensures result == WrongOldPassword <==>
        result != Rejected && old(userHasPasswordEnabledLogin) && currentUserHasEmail && !reauthenticated
    {
      loading := true;
      var isPasswordValid := PasswordValidity.IsPasswordValid(Entries(passwordValidators));
      if oldPassword == "" || newPassword == "" || !isPasswordValid {
        loading := false;
        return Rejected, None;
      }
      if !userHasPasswordEnabledLogin {
        return NotPasswordAccount, None;
      }
      if !currentUserHasEmail {
        return NoEmail, None;
      }
      if !reauthenticated {
        loading := false;
        oldPassword := "";
        return WrongOldPassword, None;
      }
      updatedTo := Some(newPassword);
      if !passwordUpdated {
        loading := false;
        oldPassword := "";
        newPassword := "";
        return UpdateFailed, updatedTo;
      }
      loading := false;
      oldPassword := "";
      newPassword := "";
      result := Changed;
    }
  }

  /** A fresh page's button is disabled: the validators start all false. */
  lemma FreshPageCannotSubmit(page: PasswordUpdatePage)
    requires page.passwordValidators == AllFalse
    ensures page.ButtonDisabled()
  {
    InitiallyInvalid();
  }

  /** Whenever the button is enabled, the password it would submit meets all five rules. */
  lemma EnabledButtonMeansRulesMet(page: PasswordUpdatePage)
    requires page.Valid() && !page.ButtonDisabled()
    ensures AllValid(Validate(page.newPassword))
  {
  }
}

/** The `isPasswordValid` fold that the password-reset, password-update and registration
    pages each run over their validator record on every render. */
module PasswordValidity {
  import opened PasswordValidation

  /** The record's values in `for ... in` order, which is the order the keys were created:
      lowercase, uppercase, number, special character, length. */
  function Entries(v: Validators): (entries: seq<bool>)
    ensures |entries| == 5
    ensures entries[0] == v.hasLowercase && entries[4] == v.isLongEnough
  {
    [v.hasLowercase, v.hasUppercase, v.hasNumber, v.hasSpecialChar, v.isLongEnough]
  }

  /** Every entry is true, and there is at least one entry. */
  predicate AllTrue(entries: seq<bool>)
  {
    |entries| > 0 && forall i :: 0 <= i < |entries| ==> entries[i]
  }

  /** `let isPasswordValid = false; for (const key in validators) { if (validators[key] ===
      false) { isPasswordValid = false; break; } else isPasswordValid = true; }` */
  method IsPasswordValid(entries: seq<bool>) returns (isPasswordValid: bool)
    ensures isPasswordValid <==> |entries| > 0 && forall i :: 0 <= i < |entries| ==> entries[i]
  {
    isPasswordValid := false;
    var i := 0;
    while i < |entries|
      invariant 0 <= i <= |entries|
      invariant forall j :: 0 <= j < i ==> entries[j]
      invariant isPasswordValid <==> i > 0
    {
      if entries[i] == false {
        isPasswordValid := false;
        break;
      } else {
        isPasswordValid := true;
      }
      i := i + 1;
    }
  }

  /** The page-level reading: the validator record says the password meets every rule. */
  predicate AllValid(v: Validators)
  {
    AllTrue(Entries(v))
  }

  /** The fold accepts exactly the record with all five flags set. */
  lemma AllValidIffEveryFlag(v: Validators)
    ensures AllValid(v) <==> v == Validators(true, true, true, true, true)
  {
    if AllValid(v) {
      assert Entries(v)[1] && Entries(v)[2] && Entries(v)[3];
    }
  }

  /** The initial record is not valid, so `isPasswordValid` starts false on every page. */
  lemma InitiallyInvalid()
    ensures !AllValid(AllFalse)
  {
    assert !Entries(AllFalse)[0];
  }

  /** A password passes the fold exactly when it has a lower-case letter, an upper-case
      letter, a digit and a special character and is 9 to 127 characters long. */
  lemma ValidPasswordMeansAllRules(password: string)
    ensures AllValid(Validate(password)) <==>
      (exists i :: 0 <= i < |password| && 'a' <= password[i] <= 'z') &&
      (exists i :: 0 <= i < |password| && 'A' <= password[i] <= 'Z') &&
      (exists i :: 0 <= i < |password| && '0' <= password[i] <= '9') &&
      (exists i :: 0 <= i < |password| && password[i] in SpecialChars) &&
      9 <= |password| <= 127
  {
    AllValidIffEveryFlag(Validate(password));
  }
}

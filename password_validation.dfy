/** The five password rules the sign-up and password pages show while the user types. */
module PasswordValidation {

  /** One flag per rule, in the order the record declares them. */
  datatype Validators = Validators(
    hasLowercase: bool,
    hasUppercase: bool,
    hasNumber: bool,
    hasSpecialChar: bool,
    isLongEnough: bool)

  /** The record every page starts from, and the one the validator starts from. */
  const AllFalse: Validators := Validators(false, false, false, false, false)

  /** The character classes the four regular expressions test for. */
  datatype CharClass = Lowercase | Uppercase | Digit | Special

  /** The members of the bracket expression `[*.!@$%^&(){}[\]:;<>,\\\?\/~_\+\-=\|]`. */
  const SpecialChars: set<char> := {
    '*', '.', '!', '@', '$', '%', '^', '&', '(', ')', '{', '}', '[', ']',
    ':', ';', '<', '>', ',', '\\', '?', '/', '~', '_', '+', '-', '=', '|'
  }

  predicate InClass(c: char, k: CharClass)
  {
    match k
    case Lowercase => 'a' <= c <= 'z'
    case Uppercase => 'A' <= c <= 'Z'
    case Digit => '0' <= c <= '9'
    case Special => c in SpecialChars
  }

  /** The search `s.match(/(?=.*[...])/)`. The engine tries every start position, and at the
      position of a matching character `.*` matches the empty string, so a line break before
      the character does not hide it: the search succeeds exactly when some character of `s`
      is in the class. */
  function Matches(s: string, k: CharClass): (found: bool)
    ensures found <==> exists i :: 0 <= i < |s| && InClass(s[i], k)
  {
    if s == [] then false
    else if InClass(s[0], k) then true
    else
      assert forall i :: 1 <= i < |s| ==> s[i] == s[1..][i - 1];
      Matches(s[1..], k)
  }

  /** The length test `password.length > 8 && password.length < 128`. */
  predicate LongEnough(n: nat)
  {
    8 < n < 128
  }

  /** What `passwordValidation` returns for `password`, rule by rule. */
  function Validate(password: string): (v: Validators)
    ensures v.hasLowercase <==> exists i :: 0 <= i < |password| && 'a' <= password[i] <= 'z'
    ensures v.hasUppercase <==> exists i :: 0 <= i < |password| && 'A' <= password[i] <= 'Z'
    ensures v.hasNumber <==> exists i :: 0 <= i < |password| && '0' <= password[i] <= '9'
    ensures v.hasSpecialChar <==> exists i :: 0 <= i < |password| && password[i] in SpecialChars
    ensures v.isLongEnough <==> 8 < |password| < 128
  {
    Validators(
      Matches(password, Lowercase),
      Matches(password, Uppercase),
      Matches(password, Digit),
      Matches(password, Special),
      LongEnough(|password|))
  }

  /** `passwordValidation`: start from a record of five false flags and let each of five
      independent tests switch its own flag on. */
  method PasswordValidation(password: string) returns (validators: Validators)
    ensures validators == Validate(password)
  {
    validators := AllFalse;
    if Matches(password, Lowercase) {
      validators := validators.(hasLowercase := true);
    }
    if Matches(password, Uppercase) {
      validators := validators.(hasUppercase := true);
    }
    if Matches(password, Digit) {
      validators := validators.(hasNumber := true);
    }
    if Matches(password, Special) {
      validators := validators.(hasSpecialChar := true);
    }
    if LongEnough(|password|) {
      validators := validators.(isLongEnough := true);
    }
  }

  /** The empty password meets no rule. */
  lemma EmptyMeetsNoRule()
    ensures Validate("") == AllFalse
  {
  }

  /** The length window is open at both ends: 8 characters fail, 9 to 127 pass, 128 fail. */
  lemma LengthWindow(password: string)
    ensures |password| <= 8 ==> !Validate(password).isLongEnough
    ensures 9 <= |password| <= 127 ==> Validate(password).isLongEnough
    ensures |password| >= 128 ==> !Validate(password).isLongEnough
  {
  }

  /** `#`, `"` and the space are not special characters; `-` and `\` are. */
  lemma SpecialCharExamples()
    ensures !Validate("#\" ").hasSpecialChar
    ensures Validate("a-").hasSpecialChar
    ensures Validate("\\").hasSpecialChar
  {
    assert "a-"[1] == '-';
    assert "\\"[0] == '\\';
    var s := "#\" ";
    assert '#' !in SpecialChars && '"' !in SpecialChars && ' ' !in SpecialChars;
    assert forall i :: 0 <= i < |s| ==> s[i] == '#' || s[i] == '"' || s[i] == ' ';
  }

  /** Typing more characters never takes a character-class rule away; only the length rule
      can be lost. */
  lemma {:induction false} AppendKeepsClassRules(password: string, more: string)
    ensures Validate(password).hasLowercase ==> Validate(password + more).hasLowercase
    ensures Validate(password).hasUppercase ==> Validate(password + more).hasUppercase
    ensures Validate(password).hasNumber ==> Validate(password + more).hasNumber
    ensures Validate(password).hasSpecialChar ==> Validate(password + more).hasSpecialChar
  {
    var whole := password + more;
    assert forall i :: 0 <= i < |password| ==> whole[i] == password[i];
  }

  /** Adding one character can take the length rule away: 127 characters pass, 128 fail. */
  lemma AppendCanLoseLength(password: string, c: char)
    requires |password| == 127
    ensures Validate(password).isLongEnough && !Validate(password + [c]).isLongEnough
  {
  }
}

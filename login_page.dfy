/**
 * The sign-up/login form: the password strength meter (score, label, bar colour)
 * and the gate that keeps a weak password from being submitted on sign-up.
 */
module LoginPage {
  import opened JsText
  import opened OtpCodes

  predicate IsLowercase(c: char) { 'a' <= c <= 'z' }
  predicate IsUppercase(c: char) { 'A' <= c <= 'Z' }

  /** The symbols the strength check accepts; backtick, tilde and space are not among them. */
  const Symbols := "!@#$%^&*()_+-=[]{};':\"\\|,.<>/?"

  predicate IsSymbol(c: char) { c in Symbols }

  // one predicate per character-class test on the password
  predicate HasLowercase(pwd: string) { exists i | 0 <= i < |pwd| :: IsLowercase(pwd[i]) }
  predicate HasUppercase(pwd: string) { exists i | 0 <= i < |pwd| :: IsUppercase(pwd[i]) }
  predicate HasDigit(pwd: string) { exists i | 0 <= i < |pwd| :: IsDigit(pwd[i]) }
  predicate HasSymbol(pwd: string) { exists i | 0 <= i < |pwd| :: IsSymbol(pwd[i]) }

  /** At least 8 UTF-16 code units, as `pwd.length >= 8` counts them. */
  predicate LongEnough(pwd: string)
  {
    Utf16Length(pwd) >= 8
  }

  /** All five criteria at once: long enough and one of each class. */
  predicate MeetsAllCriteria(pwd: string)
  {
    LongEnough(pwd) && HasLowercase(pwd) && HasUppercase(pwd) && HasDigit(pwd) && HasSymbol(pwd)
  }

  function Point(met: bool): nat
  {
    if met then 1 else 0
  }

  /** The strength score: one point for each criterion the password meets. */
  function StrengthScore(pwd: string): (score: nat)
    ensures score <= 5
    ensures score == 5 <==> MeetsAllCriteria(pwd)
  {
    Point(LongEnough(pwd)) + Point(HasLowercase(pwd)) + Point(HasUppercase(pwd))
      + Point(HasDigit(pwd)) + Point(HasSymbol(pwd))
  }

  /** `checkPasswordStrength`: the counter bumped once per criterion met. */
  method CheckPasswordStrength(pwd: string) returns (strength: nat)
    ensures strength == StrengthScore(pwd)
  {
    strength := 0;
    if Utf16Length(pwd) >= 8 { strength := strength + 1; }
    if HasLowercase(pwd) { strength := strength + 1; }
    if HasUppercase(pwd) { strength := strength + 1; }
    if HasDigit(pwd) { strength := strength + 1; }
    if HasSymbol(pwd) { strength := strength + 1; }
  }

  /** `getPasswordStrengthText`: it tests the password itself first, then the score. */
  function StrengthText(password: string, strength: int): (text: string)
    ensures text == "" <==> password == ""
    ensures text in {"", "Very Weak", "Weak", "Fair", "Good", "Strong"}
    ensures text == "Strong" <==> password != "" && !(0 <= strength <= 4)
  {
    if password == "" then ""
    else if strength == 0 || strength == 1 then "Very Weak"
    else if strength == 2 then "Weak"
    else if strength == 3 then "Fair"
    else if strength == 4 then "Good"
    else "Strong"
  }

  /** `getPasswordStrengthColor`. */
  function StrengthColor(strength: int): (color: string)
    ensures color in {"bg-gray-300", "bg-red-500", "bg-yellow-500", "bg-blue-500", "bg-green-500"}
    ensures color == "bg-green-500" <==> !(0 <= strength <= 4)
  {
    if strength == 0 then "bg-gray-300"
    else if strength == 1 || strength == 2 then "bg-red-500"
    else if strength == 3 then "bg-yellow-500"
    else if strength == 4 then "bg-blue-500"
    else "bg-green-500"
  }

  /** The label and colour each score gets, for a non-empty password. */
  lemma LabelsByScore(pwd: string)
    requires pwd != ""
    ensures StrengthText(pwd, 0) == "Very Weak" && StrengthText(pwd, 1) == "Very Weak"
    ensures StrengthText(pwd, 2) == "Weak" && StrengthText(pwd, 3) == "Fair"
    ensures StrengthText(pwd, 4) == "Good" && StrengthText(pwd, 5) == "Strong"
    ensures StrengthColor(0) == "bg-gray-300"
    ensures StrengthColor(1) == "bg-red-500" && StrengthColor(2) == "bg-red-500"
    ensures StrengthColor(3) == "bg-yellow-500" && StrengthColor(4) == "bg-blue-500"
    ensures StrengthColor(5) == "bg-green-500"
  {
  }

  /** The empty password scores 0 and has no label. */
  lemma EmptyPassword()
    ensures StrengthScore("") == 0 && StrengthText("", StrengthScore("")) == ""
  {
  }

  /** On a consistent form, the label is empty exactly when the password is. */
  lemma TextEmptyOnlyForEmptyPassword(pwd: string)
    ensures StrengthText(pwd, StrengthScore(pwd)) == "" <==> pwd == ""
  {
  }

  /** "Strong" and green are shown exactly for a password that meets all five criteria. */
  lemma StrongLabelsAgree(pwd: string)
    requires pwd != ""
    ensures StrengthText(pwd, StrengthScore(pwd)) == "Strong" <==> MeetsAllCriteria(pwd)
    ensures StrengthColor(StrengthScore(pwd)) == "bg-green-500" <==> MeetsAllCriteria(pwd)
  {
  }

  /** A non-empty password can score 0 (a lone `~`): it is labelled "Very Weak" under a gray bar. */
  lemma ZeroScoreNonEmpty()
    ensures StrengthScore("~") == 0
    ensures StrengthText("~", 0) == "Very Weak" && StrengthColor(0) == "bg-gray-300"
  {
    assert !IsSymbol('~');
  }

  datatype Mode = SignUp | LogIn

  /** What submitting the form does: nothing but a toast, or one request. */
  datatype SubmitAction =
    | Blocked(message: string)
    | PostRegister(name: string, email: string, password: string)
    | PostLogin(email: string, password: string)

  const WeakPasswordMessage :=
    "Password must be strong: 8+ characters with uppercase, lowercase, numbers, and special symbols"

  /** The component's state. */
  class LoginForm {
    var mode: Mode
    var name: string
    var email: string
    var password: string
    var passwordStrength: nat

    /** The stored score is always the score of the stored password. */
    ghost predicate Valid()
      reads this
    {
      passwordStrength == StrengthScore(password)
    }

    constructor ()
      ensures Valid()
      ensures mode == SignUp && name == "" && email == "" && password == "" && passwordStrength == 0
    {
      mode := SignUp;
      name := "";
      email := "";
      password := "";
      passwordStrength := 0;
    }

    /** The "Login Here" / "Sign Up" links. */
    method SetMode(m: Mode)
      modifies this`mode
      ensures mode == m
    {
      mode := m;
    }

    method SetName(v: string)
      modifies this`name
      ensures name == v
    {
      name := v;
    }

    method SetEmail(v: string)
      modifies this`email
      ensures email == v
    {
      email := v;
    }

    /** `handlePasswordChange`: store the typed password and its score. */
    method HandlePasswordChange(pwd: string)
      modifies this`password, this`passwordStrength
      ensures Valid()
      ensures password == pwd && passwordStrength == StrengthScore(pwd)
    {
      password := pwd;
      var strength := CheckPasswordStrength(pwd);
      passwordStrength := strength;
    }

    /** `isPasswordStrong`. */
    predicate IsPasswordStrong()
      reads this
      ensures Valid() ==> (IsPasswordStrong() <==> MeetsAllCriteria(password))
    {
      passwordStrength == 5
    }

    /**
     * `onSubmitHandler`: on sign-up a password that is not strong stops the submission
     * before any request; login is never gated by strength.
     */
    method OnSubmit() returns (action: SubmitAction)
      requires Valid()
      ensures mode == SignUp ==> (action.Blocked? <==> !MeetsAllCriteria(password))
      ensures mode == SignUp && action.Blocked? ==> action.message == WeakPasswordMessage
      ensures mode == SignUp && !action.Blocked? ==> action == PostRegister(name, email, password)
      ensures mode == LogIn ==> action == PostLogin(email, password)
    {
      if mode == SignUp && !IsPasswordStrong() {
        return Blocked(WeakPasswordMessage);
      }
      if mode == SignUp {
        action := PostRegister(name, email, password);
      } else {
        action := PostLogin(email, password);
      }
    }
  }
}

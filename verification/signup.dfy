/**
 * The e-mail sign-up form check of `SignUpActivity.setupSignUp`: the three
 * fields are trimmed, then checked in a fixed order, and the first failing
 * check is reported as a message; only input that passes every check reaches
 * analytics and account creation.
 */
module SignUp {

  /**
   * Kotlin's `Char.isWhitespace` on the JVM (`Character.isWhitespace` or
   * `Character.isSpaceChar`): the ASCII controls TAB..CR and FS..US, and every
   * Unicode space, line and paragraph separator.
   */
  predicate IsWhitespace(c: char)
    ensures c == ' ' ==> IsWhitespace(c)
    ensures IsWhitespace(c) ==> !('0' <= c <= '9' || 'A' <= c <= 'Z' || 'a' <= c <= 'z')
    ensures IsWhitespace(c) ==> c as int <= 0xFFFF
  {
    var n := c as int;
    || 0x09 <= n <= 0x0D
    || 0x1C <= n <= 0x20
    || n == 0xA0
    || n == 0x1680
    || 0x2000 <= n <= 0x200A
    || n == 0x2028 || n == 0x2029
    || n == 0x202F || n == 0x205F
    || n == 0x3000
  }

  /** Every character of `s` is whitespace (in particular, `s` may be empty). */
  predicate Blank(s: string)
  {
    forall k :: 0 <= k < |s| ==> IsWhitespace(s[k])
  }

  /** How many characters at the start of `s` are whitespace. */
  function LeadingBlanks(s: string): (n: nat)
    ensures n <= |s|
    ensures forall k :: 0 <= k < n ==> IsWhitespace(s[k])
    ensures n < |s| ==> !IsWhitespace(s[n])
  {
    if s != [] && IsWhitespace(s[0]) then 1 + LeadingBlanks(s[1..]) else 0
  }

  /** How many characters at the end of `s` are whitespace. */
  function TrailingBlanks(s: string): (n: nat)
    ensures n <= |s|
    ensures forall k :: |s| - n <= k < |s| ==> IsWhitespace(s[k])
    ensures n < |s| ==> !IsWhitespace(s[|s| - 1 - n])
  {
    if s != [] && IsWhitespace(s[|s| - 1]) then 1 + TrailingBlanks(s[..|s| - 1]) else 0
  }

  /**
   * Kotlin's `String.trim()`: the part of `s` between its leading and its
   * trailing whitespace.  Every character dropped is whitespace, and the
   * result neither starts nor ends with whitespace.
   */
  function Trim(s: string): (r: string)
    ensures var i := LeadingBlanks(s); i + |r| <= |s| && r == s[i..i + |r|]
    ensures forall k :: 0 <= k < |s| && !(LeadingBlanks(s) <= k < LeadingBlanks(s) + |r|) ==> IsWhitespace(s[k])
    ensures r != [] ==> !IsWhitespace(r[0]) && !IsWhitespace(r[|r| - 1])
    ensures r == [] <==> Blank(s)
  {
    var i := LeadingBlanks(s);
    if i == |s| then []
    else
      var j := |s| - TrailingBlanks(s);
      assert i < j;
      s[i..j]
  }

  /** Trimming twice is trimming once. */
  lemma TrimIdempotent(s: string)
    ensures Trim(Trim(s)) == Trim(s)
  {
    var r := Trim(s);
    if r != [] {
      assert LeadingBlanks(r) == 0;
      assert TrailingBlanks(r) == 0;
    }
  }

  /** `String.length`: the number of UTF-16 code units, two for a character beyond U+FFFF. */
  function Utf16Length(s: string): (n: nat)
    ensures |s| <= n <= 2 * |s|
    ensures (forall k :: 0 <= k < |s| ==> s[k] as int <= 0xFFFF) ==> n == |s|
  {
    if s == [] then 0
    else (if s[0] as int > 0xFFFF then 2 else 1) + Utf16Length(s[1..])
  }

  const MinPasswordLength: nat := 6

  /** Why the form was refused; each reason has its own message. */
  datatype Rejection = FieldsMissing | PasswordTooShort | PasswordMismatch
  {
    function Message(): (m: string)
      ensures m != []
    {
      match this
      case FieldsMissing => "Please fill all fields"
      case PasswordTooShort => "Password must be at least 6 characters"
      case PasswordMismatch => "Passwords do not match"
    }
  }

  /** Each reason for refusing the form shows a different message. */
  lemma MessagesDistinct(a: Rejection, b: Rejection)
    ensures a != b ==> a.Message() != b.Message()
  {
    if a != b {
      assert a.Message()[1] != b.Message()[1] || a.Message()[8] != b.Message()[8];
    }
  }

  /** The outcome of the form check; an accepted form carries the trimmed e-mail and password. */
  datatype SignUpCheck = Accepted(email: string, password: string) | Rejected(reason: Rejection)

  /** The checks of the sign-up button, in the order the handler makes them. */
  function ValidateSignUp(emailText: string, passwordText: string, confirmText: string): (r: SignUpCheck)
    ensures r == Rejected(FieldsMissing) <==> Blank(emailText) || Blank(passwordText) || Blank(confirmText)
    ensures r == Rejected(PasswordTooShort) <==>
      && !Blank(emailText) && !Blank(passwordText) && !Blank(confirmText)
      && Utf16Length(Trim(passwordText)) < MinPasswordLength
    ensures r == Rejected(PasswordMismatch) <==>
      && !Blank(emailText) && !Blank(passwordText) && !Blank(confirmText)
      && Utf16Length(Trim(passwordText)) >= MinPasswordLength
      && Trim(passwordText) != Trim(confirmText)
    ensures r.Accepted? <==>
      && !Blank(emailText) && !Blank(passwordText) && !Blank(confirmText)
      && Utf16Length(Trim(passwordText)) >= MinPasswordLength
      && Trim(passwordText) == Trim(confirmText)
    ensures r.Accepted? ==> r.email == Trim(emailText) && r.password == Trim(passwordText)
  {
    var email, password, confirm := Trim(emailText), Trim(passwordText), Trim(confirmText);
    if email == [] || password == [] || confirm == [] then Rejected(FieldsMissing)
    else if Utf16Length(password) < MinPasswordLength then Rejected(PasswordTooShort)
    else if password != confirm then Rejected(PasswordMismatch)
    else Accepted(email, password)
  }

  /** Surrounding whitespace never changes the outcome: every check sees trimmed text. */
  lemma ValidateIgnoresSurroundingWhitespace(emailText: string, passwordText: string, confirmText: string)
    ensures ValidateSignUp(Trim(emailText), Trim(passwordText), Trim(confirmText))
         == ValidateSignUp(emailText, passwordText, confirmText)
  {
    TrimIdempotent(emailText);
    TrimIdempotent(passwordText);
    TrimIdempotent(confirmText);
  }

  /** Text that neither starts nor ends with whitespace is left as it is. */
  lemma TrimKeepsTrimmed(s: string)
    requires s != [] && !IsWhitespace(s[0]) && !IsWhitespace(s[|s| - 1])
    ensures Trim(s) == s
  {
    assert LeadingBlanks(s) == 0 && TrailingBlanks(s) == 0;
  }

  /** The padding around a password is dropped. */
  lemma TrimPaddedSecret()
    ensures Trim(" secret ") == "secret"
  {
    var padded := " secret ";
    assert IsWhitespace(padded[0]) && !IsWhitespace(padded[1]);
    assert IsWhitespace(padded[7]) && !IsWhitespace(padded[6]);
    assert LeadingBlanks(padded) == 1 && TrailingBlanks(padded) == 1;
    assert padded[1..7] == "secret";
  }

  /** A six-character password padded with spaces is accepted, trimmed. */
  lemma SixCharacterPasswordAccepted()
    ensures ValidateSignUp("a@b.co", " secret ", "secret") == Accepted("a@b.co", "secret")
  {
    var password, email := "secret", "a@b.co";
    TrimPaddedSecret();
    TrimKeepsTrimmed(password);
    TrimKeepsTrimmed(email);
    assert Utf16Length(password) == 6;
  }

  /** What a press of the sign-up button does before the asynchronous reply arrives. */
  datatype Effect =
    | Toast(message: string)
    | ShowProgress
    | Track(event: string, signUpMethod: string)
    | CreateUser(email: string, password: string)

  /**
   * The click handler: a refused form only shows its message; an accepted form
   * shows progress, records the attempt and asks for the account, with the
   * trimmed e-mail and password.
   */
  function OnSignUpClick(emailText: string, passwordText: string, confirmText: string): (effects: seq<Effect>)
    ensures var v := ValidateSignUp(emailText, passwordText, confirmText);
      && (v.Rejected? ==> effects == [Toast(v.reason.Message())])
      && (v.Accepted? <==> exists k :: 0 <= k < |effects| && effects[k].CreateUser?)
      && (v.Accepted? <==> exists k :: 0 <= k < |effects| && effects[k].Track?)
      && (v.Accepted? ==> CreateUser(Trim(emailText), Trim(passwordText)) in effects)
  {
    match ValidateSignUp(emailText, passwordText, confirmText)
    case Rejected(reason) => [Toast(reason.Message())]
    case Accepted(email, password) =>
      var effects := [ShowProgress, Track("Sign Up Attempt", "email"), CreateUser(email, password)];
      assert effects[1].Track? && effects[2].CreateUser?;
      effects
  }
}

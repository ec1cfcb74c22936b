/** The sign-up form (`SignupPage`): its validation, the password-strength
    meter, and the split of the full name into first and last name. */
module SignupPage {
  import opened Wrappers
  import opened Lists
  import opened JsText

  datatype SignupForm = SignupForm(displayName: string, email: string, password: string, confirmPassword: string)

  /** The checks of `validateForm`, in the order it makes them. */
  datatype FormError = BlankName | MissingEmail | ShortPassword | PasswordMismatch

  /** The position of each check in that order. */
  function Rank(e: FormError): nat
  {
    match e
    case BlankName => 0
    case MissingEmail => 1
    case ShortPassword => 2
    case PasswordMismatch => 3
  }

  /** The message `validateForm` shows for each failed check. */
  function Message(e: FormError): string
  {
    match e
    case BlankName => "Please enter your full name"
    case MissingEmail => "Please enter your email address"
    case ShortPassword => "Password must be at least 6 characters long"
    case PasswordMismatch => "Passwords do not match"
  }

  /** Whether the form fails one check, taken on its own. */
  predicate Fails(f: SignupForm, e: FormError)
  {
    match e
    case BlankName => Trim(f.displayName) == ""
    case MissingEmail => f.email == ""
    case ShortPassword => |f.password| < 6
    case PasswordMismatch => f.password != f.confirmPassword
  }

  /** `validateForm`: the error it sets, or `None` when it returns true. */
  function ValidateForm(f: SignupForm): Option<FormError>
  {
    if Trim(f.displayName) == "" then Some(BlankName)
    else if f.email == "" then Some(MissingEmail)
    else if |f.password| < 6 then Some(ShortPassword)
    else if f.password != f.confirmPassword then Some(PasswordMismatch)
    else None
  }

  /** The form passes exactly when no check fails; otherwise the error is a
      failing check and every check before it passes. */
  lemma ValidateFormFirstFailure(f: SignupForm)
    ensures ValidateForm(f).None? <==> forall e :: !Fails(f, e)
    ensures ValidateForm(f).Some? ==> Fails(f, ValidateForm(f).value)
    ensures ValidateForm(f).Some? ==> forall e :: Rank(e) < Rank(ValidateForm(f).value) ==> !Fails(f, e)
  {
    forall e ensures ValidateForm(f).None? ==> !Fails(f, e) {
      match e
      case BlankName =>
      case MissingEmail =>
      case ShortPassword =>
      case PasswordMismatch =>
    }
    if ValidateForm(f).Some? {
      assert Fails(f, ValidateForm(f).value);
    }
  }

  /** The result of `getPasswordStrength`. */
  datatype Strength = Strength(score: nat, text: string, color: string)

  /** Some character satisfies `p` before the first line terminator: the
      lookahead `(?=.*[…])` anchored at the start, since `.` stops at line
      terminators. */
  predicate SeenBeforeBreak(s: string, p: char -> bool)
  {
    exists i :: 0 <= i < |s| && p(s[i]) && forall j :: 0 <= j < i ==> !IsLineTerminator(s[j])
  }

  /** `/^(?=.*[a-z])(?=.*[A-Z])(?=.*\d)/` */
  predicate MixedCase(s: string)
  {
    SeenBeforeBreak(s, IsLower) && SeenBeforeBreak(s, IsUpper) && SeenBeforeBreak(s, IsDigit)
  }

  /** `getPasswordStrength`. */
  function PasswordStrength(password: string): Strength
  {
    if |password| == 0 then Strength(0, "", "")
    else if |password| < 6 then Strength(1, "Too short", "text-red-500")
    else if |password| < 8 then Strength(2, "Weak", "text-orange-500")
    else if MixedCase(password) then Strength(4, "Strong", "text-green-500")
    else Strength(3, "Good", "text-blue-500")
  }

  /** The score is 0 exactly for the empty password, below 2 exactly for
      passwords under six characters, 4 exactly for passwords of eight or
      more with a lower-case letter, an upper-case letter and a digit. */
  lemma PasswordStrengthProps(password: string)
    ensures PasswordStrength(password).score <= 4
    ensures PasswordStrength(password).score == 0 <==> password == ""
    ensures PasswordStrength(password).score < 2 <==> |password| < 6
    ensures PasswordStrength(password).score == 4 <==> |password| >= 8 && MixedCase(password)
    ensures PasswordStrength(password).score == 3 <==> |password| >= 8 && !MixedCase(password)
  {
  }

  /** A form that passes validation has a password of strength at least 2,
      so the meter never reads "Too short" for an accepted password. */
  lemma AcceptedPasswordNotShort(f: SignupForm)
    requires ValidateForm(f).None?
    ensures PasswordStrength(f.password).score >= 2
    ensures PasswordStrength(f.confirmPassword) == PasswordStrength(f.password)
  {
    ValidateFormFirstFailure(f);
    assert !Fails(f, ShortPassword) && !Fails(f, PasswordMismatch);
  }

  /** The first and last name `handleSubmit` registers: the trimmed name
      split at spaces, its first piece, and the other pieces joined back. */
  function SplitName(displayName: string): (string, string)
  {
    var parts := Split(Trim(displayName), ' ');
    (parts[0], Join(parts[1..], ' '))
  }

  /** The first piece of a split at spaces runs up to the first space, and
      the other pieces joined back are the text after it. */
  lemma SplitAtFirstSpace(t: string)
    ensures ' ' !in Split(t, ' ')[0]
    ensures ' ' !in t ==> Split(t, ' ')[0] == t && Join(Split(t, ' ')[1..], ' ') == ""
    ensures ' ' in t ==> Split(t, ' ')[0] == t[..IndexOf(t, ' ')]
    ensures ' ' in t ==> Join(Split(t, ' ')[1..], ' ') == t[IndexOf(t, ' ') + 1..]
  {
    if ' ' in t {
      var i := IndexOf(t, ' ');
      var parts := Split(t, ' ');
      assert parts == [t[..i]] + Split(t[i + 1..], ' ');
      assert parts[1..] == Split(t[i + 1..], ' ');
      JoinSplit(t[i + 1..], ' ');
    }
  }

  /** The first name is the trimmed name up to its first space and the last
      name is everything after that space, so the two joined by one space
      give the trimmed name back; a name without a space is all first name. */
  lemma SplitNameRoundTrip(displayName: string)
    ensures ' ' !in SplitName(displayName).0
    ensures ' ' !in Trim(displayName) ==> SplitName(displayName) == (Trim(displayName), "")
    ensures ' ' in Trim(displayName) ==>
      SplitName(displayName).0 + " " + SplitName(displayName).1 == Trim(displayName)
    ensures ' ' in Trim(displayName) ==>
      SplitName(displayName).0 == Trim(displayName)[..IndexOf(Trim(displayName), ' ')]
  {
    var t := Trim(displayName);
    var parts := Split(t, ' ');
    assert SplitName(displayName) == (parts[0], Join(parts[1..], ' '));
    SplitAtFirstSpace(t);
    if ' ' in t {
      SplitAround(t, IndexOf(t, ' '));
    }
  }

  /** A text is its part before index `i`, the character at `i`, and the
      part after it. */
  lemma SplitAround(t: string, i: nat)
    requires i < |t| && t[i] == ' '
    ensures t[..i] + " " + t[i + 1..] == t
  {
    assert t == t[..i] + [t[i]] + t[i + 1..];
  }

  /** An accepted form always has a non-empty first name. */
  lemma AcceptedNameHasFirst(f: SignupForm)
    requires ValidateForm(f).None?
    ensures SplitName(f.displayName).0 != ""
  {
    var t := Trim(f.displayName);
    SplitNameRoundTrip(f.displayName);
    assert !IsSpace(t[0]);
    if ' ' in t {
      assert IndexOf(t, ' ') > 0;
      assert t[..IndexOf(t, ' ')][0] == t[0];
    }
  }
}

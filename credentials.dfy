/** The server's credential rules: the `validation` table (password
    pattern and length, username length bounds, e-mail) and the four
    classes whose decorators apply them. A validation yields the set of
    violated constraints; an object is valid when that set is empty. */
module Credentials {
  import opened Shared

  const PasswordMinLength: nat := 8
  const UsernameMinLength: nat := 3
  const UsernameMaxLength: nat := 20

  const PasswordPatternMessage :=
    "Password should contain an upper case letter, a lower case letter and a special character or digit"
  const PasswordMinLengthMessage := "Password should be at least 8 characters long"
  const UsernameMinLengthMessage := "Username should be at least 3 characters long"
  const UsernameMaxLengthMessage := "Username should not be longer than 20 characters"
  const EmailMessage := "You must provide a valid email address"
  const UsernameOrEmailMessage := "You must provide your username or email adress"

  // The character classes of the password pattern, as JavaScript reads
  // them without the `u` flag: `\d` and `\w` are ASCII-only.

  /** What `.` does not match. */
  predicate IsLineTerminator(c: char) {
    c == '\n' || c == '\r' || c == '\U{2028}' || c == '\U{2029}'
  }

  predicate IsDigit(c: char) {
    '0' <= c <= '9'
  }

  predicate IsWordChar(c: char) {
    'A' <= c <= 'Z' || 'a' <= c <= 'z' || IsDigit(c) || c == '_'
  }

  predicate IsNonWord(c: char) {
    !IsWordChar(c)
  }

  /** `[A-ZÄÖÜß]`. */
  predicate IsUpperClass(c: char) {
    'A' <= c <= 'Z' || c == '\U{00C4}' || c == '\U{00D6}' || c == '\U{00DC}' || c == '\U{00DF}'
  }

  /** `[a-zäöüß]`. */
  predicate IsLowerClass(c: char) {
    'a' <= c <= 'z' || c == '\U{00E4}' || c == '\U{00F6}' || c == '\U{00FC}' || c == '\U{00DF}'
  }

  predicate IsDigitOrNonWord(c: char) {
    IsDigit(c) || IsNonWord(c)
  }

  /** Some character of `s[i..j]` is in class `p`. */
  predicate Occurs(s: string, i: nat, j: nat, p: char -> bool)
    requires i <= j <= |s|
  {
    exists k :: i <= k < j && p(s[k])
  }

  /** Where the line holding position `i` ends: the first line terminator
      at or after `i`, or the end of the input. */
  function LineEnd(s: string, i: nat): (e: nat)
    requires i <= |s|
    ensures i <= e <= |s|
    ensures forall k :: i <= k < e ==> !IsLineTerminator(s[k])
    ensures e < |s| ==> IsLineTerminator(s[e])
    decreases |s| - i
  {
    if i == |s| || IsLineTerminator(s[i]) then i else LineEnd(s, i + 1)
  }

  /** The pattern `((?=.*\d)|(?=.*\W+))(?![.\n])(?=.*[A-ZÄÖÜß])(?=.*[a-zäöüß]).*$`
      tried at position `i`: each lookahead `.*X` looks for X before the
      line ends; `.*$` then needs the line to run to the end of the input. */
  predicate MatchesAt(s: string, i: nat)
    requires i <= |s|
  {
    var e := LineEnd(s, i);
    && (Occurs(s, i, e, IsDigit) || Occurs(s, i, e, IsNonWord))
    && (i == |s| || (s[i] != '.' && s[i] != '\n'))
    && Occurs(s, i, e, IsUpperClass)
    && Occurs(s, i, e, IsLowerClass)
    && e == |s|
  }

  /** `@Matches`: the unanchored pattern matches at some position. */
  predicate PasswordPatternMatches(s: string) {
    exists i :: 0 <= i <= |s| && MatchesAt(s, i)
  }

  /** Where the last line starts. */
  function LastLineStart(s: string): (k: nat)
    ensures k <= |s|
    ensures forall m :: k <= m < |s| ==> !IsLineTerminator(s[m])
    ensures k > 0 ==> IsLineTerminator(s[k - 1])
  {
    if s == [] then 0
    else if IsLineTerminator(s[|s| - 1]) then |s|
    else LastLineStart(s[..|s| - 1])
  }

  /** The first position at or after `k` that is not a dot. */
  function SkipDots(s: string, k: nat): (j: nat)
    requires k <= |s|
    ensures k <= j <= |s|
    ensures forall m :: k <= m < j ==> s[m] == '.'
    ensures j < |s| ==> s[j] != '.'
    decreases |s| - k
  {
    if k == |s| || s[k] != '.' then k else SkipDots(s, k + 1)
  }

  /** The policy in plain terms: from `start` to the end there is an
      upper-case letter, a lower-case letter and a digit or non-word character. */
  predicate StrongFrom(s: string, start: nat)
    requires start <= |s|
  {
    Occurs(s, start, |s|, IsUpperClass) && Occurs(s, start, |s|, IsLowerClass) && Occurs(s, start, |s|, IsDigitOrNonWord)
  }

  lemma OccursFromEarlier(s: string, i: nat, i': nat, j: nat, p: char -> bool)
    requires i' <= i <= j <= |s| && Occurs(s, i, j, p)
    ensures Occurs(s, i', j, p)
  {
    var k :| i <= k < j && p(s[k]);
    assert i' <= k < j && p(s[k]);
  }

  /** What the pattern accepts: the last line, after its leading dots, must
      hold all three kinds of character. Dots later on count as non-word
      characters; the leading ones count for nothing. */
  lemma PatternCharacterization(s: string)
    ensures PasswordPatternMatches(s) <==> StrongFrom(s, SkipDots(s, LastLineStart(s)))
  {
    var start := LastLineStart(s);
    var u := SkipDots(s, start);
    if StrongFrom(s, u) {
      var k :| u <= k < |s| && IsUpperClass(s[k]);
      assert LineEnd(s, u) == |s|;
      var d :| u <= d < |s| && IsDigitOrNonWord(s[d]);
      if IsDigit(s[d]) {
        assert Occurs(s, u, |s|, IsDigit);
      } else {
        assert Occurs(s, u, |s|, IsNonWord);
      }
      assert !IsLineTerminator(s[u]);
      assert MatchesAt(s, u);
    }
    if PasswordPatternMatches(s) {
      var i :| 0 <= i <= |s| && MatchesAt(s, i);
      assert LineEnd(s, i) == |s|;
      assert start <= i;
      assert u <= i;
      OccursFromEarlier(s, i, u, |s|, IsUpperClass);
      OccursFromEarlier(s, i, u, |s|, IsLowerClass);
      if Occurs(s, i, |s|, IsDigit) {
        var k :| i <= k < |s| && IsDigit(s[k]);
        assert IsDigitOrNonWord(s[k]);
      } else {
        var k :| i <= k < |s| && IsNonWord(s[k]);
        assert IsDigitOrNonWord(s[k]);
      }
      assert Occurs(s, i, |s|, IsDigitOrNonWord);
      OccursFromEarlier(s, i, u, |s|, IsDigitOrNonWord);
    }
  }

  /** For a password on one line: skip the leading dots, then the rest
      must hold all three kinds of character. */
  lemma PatternOnOneLine(s: string)
    requires forall k :: 0 <= k < |s| ==> !IsLineTerminator(s[k])
    ensures PasswordPatternMatches(s) <==> StrongFrom(s, SkipDots(s, 0))
  {
    PatternCharacterization(s);
    assert LastLineStart(s) == 0;
  }

  /** A field of an incoming object: missing (undefined or null), a
      string, or some other value. */
  datatype Field = Absent | Text(value: string) | NonText

  datatype Constraint = IsNotEmpty | IsString | MinLength(min: nat) | MaxLength(max: nat) | Matches | IsEmail

  datatype Violation = Violation(property: string, constraint: Constraint)

  /** The message a violation reports: the table's own, or none where the
      decorator keeps the library's default. */
  function Message(v: Violation): (r: Option<string>)
    ensures v == Violation("password", MinLength(PasswordMinLength)) ==> r == Some(PasswordMinLengthMessage)
    ensures v == Violation("password", Matches) ==> r == Some(PasswordPatternMessage)
    ensures v == Violation("username", MinLength(UsernameMinLength)) ==> r == Some(UsernameMinLengthMessage)
    ensures v == Violation("username", MaxLength(UsernameMaxLength)) ==> r == Some(UsernameMaxLengthMessage)
    ensures v == Violation("email", IsEmail) ==> r == Some(EmailMessage)
    ensures v == Violation("usernameOrEmail", IsNotEmpty) ==> r == Some(UsernameOrEmailMessage)
    ensures v.property == "password" && v.constraint == IsNotEmpty ==> r == None
  {
    match v
    case Violation("password", MinLength(n)) => if n == PasswordMinLength then Some(PasswordMinLengthMessage) else None
    case Violation("password", Matches) => Some(PasswordPatternMessage)
    case Violation("username", MinLength(n)) => if n == UsernameMinLength then Some(UsernameMinLengthMessage) else None
    case Violation("username", MaxLength(n)) => if n == UsernameMaxLength then Some(UsernameMaxLengthMessage) else None
    case Violation("email", IsEmail) => Some(EmailMessage)
    case Violation("usernameOrEmail", IsNotEmpty) => Some(UsernameOrEmailMessage)
    case _ => None
  }

  // The decorators' checks. Only strings have a length or match a pattern.

  predicate NotEmpty(f: Field) {
    !f.Absent? && f != Text("")
  }

  predicate LengthAtLeast(f: Field, n: nat) {
    f.Text? && |f.value| >= n
  }

  predicate LengthAtMost(f: Field, n: nat) {
    f.Text? && |f.value| <= n
  }

  function Check(property: string, constraint: Constraint, holds: bool): set<Violation> {
    if holds then {} else {Violation(property, constraint)}
  }

  /** The `Password` class: not empty, at least 8 long, matching the pattern. */
  function PasswordViolations(password: Field): (r: set<Violation>)
    ensures r == {} <==> password.Text? && |password.value| >= PasswordMinLength && PasswordPatternMatches(password.value)
    ensures Violation("password", MinLength(PasswordMinLength)) in r <==> !LengthAtLeast(password, PasswordMinLength)
    ensures forall v :: v in r ==> v.property == "password"
  {
    Check("password", IsNotEmpty, NotEmpty(password))
    + Check("password", MinLength(PasswordMinLength), LengthAtLeast(password, PasswordMinLength))
    + Check("password", Matches, password.Text? && PasswordPatternMatches(password.value))
  }

  /** The `Username` class: between 3 and 20 characters, with one
      violation per bound and no separate emptiness rule. */
  function UsernameViolations(username: Field): (r: set<Violation>)
    ensures r == {} <==> username.Text? && UsernameMinLength <= |username.value| <= UsernameMaxLength
    ensures Violation("username", MinLength(UsernameMinLength)) in r <==> !LengthAtLeast(username, UsernameMinLength)
    ensures Violation("username", MaxLength(UsernameMaxLength)) in r <==> !LengthAtMost(username, UsernameMaxLength)
    ensures forall v :: v in r ==> v.property == "username"
  {
    Check("username", MinLength(UsernameMinLength), LengthAtLeast(username, UsernameMinLength))
    + Check("username", MaxLength(UsernameMaxLength), LengthAtMost(username, UsernameMaxLength))
  }

  /** `SignupCredentialsDTO`: the inherited username rules, a valid e-mail
      (`isEmail` is the library's check) and the password's length and
      pattern, without the `Password` class's emptiness rule. */
  function SignupViolations(username: Field, email: Field, password: Field, isEmail: string -> bool): (r: set<Violation>)
    ensures r == {} <==>
      && UsernameViolations(username) == {}
      && email.Text? && isEmail(email.value)
      && password.Text? && |password.value| >= PasswordMinLength && PasswordPatternMatches(password.value)
    ensures Violation("password", IsNotEmpty) !in r
    ensures Violation("password", MinLength(PasswordMinLength)) in r <==> !LengthAtLeast(password, PasswordMinLength)
  {
    UsernameViolations(username)
    + Check("email", IsEmail, email.Text? && isEmail(email.value))
    + Check("password", MinLength(PasswordMinLength), LengthAtLeast(password, PasswordMinLength))
    + Check("password", Matches, password.Text? && PasswordPatternMatches(password.value))
  }

  /** `LoginCredentialsDTO`: both fields non-empty strings, nothing more. */
  function LoginViolations(usernameOrEmail: Field, password: Field): (r: set<Violation>)
    ensures r == {} <==> usernameOrEmail.Text? && usernameOrEmail.value != "" && password.Text? && password.value != ""
  {
    Check("usernameOrEmail", IsNotEmpty, NotEmpty(usernameOrEmail))
    + Check("usernameOrEmail", IsString, usernameOrEmail.Text?)
    + Check("password", IsNotEmpty, NotEmpty(password))
    + Check("password", IsString, password.Text?)
  }

  /** A short password is refused with the length message by both classes
      that check passwords. */
  lemma ShortPasswordRefused(password: string, username: Field, email: Field, isEmail: string -> bool)
    requires |password| < PasswordMinLength
    ensures var v := Violation("password", MinLength(PasswordMinLength));
      && v in PasswordViolations(Text(password))
      && v in SignupViolations(username, email, Text(password), isEmail)
      && Message(v) == Some(PasswordMinLengthMessage)
  {
  }

  /** `ß` is in both letter classes and, for `\W`, a non-word character, so
      eight of them make an acceptable password. */
  lemma EszettPasswordAccepted()
    ensures PasswordViolations(Text("\U{00DF}\U{00DF}\U{00DF}\U{00DF}\U{00DF}\U{00DF}\U{00DF}\U{00DF}")) == {}
  {
    var s := "\U{00DF}\U{00DF}\U{00DF}\U{00DF}\U{00DF}\U{00DF}\U{00DF}\U{00DF}";
    assert IsUpperClass(s[0]) && IsLowerClass(s[0]) && IsNonWord(s[0]);
    assert LineEnd(s, 0) == |s|;
    assert MatchesAt(s, 0);
  }

  /** Leading dots count for nothing: letters after them are not enough. */
  lemma LeadingDotsDoNotCount()
    ensures PasswordViolations(Text(".......aB")) == {Violation("password", Matches)}
  {
    var s := ".......aB";
    PatternOnOneLine(s);
    assert SkipDots(s, 0) == 7;
    assert !IsDigitOrNonWord(s[7]) && !IsDigitOrNonWord(s[8]);
    assert !StrongFrom(s, 7);
  }

  /** A dot after the first character is a non-word character like any other. */
  lemma LaterDotCounts()
    ensures PasswordViolations(Text("aB.aaaaa")) == {}
  {
    var s := "aB.aaaaa";
    assert IsLowerClass(s[0]) && IsUpperClass(s[1]) && IsNonWord(s[2]);
    assert LineEnd(s, 0) == |s|;
    assert MatchesAt(s, 0);
  }

  /** An empty username breaks only the minimum; a missing one breaks both bounds. */
  lemma EmptyUsernameFailsMinimum()
    ensures UsernameViolations(Text("")) == {Violation("username", MinLength(UsernameMinLength))}
    ensures UsernameViolations(Absent) == {Violation("username", MinLength(UsernameMinLength)), Violation("username", MaxLength(UsernameMaxLength))}
  {
  }

  /** Logging in puts no length or strength rule on the password. */
  lemma LoginHasNoStrengthRule(usernameOrEmail: string, password: string)
    requires usernameOrEmail != "" && password != ""
    ensures LoginViolations(Text(usernameOrEmail), Text(password)) == {}
  {
  }
}

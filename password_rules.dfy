/**
 * The password rules of the three screens that take a new password: the
 * strength check of the account-settings screen, the character-class pattern
 * the registration and reset screens share, and the two confirm-match rules.
 * The rules differ subtly, and the lemmas at the end say exactly where.
 */
module PasswordRules {
  import opened Common

  predicate IsUpperAscii(c: char) { 'A' <= c <= 'Z' }

  predicate IsLowerAscii(c: char) { 'a' <= c <= 'z' }

  /** `[!@#$%^&*]`, the symbols the account-settings strength check accepts. */
  predicate IsStrengthSymbol(c: char)
  {
    c == '!' || c == '@' || c == '#' || c == '$' || c == '%' || c == '^' || c == '&' || c == '*'
  }

  /** The symbol class of the registration and reset pattern. */
  predicate IsPatternSymbol(c: char) { c in "@$!%*?&#^()-_=+{}[]|;:'\",.<>/\\" }

  /** An ECMAScript LineTerminator: what the regular-expression `.` does not match. */
  predicate IsLineTerminator(c: char)
  {
    c == '\n' || c == '\r' || c == '\U{2028}' || c == '\U{2029}'
  }

  /** `s` has an upper-case and a lower-case ASCII letter, a digit and a symbol of `symbol`. */
  ghost predicate HasAllClasses(s: string, symbol: char -> bool)
  {
    (exists i :: 0 <= i < |s| && IsUpperAscii(s[i])) &&
    (exists i :: 0 <= i < |s| && IsLowerAscii(s[i])) &&
    (exists i :: 0 <= i < |s| && IsDigit(s[i])) &&
    (exists i :: 0 <= i < |s| && symbol(s[i]))
  }

  /**
   * The account-settings `passwordStrengthValidator`: true is the
   * `weakPassword` error. An empty value is never weak; `required` reports it.
   */
  function WeakPassword(v: string): (weak: bool)
    ensures v == "" ==> !weak
    ensures weak <==> v != "" && !HasAllClasses(v, IsStrengthSymbol)
  {
    v != "" &&
    !(AnyChar(v, IsUpperAscii) && AnyChar(v, IsLowerAscii) && AnyChar(v, IsDigit) && AnyChar(v, IsStrengthSymbol))
  }

  // ------------------------------------------------- the registration and reset pattern

  /** `(?=.*[C])` at the start of `s`: a member of C comes after a run of non-terminators. */
  ghost predicate LookaheadFinds(s: string, cls: char -> bool)
  {
    exists j :: 0 <= j < |s| && cls(s[j]) && forall k :: 0 <= k < j ==> !IsLineTerminator(s[k])
  }

  /** `^.{8,}$` without the multiline flag: eight characters or more, none a line terminator. */
  ghost predicate DotRunToEnd(s: string, n: nat)
  {
    |s| >= n && forall k :: 0 <= k < |s| ==> !IsLineTerminator(s[k])
  }

  /**
   * The regular expression
   * `^(?=.*[a-z])(?=.*[A-Z])(?=.*\d)(?=.*[<symbols>]).{8,}$`, read as the
   * regular-expression semantics defines it (`\d` is `[0-9]` without the
   * unicode flag).
   */
  ghost predicate PatternMatchesRegex(s: string)
  {
    LookaheadFinds(s, IsLowerAscii) && LookaheadFinds(s, IsUpperAscii) &&
    LookaheadFinds(s, IsDigit) && LookaheadFinds(s, IsPatternSymbol) &&
    DotRunToEnd(s, 8)
  }

  /** With no line terminator in `s`, a lookahead finds a class member exactly when `s` has one. */
  lemma LookaheadWithoutTerminators(s: string, cls: char -> bool)
    requires forall k :: 0 <= k < |s| ==> !IsLineTerminator(s[k])
    ensures LookaheadFinds(s, cls) <==> exists j :: 0 <= j < |s| && cls(s[j])
  {
  }

  /** `pattern.test(s)`, computed by character-class scans. */
  function PatternTest(s: string): bool
  {
    |s| >= 8 && !AnyChar(s, IsLineTerminator) &&
    AnyChar(s, IsLowerAscii) && AnyChar(s, IsUpperAscii) && AnyChar(s, IsDigit) && AnyChar(s, IsPatternSymbol)
  }

  /** The scans agree with the regular expression on every string. */
  lemma PatternTestIsRegex(s: string)
    ensures PatternTest(s) <==> PatternMatchesRegex(s)
  {
    if !AnyChar(s, IsLineTerminator) {
      LookaheadWithoutTerminators(s, IsLowerAscii);
      LookaheadWithoutTerminators(s, IsUpperAscii);
      LookaheadWithoutTerminators(s, IsDigit);
      LookaheadWithoutTerminators(s, IsPatternSymbol);
    }
  }

  /** The pattern asks for eight characters, all four classes and no line terminator. */
  lemma PatternTestMeans(s: string)
    ensures PatternTest(s) <==> |s| >= 8 && HasAllClasses(s, IsPatternSymbol) &&
                                forall k :: 0 <= k < |s| ==> !IsLineTerminator(s[k])
  {
  }

  /** `Validators.pattern(...)`: an empty value passes without being matched. */
  predicate PatternAccepts(v: string)
  {
    v == "" || PatternTest(v)
  }

  // ------------------------------------------------- confirm-match rules

  /** `password !== confirmPassword`: the account-settings and registration rule. */
  predicate Mismatch(a: string, b: string) { a != b }

  /** `password && confirmPassword && password !== confirmPassword`: the reset-screen rule. */
  predicate MismatchWhenBothGiven(a: string, b: string) { a != "" && b != "" && a != b }

  /**
   * The two match rules disagree exactly when one password is empty and the
   * other is not; otherwise they give the same verdict.
   */
  lemma MatchRulesDiffer(a: string, b: string)
    ensures MismatchWhenBothGiven(a, b) ==> Mismatch(a, b)
    ensures (Mismatch(a, b) && !MismatchWhenBothGiven(a, b)) <==> ((a == "") != (b == ""))
  {
  }

  // ------------------------------------------------- how the screens compare

  /** Every account-settings symbol is also a pattern symbol. */
  lemma StrengthSymbolsArePatternSymbols(c: char)
    ensures IsStrengthSymbol(c) ==> IsPatternSymbol(c)
  {
  }

  /**
   * A password that account settings accepts (eight characters or more and
   * not weak) passes the reset pattern too, unless it holds a line terminator.
   */
  lemma {:induction false} StrongPasswordMatchesPattern(v: string)
    requires forall k :: 0 <= k < |v| ==> !IsLineTerminator(v[k])
    requires |v| >= 8 && !WeakPassword(v)
    ensures PatternTest(v)
  {
    var i :| 0 <= i < |v| && IsStrengthSymbol(v[i]);
    StrengthSymbolsArePatternSymbols(v[i]);
    PatternTestMeans(v);
  }

  /** A `(` is a symbol for the pattern only: this password passes the pattern and is weak. */
  lemma PatternAcceptsWeakPassword()
    ensures PatternTest("Abcdefg1(") && WeakPassword("Abcdefg1(")
  {
    var s := "Abcdefg1(";
    assert IsUpperAscii(s[0]) && IsLowerAscii(s[1]) && IsDigit(s[7]) && IsPatternSymbol(s[8]);
    assert forall k :: 0 <= k < |s| ==> !IsLineTerminator(s[k]) && !IsStrengthSymbol(s[k]);
  }

  /** A password with one character of each class passes the pattern. */
  lemma PatternAcceptsSample()
    ensures PatternTest("Abcdefg1!")
  {
    var s := "Abcdefg1!";
    assert IsUpperAscii(s[0]) && IsLowerAscii(s[1]) && IsDigit(s[7]) && IsPatternSymbol(s[8]);
    assert forall k :: 0 <= k < |s| ==> !IsLineTerminator(s[k]);
  }

  /** A line break is fine for account settings but not for the pattern. */
  lemma StrongPasswordWithLineBreak()
    ensures !WeakPassword("Abcdef1!\n") && |"Abcdef1!\n"| >= 8 && !PatternTest("Abcdef1!\n")
  {
    var s := "Abcdef1!\n";
    assert IsUpperAscii(s[0]) && IsLowerAscii(s[1]) && IsDigit(s[6]) && IsStrengthSymbol(s[7]);
    assert IsLineTerminator(s[8]);
  }
}

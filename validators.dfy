/**
 * The input validators (src/utils/validators.ts): length checks, a
 * whitespace trim, and the anchored email pattern.
 */
module Validators {

  // ---------------------------------------------------------------------------
  // Whitespace and trimming.

  /**
   * The characters JavaScript's `\s` matches and `trim()` strips: the WhiteSpace
   * and LineTerminator code points of the ECMAScript standard.
   */
  predicate IsSpace(c: char) {
    || c == '\t' || c == '\n' || c == '\U{000B}' || c == '\U{000C}' || c == '\r' || c == ' '
    || c == '\U{00A0}' || c == '\U{1680}' || ('\U{2000}' <= c <= '\U{200A}')
    || c == '\U{2028}' || c == '\U{2029}' || c == '\U{202F}' || c == '\U{205F}'
    || c == '\U{3000}' || c == '\U{FEFF}'
  }

  predicate NoSpace(s: string) {
    forall i :: 0 <= i < |s| ==> !IsSpace(s[i])
  }

  /** Drops leading whitespace: the result is the suffix that starts at the first non-space character. */
  function TrimStart(s: string): (r: string)
    ensures |r| <= |s| && r == s[|s| - |r|..]
    ensures forall i :: 0 <= i < |s| - |r| ==> IsSpace(s[i])
    ensures r != [] ==> !IsSpace(r[0])
  {
    if s != [] && IsSpace(s[0]) then TrimStart(s[1..]) else s
  }

  /** Drops trailing whitespace: the result is the prefix that ends at the last non-space character. */
  function TrimEnd(s: string): (r: string)
    ensures |r| <= |s| && r == s[..|r|]
    ensures forall i :: |r| <= i < |s| ==> IsSpace(s[i])
    ensures r != [] ==> !IsSpace(r[|r| - 1])
  {
    if s != [] && IsSpace(s[|s| - 1]) then TrimEnd(s[..|s| - 1]) else s
  }

  /**
   * `String.prototype.trim`: the slice `s[k..k + |r|]` left after dropping the
   * leading and the trailing whitespace, which starts and ends with a
   * non-space character when it is not empty.
   */
  function Trim(s: string): (r: string)
    ensures exists k | 0 <= k <= |s| :: TrimmedAt(s, k, r)
    ensures r != [] ==> !IsSpace(r[0]) && !IsSpace(r[|r| - 1])
  {
    var t := TrimStart(s);
    var r := TrimEnd(t);
    var k := |s| - |t|;
    assert r == s[k..k + |r|];
    assert forall i :: k + |r| <= i < |s| ==> s[i] == t[i - k];
    assert TrimmedAt(s, k, r);
    r
  }

  /** `r` is `s[k..k + |r|]`, and every character of `s` outside that slice is whitespace. */
  predicate TrimmedAt(s: string, k: int, r: string) {
    && 0 <= k <= |s| - |r| && r == s[k..k + |r|]
    && (forall i :: 0 <= i < k ==> IsSpace(s[i]))
    && (forall i :: k + |r| <= i < |s| ==> IsSpace(s[i]))
  }

  /** Trimming leaves something exactly when the string holds a non-space character. */
  lemma TrimNonEmptyIff(s: string)
    ensures |Trim(s)| > 0 <==> exists i :: 0 <= i < |s| && !IsSpace(s[i])
  {
  }

  // ---------------------------------------------------------------------------
  // The validators.

  predicate IsValidPassword(password: string) {
    |password| >= 6
  }

  predicate IsValidUsername(username: string) {
    3 <= |username| <= 20
  }

  /** Non-blank after trimming, and at most 100 characters before trimming. */
  predicate IsValidChatName(name: string) {
    |Trim(name)| > 0 && |name| <= 100
  }

  /** Non-blank after trimming, and at most 5000 characters before trimming. */
  predicate IsValidMessage(message: string) {
    |Trim(message)| > 0 && |message| <= 5000
  }

  /** A whitespace-only name is rejected; otherwise only the untrimmed length decides. */
  lemma ChatNameValidIff(name: string)
    ensures IsValidChatName(name) <==> (exists i :: 0 <= i < |name| && !IsSpace(name[i])) && |name| <= 100
    ensures IsBlank(name) ==> !IsValidChatName(name)
  {
    TrimNonEmptyIff(name);
  }

  /** A whitespace-only message is rejected; otherwise only the untrimmed length decides. */
  lemma MessageValidIff(message: string)
    ensures IsValidMessage(message) <==> (exists i :: 0 <= i < |message| && !IsSpace(message[i])) && |message| <= 5000
  {
    TrimNonEmptyIff(message);
  }

  /** The string is blank: every character is whitespace. */
  predicate IsBlank(s: string) {
    forall i :: 0 <= i < |s| ==> IsSpace(s[i])
  }

  /** Both checks trim the same way, and 100 <= 5000. */
  lemma ChatNameIsMessage(name: string)
    requires IsValidChatName(name)
    ensures IsValidMessage(name)
  {
  }

  // ---------------------------------------------------------------------------
  // The email pattern `^[^\s@]+@[^\s@]+\.[^\s@]+$`.

  /** The class `[^\s@]`. */
  predicate Plain(c: char) {
    !IsSpace(c) && c != '@'
  }

  predicate AllPlain(s: string) {
    forall i :: 0 <= i < |s| ==> Plain(s[i])
  }

  /**
   * The pattern matches the whole of `s` with its literal `@` at `at` and its
   * literal `.` at `dot`: three non-empty runs of `[^\s@]` around them.
   */
  predicate EmailMatchAt(s: string, at: int, dot: int) {
    && 0 < at && at + 1 < dot < |s| - 1
    && s[at] == '@' && s[dot] == '.'
    && AllPlain(s[..at]) && AllPlain(s[at + 1..dot]) && AllPlain(s[dot + 1..])
  }

  /** `isValidEmail`: the anchored pattern matches the whole string. */
  predicate IsValidEmail(email: string)
    ensures IsValidEmail(email) ==> |email| >= 5
  {
    exists at, dot | 0 <= at < |email| && 0 <= dot < |email| :: EmailMatchAt(email, at, dot)
  }

  function Occurrences(s: string, c: char): (n: nat)
    ensures n <= |s|
  {
    if s == [] then 0 else (if s[0] == c then 1 else 0) + Occurrences(s[1..], c)
  }

  /** Position `k` holds `c` and no other position does. */
  predicate OnlyAt(s: string, c: char, k: int) {
    0 <= k < |s| && s[k] == c && forall j :: 0 <= j < |s| && j != k ==> s[j] != c
  }

  /** A character held at exactly one position occurs once. */
  lemma {:induction false} OnlyAtOccursOnce(s: string, c: char, k: int)
    requires OnlyAt(s, c, k)
    ensures Occurrences(s, c) == 1
  {
    var t := s[1..];
    if k == 0 {
      forall j | 0 <= j < |t| ensures t[j] != c { assert t[j] == s[j + 1]; }
      OccursNoneIff(t, c);
    } else {
      assert s[0] != c;
      forall j | 0 <= j < |t| && j != k - 1 ensures t[j] != c { assert t[j] == s[j + 1]; }
      OnlyAtOccursOnce(t, c, k - 1);
    }
  }

  /** A character that occurs once is held at exactly one position. */
  lemma {:induction false} OccursOnceOnlyAt(s: string, c: char) returns (k: int)
    requires Occurrences(s, c) == 1
    ensures OnlyAt(s, c, k)
  {
    var t := s[1..];
    if s[0] == c {
      OccursNoneIff(t, c);
      k := 0;
      forall j | 0 < j < |s| ensures s[j] != c { assert s[j] == t[j - 1]; }
    } else {
      var k' := OccursOnceOnlyAt(t, c);
      k := k' + 1;
      forall j | 0 < j < |s| && j != k ensures s[j] != c { assert s[j] == t[j - 1]; }
    }
  }

  /** `c` occurs exactly once in `s` iff some position holds it and no other does. */
  lemma OccursOnceIff(s: string, c: char)
    ensures Occurrences(s, c) == 1 <==> exists k :: OnlyAt(s, c, k)
  {
    if Occurrences(s, c) == 1 {
      var k := OccursOnceOnlyAt(s, c);
    }
    if exists k :: OnlyAt(s, c, k) {
      var k :| OnlyAt(s, c, k);
      OnlyAtOccursOnce(s, c, k);
    }
  }

  /** `c` does not occur in `s` iff no position holds it. */
  lemma {:induction false} OccursNoneIff(s: string, c: char)
    ensures Occurrences(s, c) == 0 <==> forall j :: 0 <= j < |s| ==> s[j] != c
  {
    if s != [] {
      OccursNoneIff(s[1..], c);
      assert forall j :: 0 < j < |s| ==> s[j] == s[1..][j - 1];
    }
  }

  /** The part after the `@` holds a `.` that is neither its first nor its last character. */
  predicate HasInnerDot(t: string) {
    exists k :: 0 < k < |t| - 1 && t[k] == '.'
  }

  /**
   * The pattern in plain terms: no whitespace, exactly one `@`, something
   * before it, and an inner dot after it.
   */
  predicate EmailShape(s: string) {
    && NoSpace(s)
    && Occurrences(s, '@') == 1
    && exists at :: 0 < at < |s| && s[at] == '@' && HasInnerDot(s[at + 1..])
  }

  /** A match of the pattern has the shape. */
  lemma EmailMatchHasShape(s: string, at: int, dot: int)
    requires EmailMatchAt(s, at, dot)
    ensures EmailShape(s)
  {
    forall i | 0 <= i < |s| && i != at ensures Plain(s[i]) {
      if i < at {
        assert s[i] == s[..at][i];
      } else if i < dot {
        assert s[i] == s[at + 1..dot][i - at - 1];
      } else if i > dot {
        assert s[i] == s[dot + 1..][i - dot - 1];
      }
    }
    OnlyAtOccursOnce(s, '@', at);
    assert s[at + 1..][dot - at - 1] == '.';
  }

  /** A string of that shape matches the pattern. */
  lemma ShapeHasEmailMatch(s: string) returns (at: int, dot: int)
    requires EmailShape(s)
    ensures 0 <= at < |s| && 0 <= dot < |s| && EmailMatchAt(s, at, dot)
  {
    at :| 0 < at < |s| && s[at] == '@' && HasInnerDot(s[at + 1..]);
    var k :| 0 < k < |s[at + 1..]| - 1 && s[at + 1..][k] == '.';
    dot := at + 1 + k;
    var only := OccursOnceOnlyAt(s, '@');
    assert only == at;
    assert forall j :: 0 <= j < |s| && j != at ==> Plain(s[j]);
  }

  /** `isValidEmail` in plain terms. */
  lemma EmailValidIff(s: string)
    ensures IsValidEmail(s) <==> EmailShape(s)
  {
    if IsValidEmail(s) {
      var at, dot :| 0 <= at < |s| && 0 <= dot < |s| && EmailMatchAt(s, at, dot);
      EmailMatchHasShape(s, at, dot);
    }
    if EmailShape(s) {
      var at, dot := ShapeHasEmailMatch(s);
    }
  }
}

/**
 * The two validation rules of the shopping system: the email pattern
 * `^[a-zA-Z0-9._%+-]+@[a-zA-Z0-9.-]+\.[a-zA-Z]{2,}$` as Python's `re.match`
 * applies it, and the rule that a name is non-empty after `str.strip()`.
 * The pattern is written out as a hand-made recogniser and proved equal to
 * a declarative reading of the regular expression.
 */
module Validation {
  import opened Wrappers

  // ---------------------------------------------------------------------
  // Character classes of the pattern
  // ---------------------------------------------------------------------

  /** `[a-zA-Z]` */
  predicate IsLetter(c: char) {
    ('a' <= c <= 'z') || ('A' <= c <= 'Z')
  }

  predicate IsDigit(c: char) {
    '0' <= c <= '9'
  }

  /** `[a-zA-Z0-9._%+-]`, the local part before the `@` */
  predicate IsLocalChar(c: char) {
    IsLetter(c) || IsDigit(c) || c == '.' || c == '_' || c == '%' || c == '+' || c == '-'
  }

  /** `[a-zA-Z0-9.-]`, the domain after the `@` */
  predicate IsDomainChar(c: char) {
    IsLetter(c) || IsDigit(c) || c == '.' || c == '-'
  }

  /** `[a-zA-Z0-9._%+-]+` */
  predicate LocalPart(s: string) {
    |s| >= 1 && forall i :: 0 <= i < |s| ==> IsLocalChar(s[i])
  }

  /** `[a-zA-Z0-9.-]+` */
  predicate DomainPart(s: string) {
    |s| >= 1 && forall i :: 0 <= i < |s| ==> IsDomainChar(s[i])
  }

  /** `[a-zA-Z]{2,}` */
  predicate TopLevel(s: string) {
    |s| >= 2 && forall i :: 0 <= i < |s| ==> IsLetter(s[i])
  }

  // ---------------------------------------------------------------------
  // Declarative reading of the regular expression
  // ---------------------------------------------------------------------

  /** `s` is local `@` domain `.` tld, with the `@` at `at` and the `.` at `dot`. */
  ghost predicate SplitsAt(s: string, at: int, dot: int) {
    0 <= at < dot < |s| && s[at] == '@' && s[dot] == '.' &&
    LocalPart(s[..at]) && DomainPart(s[at + 1..dot]) && TopLevel(s[dot + 1..])
  }

  /** The whole of `s` matches the pattern between `^` and `$`. */
  ghost predicate MatchesPattern(s: string) {
    exists at, dot :: SplitsAt(s, at, dot)
  }

  /**
   * What `re.match` reports: without MULTILINE, `$` matches at the very end of
   * the string and also just before one final newline.
   */
  ghost predicate RegexAccepts(s: string) {
    MatchesPattern(s) || (|s| > 0 && s[|s| - 1] == '\n' && MatchesPattern(s[..|s| - 1]))
  }

  // ---------------------------------------------------------------------
  // The recogniser: one left-to-right and one right-to-left scan by index
  // ---------------------------------------------------------------------

  datatype CharClass = LocalChars | DomainChars | Letters

  predicate InClass(c: char, k: CharClass) {
    match k
    case LocalChars => IsLocalChar(c)
    case DomainChars => IsDomainChar(c)
    case Letters => IsLetter(c)
  }

  /** Every character of `s[lo..hi]` belongs to class `k`. */
  predicate AllIn(s: string, lo: nat, hi: nat, k: CharClass)
    requires lo <= hi <= |s|
    decreases hi - lo
  {
    lo == hi || (InClass(s[lo], k) && AllIn(s, lo + 1, hi, k))
  }

  /** The first index of `c` in `s[from..end]`, if any. */
  function FindFirst(s: string, c: char, from: nat, end: nat): (r: Option<nat>)
    requires from <= end <= |s|
    ensures r.None? ==> forall i :: from <= i < end ==> s[i] != c
    ensures r.Some? ==> from <= r.value < end && s[r.value] == c &&
                        forall i :: from <= i < r.value ==> s[i] != c
    decreases end - from
  {
    if from == end then None
    else if s[from] == c then Some(from)
    else FindFirst(s, c, from + 1, end)
  }

  /** The last index of `c` in `s[from..end]`, if any. */
  function FindLast(s: string, c: char, from: nat, end: nat): (r: Option<nat>)
    requires from <= end <= |s|
    ensures r.None? ==> forall i :: from <= i < end ==> s[i] != c
    ensures r.Some? ==> from <= r.value < end && s[r.value] == c &&
                        forall i :: r.value < i < end ==> s[i] != c
    decreases end - from
  {
    if from == end then None
    else if s[end - 1] == c then Some(end - 1)
    else FindLast(s, c, from, end - 1)
  }

  /**
   * The anchored pattern on `s[..end]`: local characters up to the first `@`,
   * domain characters after it, and after the last `.` (which must not follow
   * the `@` directly) two or more letters.
   */
  function Recognize(s: string, end: nat): (b: bool)
    requires end <= |s|
    ensures b ==> MatchesPattern(s[..end])
  {
    match FindFirst(s, '@', 0, end)
    case None => false
    case Some(at) =>
      match FindLast(s, '.', at + 1, end)
      case None => false
      case Some(dot) =>
        RecognizeSound(s, end, at, dot);
        && at >= 1 && AllIn(s, 0, at, LocalChars) && AllIn(s, at + 1, end, DomainChars)
        && dot >= at + 2 && end - dot >= 3 && AllIn(s, dot + 1, end, Letters)
  }

  /**
   * `valid_email`: the pattern, or the pattern followed by one final newline.
   * It is true exactly when Python's `re.match` finds the pattern.
   */
  function ValidEmail(s: string): (b: bool)
    ensures b <==> RegexAccepts(s)
  {
    assert s[..|s|] == s;
    RecognizeCorrect(s, |s|);
    RecognizeCorrect(s, if |s| > 0 then |s| - 1 else 0);
    Recognize(s, |s|) || (|s| > 0 && s[|s| - 1] == '\n' && Recognize(s, |s| - 1))
  }

  // ---------------------------------------------------------------------
  // The recogniser decides the regular expression
  // ---------------------------------------------------------------------

  lemma {:induction false} AllInMeans(s: string, lo: nat, hi: nat, k: CharClass)
    requires lo <= hi <= |s|
    ensures AllIn(s, lo, hi, k) <==> forall i :: lo <= i < hi ==> InClass(s[i], k)
    decreases hi - lo
  {
    if lo < hi {
      AllInMeans(s, lo + 1, hi, k);
    }
  }

  /** The character classes of a slice, read off the whole string. */
  lemma SliceClasses(s: string, end: nat, at: nat, dot: nat)
    requires at < dot < end <= |s|
    ensures LocalPart(s[..end][..at]) <==> at >= 1 && AllIn(s, 0, at, LocalChars)
    ensures DomainPart(s[..end][at + 1..dot]) <==> dot >= at + 2 && AllIn(s, at + 1, dot, DomainChars)
    ensures TopLevel(s[..end][dot + 1..]) <==> end - dot >= 3 && AllIn(s, dot + 1, end, Letters)
  {
    AllInMeans(s, 0, at, LocalChars);
    AllInMeans(s, at + 1, dot, DomainChars);
    AllInMeans(s, dot + 1, end, Letters);
    assert s[..end][at + 1..dot] == s[at + 1..dot];
    assert s[..end][dot + 1..] == s[dot + 1..end];
    var local, domain, top := s[..end][..at], s[at + 1..dot], s[dot + 1..end];
    assert forall i :: 0 <= i < |local| ==> local[i] == s[i];
    assert forall i :: 0 <= i < |domain| ==> domain[i] == s[at + 1 + i];
    assert forall i :: 0 <= i < |top| ==> top[i] == s[dot + 1 + i];
  }

  /** A `@` and a later `.` that pass the recogniser's checks split `s[..end]` as the pattern does. */
  lemma RecognizeSound(s: string, end: nat, at: nat, dot: nat)
    requires at < dot < end <= |s| && s[at] == '@' && s[dot] == '.'
    ensures && at >= 1 && AllIn(s, 0, at, LocalChars) && AllIn(s, at + 1, end, DomainChars)
            && dot >= at + 2 && end - dot >= 3 && AllIn(s, dot + 1, end, Letters)
            ==> MatchesPattern(s[..end])
  {
    if && at >= 1 && AllIn(s, 0, at, LocalChars) && AllIn(s, at + 1, end, DomainChars)
       && dot >= at + 2 && end - dot >= 3 && AllIn(s, dot + 1, end, Letters)
    {
      AllInMeans(s, at + 1, end, DomainChars);
      AllInMeans(s, at + 1, dot, DomainChars);
      SliceClasses(s, end, at, dot);
      assert SplitsAt(s[..end], at, dot);
    }
  }

  lemma RecognizeComplete(s: string, end: nat, at: int, dot: int)
    requires end <= |s| && SplitsAt(s[..end], at, dot)
    ensures Recognize(s, end)
  {
    SliceClasses(s, end, at, dot);
    AllInMeans(s, 0, at, LocalChars);
    AllInMeans(s, dot + 1, end, Letters);
    // the first '@' is the one at `at`: no local character is an '@'
    assert s[at] == '@';
    assert FindFirst(s, '@', 0, end) == Some(at);
    // the last '.' is the one at `dot`: no letter is a '.'
    assert s[dot] == '.';
    assert FindLast(s, '.', at + 1, end) == Some(dot);
    // after the '@' everything is a domain character
    AllInMeans(s, at + 1, dot, DomainChars);
    AllInMeans(s, at + 1, end, DomainChars);
  }

  /** The recogniser accepts exactly the prefixes the anchored pattern matches. */
  lemma RecognizeCorrect(s: string, end: nat)
    requires end <= |s|
    ensures Recognize(s, end) <==> MatchesPattern(s[..end])
  {
    if MatchesPattern(s[..end]) {
      var at, dot :| SplitsAt(s[..end], at, dot);
      RecognizeComplete(s, end, at, dot);
    }
  }

  // ---------------------------------------------------------------------
  // Names: non-empty after str.strip()
  // ---------------------------------------------------------------------

  /** The ASCII characters Python's `str.strip()` removes: 9-13, 28-31 and space. */
  predicate IsSpace(c: char) {
    (9 <= c as int <= 13) || (28 <= c as int <= 32)
  }

  /** Number of whitespace characters at the start of `s`. */
  function LeadingSpaces(s: string): (n: nat)
    ensures n <= |s|
    ensures forall i :: 0 <= i < n ==> IsSpace(s[i])
    ensures n < |s| ==> !IsSpace(s[n])
  {
    if s == [] || !IsSpace(s[0]) then 0 else 1 + LeadingSpaces(s[1..])
  }

  /** Number of whitespace characters at the end of `s`. */
  function TrailingSpaces(s: string): (n: nat)
    ensures n <= |s|
    ensures forall i :: |s| - n <= i < |s| ==> IsSpace(s[i])
    ensures n < |s| ==> !IsSpace(s[|s| - 1 - n])
  {
    if s == [] || !IsSpace(s[|s| - 1]) then 0 else 1 + TrailingSpaces(s[..|s| - 1])
  }

  /** `str.strip()`: `s` without its leading and trailing whitespace. */
  function Strip(s: string): (r: string)
    ensures |r| <= |s|
    ensures r == [] <==> forall i :: 0 <= i < |s| ==> IsSpace(s[i])
    ensures r != [] ==> !IsSpace(r[0]) && !IsSpace(r[|r| - 1])
    ensures exists a, b :: 0 <= a <= b <= |s| && r == s[a..b] &&
              forall i :: 0 <= i < |s| && (i < a || b <= i) ==> IsSpace(s[i])
  {
    var front := LeadingSpaces(s);
    var rest := s[front..];
    var back := |rest| - TrailingSpaces(rest);
    var r := rest[..back];
    assert front < |s| ==> r != [] && r[0] == s[front];
    assert r == s[front..front + back];
    assert forall i :: front + back <= i < |s| ==> s[i] == rest[i - front];
    r
  }

  /**
   * The name rule of the Customer name setter: `value.strip()` is non-empty,
   * that is, the name has a character that is not whitespace.
   */
  function ValidName(s: string): (b: bool)
    ensures b <==> exists i :: 0 <= i < |s| && !IsSpace(s[i])
  {
    Strip(s) != []
  }
}

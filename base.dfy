/**
 * Options and the string operations that the JavaScript and Python sources
 * use: prefix/suffix/substring tests, `split` and `join` on a separator,
 * ASCII case mapping, whitespace trimming (JavaScript `trim` and Python
 * `strip` differ in what counts as whitespace), first-occurrence replace,
 * and decimal rendering of naturals.
 */
module Base {

  datatype Option<+T> = None | Some(value: T)

  // ------------------------------------------------------------------
  // Occurrences

  predicate StartsWith(s: string, p: string) {
    |p| <= |s| && s[..|p|] == p
  }

  predicate EndsWith(s: string, p: string) {
    |p| <= |s| && s[|s| - |p|..] == p
  }

  /** `p` occurs in `s` starting at index `i`. */
  predicate OccursAt(s: string, p: string, i: int) {
    0 <= i && i + |p| <= |s| && s[i..i + |p|] == p
  }

  /** Leftmost occurrence of `p` in `s` at or after `from` (JavaScript `indexOf`, Python `find`). */
  function IndexFrom(s: string, p: string, from: nat): (r: Option<nat>)
    decreases |s| - from
    ensures r.Some? ==> from <= r.value && OccursAt(s, p, r.value)
    ensures r.Some? ==> forall j :: from <= j < r.value ==> !OccursAt(s, p, j)
    ensures r.None? ==> forall j :: from <= j ==> !OccursAt(s, p, j)
  {
    if from + |p| > |s| then None
    else if s[from..from + |p|] == p then Some(from)
    else IndexFrom(s, p, from + 1)
  }

  function IndexOf(s: string, p: string): Option<nat> {
    IndexFrom(s, p, 0)
  }

  /** JavaScript `includes`, Python `in` on strings. */
  predicate Contains(s: string, p: string) {
    IndexOf(s, p).Some?
  }

  lemma ContainsAt(s: string, p: string, i: int)
    requires OccursAt(s, p, i)
    ensures Contains(s, p)
  {
  }

  lemma ContainsWitness(s: string, p: string) returns (i: nat)
    requires Contains(s, p)
    ensures OccursAt(s, p, i)
  {
    i := IndexOf(s, p).value;
  }

  lemma ContainsSlice(s: string, p: string, lo: nat, hi: nat)
    requires lo <= hi <= |s|
    requires Contains(s[lo..hi], p)
    ensures Contains(s, p)
  {
    var i := ContainsWitness(s[lo..hi], p);
    assert i + |p| <= hi - lo;
    var a, b := s[lo..hi][i..i + |p|], s[lo + i..lo + i + |p|];
    forall k | 0 <= k < |a| ensures a[k] == b[k] { }
    assert a == b;
    ContainsAt(s, p, lo + i);
  }

  /** The text between `from` and the first occurrence of a non-empty `p` does not contain `p`. */
  lemma BeforeFirst(s: string, p: string, from: nat)
    requires |p| > 0 && IndexFrom(s, p, from).Some?
    ensures !Contains(s[from..IndexFrom(s, p, from).value], p)
  {
    var e := IndexFrom(s, p, from).value;
    var g := s[from..e];
    forall i | 0 <= i && i + |p| <= |g| ensures !OccursAt(g, p, i) {
      assert !OccursAt(s, p, from + i);
      assert g[i..i + |p|] == s[from + i..from + i + |p|];
    }
  }

  lemma EmptyAppend<T>(a: seq<T>, b: seq<T>)
    ensures a + b == [] <==> a == [] && b == []
  {
    if a + b == [] { assert |a + b| == 0; }
  }

  lemma EmptyContainsOnlyEmpty(p: string)
    ensures Contains("", p) <==> p == ""
  {
    if p == "" { ContainsAt("", p, 0); }
  }

  /** Occurrences agree at positions where two strings have the same suffix. */
  lemma OccursShift(s: string, a: nat, t: string, b: nat, p: string)
    requires a <= |s| && b <= |t| && s[a..] == t[b..]
    ensures OccursAt(s, p, a) <==> OccursAt(t, p, b)
  {
    if a + |p| <= |s| {
      assert s[a..a + |p|] == s[a..][..|p|];
      assert t[b..b + |p|] == t[b..][..|p|];
    }
  }

  /** A pattern whose first character never occurs in `s` does not occur in `s`. */
  lemma NoOccurrence(s: string, p: string)
    requires |p| > 0 && p[0] !in s
    ensures !Contains(s, p)
  {
    forall i | 0 <= i && i + |p| <= |s| ensures !OccursAt(s, p, i) {
      assert s[i..i + |p|][0] == s[i];
    }
  }

  /** A one-character pattern occurs iff the character does. */
  lemma ContainsChar(s: string, c: char)
    ensures Contains(s, [c]) <==> c in s
  {
    if c in s {
      var i :| 0 <= i < |s| && s[i] == c;
      assert s[i..i + 1] == [c];
      ContainsAt(s, [c], i);
    }
    if Contains(s, [c]) {
      var i := ContainsWitness(s, [c]);
      assert s[i..i + 1][0] == s[i];
    }
  }

  // ------------------------------------------------------------------
  // split / join on a non-empty separator (JavaScript and Python agree)

  function Split(s: string, sep: string): (parts: seq<string>)
    requires |sep| > 0
    decreases |s|
    ensures |parts| >= 1
  {
    match IndexOf(s, sep)
    case None => [s]
    case Some(k) => [s[..k]] + Split(s[k + |sep|..], sep)
  }

  function Join(parts: seq<string>, sep: string): string {
    if |parts| == 0 then ""
    else if |parts| == 1 then parts[0]
    else parts[0] + sep + Join(parts[1..], sep)
  }

  /** Joining the pieces of a split with the same separator gives the string back. */
  lemma {:induction false} JoinSplit(s: string, sep: string)
    requires |sep| > 0
    decreases |s|
    ensures Join(Split(s, sep), sep) == s
  {
    match IndexOf(s, sep)
    case None =>
    case Some(k) =>
      var rest := Split(s[k + |sep|..], sep);
      JoinSplit(s[k + |sep|..], sep);
      assert Split(s, sep) == [s[..k]] + rest;
      assert ([s[..k]] + rest)[1..] == rest;
      assert s[k..k + |sep|] == sep;
      assert s == s[..k] + sep + s[k + |sep|..];
  }

  /** The first piece of a split never contains the separator. */
  lemma SplitHead(s: string, sep: string)
    requires |sep| > 0
    ensures !Contains(Split(s, sep)[0], sep)
    ensures StartsWith(s, Split(s, sep)[0])
  {
    var h := Split(s, sep)[0];
    match IndexOf(s, sep)
    case None =>
    case Some(k) =>
      if Contains(h, sep) {
        var i := ContainsWitness(h, sep);
        assert s[i..i + |sep|] == h[i..i + |sep|];
        assert OccursAt(s, sep, i);
      }
  }

  lemma AppendAssoc<T>(a: seq<T>, b: seq<T>, c: seq<T>)
    ensures a + b + c == a + (b + c)
  {
  }

  lemma AppendAssoc4<T>(a: seq<T>, b: seq<T>, c: seq<T>, d: seq<T>)
    ensures a + b + c + d == a + (b + c + d)
  {
  }

  lemma PrefixOfPrefix<T>(s: seq<T>, n: int, k: int)
    requires 0 <= k <= n <= |s|
    ensures s[..n][..k] == s[..k]
  {
  }

  lemma PrefixAll<T>(s: seq<T>)
    ensures s[..|s|] == s
  {
  }

  /** Extending a prefix slice by one element. */
  lemma SliceSnoc<T>(b: seq<T>, i: int)
    requires 0 <= i < |b|
    ensures b[..i + 1] == b[..i] + [b[i]]
  {
  }

  /** Extending a slice by one element, behind a fixed prefix. */
  lemma SnocSlice<T>(a: seq<T>, b: seq<T>, i: int)
    requires 0 <= i < |b|
    ensures a + b[..i + 1] == (a + b[..i]) + [b[i]]
  {
    assert b[..i + 1] == b[..i] + [b[i]];
  }

  function Last<T>(xs: seq<T>): T
    requires |xs| > 0
  {
    xs[|xs| - 1]
  }

  // ------------------------------------------------------------------
  // ASCII case mapping (Unicode case mapping is not modelled)

  function LowerChar(c: char): char {
    if 'A' <= c <= 'Z' then (c as int + 32) as char else c
  }

  function UpperChar(c: char): char {
    if 'a' <= c <= 'z' then (c as int - 32) as char else c
  }

  /** JavaScript `toLowerCase`, Python `lower`, on ASCII letters. */
  function Lower(s: string): (r: string)
    ensures |r| == |s|
  {
    seq(|s|, i requires 0 <= i < |s| => LowerChar(s[i]))
  }

  /** Python `capitalize`: first character upper case, the rest lower case. */
  function Capitalize(s: string): (r: string)
    ensures |r| == |s|
  {
    if s == "" then "" else [UpperChar(s[0])] + Lower(s[1..])
  }

  lemma LowerIdempotent(s: string)
    ensures Lower(Lower(s)) == Lower(s)
  {
  }

  lemma LowerAppend(a: string, b: string)
    ensures Lower(a + b) == Lower(a) + Lower(b)
  {
  }

  // ------------------------------------------------------------------
  // Whitespace and trimming

  /** What JavaScript's `trim` and the regular-expression class `\s` treat as white space. */
  predicate IsJsSpace(c: char) {
    c == '\t' || c == '\n' || c == '\U{000B}' || c == '\U{000C}' || c == '\r' || c == ' '
    || c == '\U{00A0}' || c == '\U{1680}' || ('\U{2000}' <= c <= '\U{200A}')
    || c == '\U{2028}' || c == '\U{2029}' || c == '\U{202F}' || c == '\U{205F}'
    || c == '\U{3000}' || c == '\U{FEFF}'
  }

  /** What Python's `str.isspace`, `strip` and `split()` treat as white space. */
  predicate IsPySpace(c: char) {
    ('\t' <= c <= '\r') || ('\U{001C}' <= c <= '\U{001F}') || c == ' '
    || c == '\U{0085}' || c == '\U{00A0}' || c == '\U{1680}' || ('\U{2000}' <= c <= '\U{200A}')
    || c == '\U{2028}' || c == '\U{2029}' || c == '\U{202F}' || c == '\U{205F}' || c == '\U{3000}'
  }

  function TrimStart(s: string, space: char -> bool): (r: string)
    decreases |s|
    ensures |r| <= |s| && r == s[|s| - |r|..]
    ensures r == [] || !space(r[0])
    ensures forall i :: 0 <= i < |s| - |r| ==> space(s[i])
  {
    if |s| > 0 && space(s[0]) then TrimStart(s[1..], space) else s
  }

  function TrimEnd(s: string, space: char -> bool): (r: string)
    decreases |s|
    ensures |r| <= |s| && r == s[..|r|]
    ensures r == [] || !space(r[|r| - 1])
    ensures forall i :: |r| <= i < |s| ==> space(s[i])
  {
    if |s| > 0 && space(s[|s| - 1]) then TrimEnd(s[..|s| - 1], space) else s
  }

  /** First index at or after `k` that is not a `space` character (a greedy `\s*`). */
  function SkipSpaces(s: string, k: nat, space: char -> bool): (j: nat)
    requires k <= |s|
    decreases |s| - k
    ensures k <= j <= |s|
    ensures j == |s| || !space(s[j])
    ensures forall m :: k <= m < j ==> space(s[m])
  {
    if k < |s| && space(s[k]) then SkipSpaces(s, k + 1, space) else k
  }

  /** Number of leading `space` characters of `s`. */
  function Leading(s: string, space: char -> bool): (n: nat)
    ensures n <= |s|
  {
    |s| - |TrimStart(s, space)|
  }

  /** Removes leading and trailing `space` characters; the result is the slice of `s` after its leading spaces. */
  function Trim(s: string, space: char -> bool): (r: string)
    ensures Leading(s, space) + |r| <= |s|
    ensures r == s[Leading(s, space)..Leading(s, space) + |r|]
    ensures r == [] || (!space(r[0]) && !space(r[|r| - 1]))
  {
    TrimEnd(TrimStart(s, space), space)
  }

  /** JavaScript `String.prototype.trim`. */
  function JsTrim(s: string): string {
    Trim(s, IsJsSpace)
  }

  /** Python `str.strip()`. */
  function PyStrip(s: string): string {
    Trim(s, IsPySpace)
  }

  /** A string without leading or trailing `space` characters is its own trim. */
  lemma TrimTrimmed(s: string, space: char -> bool)
    requires s == [] || (!space(s[0]) && !space(s[|s| - 1]))
    ensures Trim(s, space) == s
  {
  }

  /** Number of words in the sense of Python's argument-less `str.split()`. */
  function PyWordCount(s: string): nat
    decreases |s|
  {
    if |s| == 0 then 0
    else PyWordCount(s[..|s| - 1])
         + (if !IsPySpace(s[|s| - 1]) && (|s| == 1 || IsPySpace(s[|s| - 2])) then 1 else 0)
  }

  // ------------------------------------------------------------------
  // Replacement, counting, numbers

  /** JavaScript `replace` with a string pattern: only the first occurrence is replaced. */
  function ReplaceFirst(s: string, pat: string, repl: string): (r: string)
    ensures !Contains(s, pat) ==> r == s
  {
    match IndexOf(s, pat)
    case None => s
    case Some(k) => s[..k] + repl + s[k + |pat|..]
  }

  /** Python `str.count` of a single character. */
  function CountChar(s: string, c: char): (n: nat)
    ensures n <= |s|
  {
    if |s| == 0 then 0 else CountChar(s[..|s| - 1], c) + (if s[|s| - 1] == c then 1 else 0)
  }

  function DigitChar(d: nat): char
    requires d < 10
  {
    ('0' as int + d) as char
  }

  /** Decimal rendering of a natural number (Python `str`/f-string, JavaScript template). */
  function NatToString(n: nat): (r: string)
    ensures |r| >= 1
  {
    if n < 10 then [DigitChar(n)] else NatToString(n / 10) + [DigitChar(n % 10)]
  }

  function Min(a: int, b: int): int {
    if a <= b then a else b
  }

  function Max(a: int, b: int): int {
    if a <= b then b else a
  }

  /** JavaScript `Math.round` for the values met here: halves round up. */
  function Round(x: real): int {
    (x + 0.5).Floor
  }

  /** An average of values within [0, 100] is within [0, 100]. */
  lemma DivBound(t: real, n: real)
    requires n >= 1.0 && 0.0 <= t <= 100.0 * n
    ensures 0.0 <= t / n <= 100.0
  {
    assert t / n <= (100.0 * n) / n;
    assert (100.0 * n) / n == 100.0;
  }

  /** The chunks of a stream joined in order. */
  function Concat(chunks: seq<string>): string {
    if |chunks| == 0 then "" else Concat(chunks[..|chunks| - 1]) + chunks[|chunks| - 1]
  }

  lemma {:induction false} ConcatCons(x: string, xs: seq<string>)
    ensures Concat([x] + xs) == x + Concat(xs)
  {
    if xs != [] {
      var init := xs[..|xs| - 1];
      ConcatCons(x, init);
      assert ([x] + xs)[..|xs|] == [x] + init;
      AppendAssoc(x, Concat(init), xs[|xs| - 1]);
    }
  }
}

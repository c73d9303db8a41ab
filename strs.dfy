/**
 * Character classes and string primitives used by both the Rust and the Go
 * code: whitespace trimming, digit tests, prefix tests, counting, joining and
 * the UTF-8 byte length that Rust's `str::len` reports.
 */
module Strs {

  /**
   * The Unicode White_Space property. Rust's `char::is_whitespace` (behind
   * `str::trim`) and Go's `unicode.IsSpace` (behind `strings.TrimSpace`)
   * both test exactly this set.
   */
  predicate IsWhitespace(c: char) {
    if c < '\U{0080}' then ('\t' <= c <= '\r') || c == ' '
    else (c == '\U{0085}' || c == '\U{00A0}' || c == '\U{1680}'
      || ('\U{2000}' <= c <= '\U{200A}') || c == '\U{2028}' || c == '\U{2029}'
      || c == '\U{202F}' || c == '\U{205F}' || c == '\U{3000}')
  }

  /** `char::is_ascii_digit`, and also `char::is_digit(10)`. */
  predicate IsAsciiDigit(c: char) {
    '0' <= c <= '9'
  }

  /** `s.chars().all(|c| c.is_ascii_digit())`: true of the empty string. */
  predicate AllDigits(s: string) {
    forall i :: 0 <= i < |s| ==> IsAsciiDigit(s[i])
  }

  predicate StartsWith(s: string, prefix: string) {
    |prefix| <= |s| && s[..|prefix|] == prefix
  }

  predicate EndsWith(s: string, suffix: string) {
    |suffix| <= |s| && s[|s| - |suffix|..] == suffix
  }

  /** Neither end of `s` is whitespace: what trimming leaves behind. */
  predicate Trimmed(s: string) {
    s == [] || (!IsWhitespace(s[0]) && !IsWhitespace(s[|s| - 1]))
  }

  function TrimStart(s: string): (r: string)
    ensures |r| <= |s| && r == s[|s| - |r|..]
    ensures r == [] || !IsWhitespace(r[0])
    ensures forall k :: 0 <= k < |s| - |r| ==> IsWhitespace(s[k])
  {
    if |s| > 0 && IsWhitespace(s[0]) then TrimStart(s[1..]) else s
  }

  function TrimEnd(s: string): (r: string)
    ensures |r| <= |s| && r == s[..|r|]
    ensures r == [] || !IsWhitespace(r[|r| - 1])
    ensures forall k :: |r| <= k < |s| ==> IsWhitespace(s[k])
  {
    if |s| > 0 && IsWhitespace(s[|s| - 1]) then TrimEnd(s[..|s| - 1]) else s
  }

  /** `str::trim` (Rust) and `strings.TrimSpace` (Go). */
  function Trim(s: string): (r: string)
    ensures Trimmed(r)
    ensures Trimmed(s) ==> r == s
  {
    TrimEnd(TrimStart(s))
  }

  /** Number of occurrences of `c` in `s`: `s.matches(c).count()`, `strings.Count`. */
  function Count(s: string, c: char): (n: nat)
    ensures n <= |s|
    ensures n == 0 <==> c !in s
  {
    if s == [] then 0 else (if s[0] == c then 1 else 0) + Count(s[1..], c)
  }

  lemma {:induction false} CountAppend(a: string, b: string, c: char)
    ensures Count(a + b, c) == Count(a, c) + Count(b, c)
  {
    if a == [] {
      assert a + b == b;
    } else {
      assert (a + b)[1..] == a[1..] + b;
      CountAppend(a[1..], b, c);
    }
  }

  /** `xs.join(d)` (Rust) and the `if i > 0 { write(d) }` builder loops (Go). */
  function Join(xs: seq<string>, d: string): (r: string)
    ensures |xs| == 1 ==> r == xs[0]
  {
    if xs == [] then "" else if |xs| == 1 then xs[0] else xs[0] + d + Join(xs[1..], d)
  }

  /** Appending one element to a join: the step every builder loop takes. */
  lemma {:induction false} JoinSnoc(xs: seq<string>, x: string, d: string)
    ensures Join(xs + [x], d) == if xs == [] then x else Join(xs, d) + d + x
  {
    if |xs| > 1 {
      assert (xs + [x])[1..] == xs[1..] + [x];
      JoinSnoc(xs[1..], x, d);
    } else if |xs| == 1 {
      assert xs + [x] == [xs[0], x];
    } else {
      assert xs + [x] == [x];
    }
  }

  /** Joining strings that avoid `c`, with a one-character delimiter. */
  lemma {:induction false} CountJoin(xs: seq<string>, d: char, c: char)
    requires forall i :: 0 <= i < |xs| ==> c !in xs[i]
    ensures Count(Join(xs, [d]), c) == if d == c && xs != [] then |xs| - 1 else 0
  {
    if |xs| == 1 {
      assert Count(xs[0], c) == 0;
    } else if |xs| > 1 {
      CountJoin(xs[1..], d, c);
      CountAppend(xs[0] + [d], Join(xs[1..], [d]), c);
      CountAppend(xs[0], [d], c);
      assert Count([d], c) == (if d == c then 1 else 0);
    }
  }

  /** `input.replace(from, to)` for a single-character pattern and replacement. */
  function ReplaceAll(s: string, from: char, to: char): (r: string)
    ensures |r| == |s|
    ensures forall i :: 0 <= i < |s| ==> r[i] == if s[i] == from then to else s[i]
    ensures from != to ==> from !in r
  {
    if s == [] then [] else [if s[0] == from then to else s[0]] + ReplaceAll(s[1..], from, to)
  }

  predicate IsAsciiAlphanumeric(c: char) {
    ('a' <= c <= 'z') || ('A' <= c <= 'Z') || ('0' <= c <= '9')
  }

  /** The ASCII characters from `lo` to `hi`, in order. */
  function CharRange(lo: char, hi: char): (r: string)
    requires hi < '\U{0080}'
    ensures forall c :: c in r <==> lo <= c <= hi
    ensures |r| == if lo > hi then 0 else hi as int - lo as int + 1
    decreases hi as int - lo as int
  {
    if lo > hi then "" else if lo == hi then [lo] else [lo] + CharRange((lo as int + 1) as char, hi)
  }

  /** Bytes the UTF-8 encoding of `c` takes. */
  function Utf8Width(c: char): (w: nat)
    ensures 1 <= w <= 4
    ensures w == 1 <==> c < '\U{0080}'
  {
    if c < '\U{0080}' then 1 else if c < '\U{0800}' then 2 else if c < '\U{10000}' then 3 else 4
  }

  /** Rust's `str::len`: the UTF-8 byte length of a string. */
  function ByteLen(s: string): (n: nat)
    ensures n >= |s|
    ensures (forall i :: 0 <= i < |s| ==> s[i] < '\U{0080}') ==> n == |s|
  {
    if s == [] then 0 else Utf8Width(s[0]) + ByteLen(s[1..])
  }
}

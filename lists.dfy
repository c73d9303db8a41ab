/**
 * Delimited lists of items, as every batch and format operation reads them:
 * an item boundary is any '\n' or ',' character, and the delimiter used to
 * join results is chosen by counting the two characters in the input.
 */
module Lists {
  import opened Strs

  predicate IsListSeparator(c: char) {
    c == '\n' || c == ','
  }

  /** No item boundary inside `s`. */
  predicate NoSeparator(s: string) {
    '\n' !in s && ',' !in s
  }

  /**
   * Rust's `input.split(|c| c == '\n' || c == ',')`: the pieces between
   * separators, empty ones included, so `n` separators give `n + 1` pieces.
   */
  function Split(s: string): (pieces: seq<string>)
    ensures |pieces| >= 1
    ensures forall i :: 0 <= i < |pieces| ==> NoSeparator(pieces[i])
    ensures |pieces| == 1 ==> pieces[0] == s
  {
    if s == [] then [""]
    else
      var rest := Split(s[1..]);
      if IsListSeparator(s[0]) then [""] + rest
      else [[s[0]] + rest[0]] + rest[1..]
  }

  /** The pieces with empty ones removed, order kept. */
  function DropEmpty(xs: seq<string>): (r: seq<string>)
    ensures |r| <= |xs|
    ensures forall i :: 0 <= i < |r| ==> r[i] != [] && r[i] in xs
    ensures (forall i :: 0 <= i < |xs| ==> xs[i] != []) ==> r == xs
  {
    if xs == [] then []
    else if xs[0] == [] then DropEmpty(xs[1..])
    else [xs[0]] + DropEmpty(xs[1..])
  }

  function TrimEach(xs: seq<string>): (r: seq<string>)
    ensures |r| == |xs|
    ensures forall i :: 0 <= i < |xs| ==> r[i] == Trim(xs[i])
  {
    seq(|xs|, i requires 0 <= i < |xs| => Trim(xs[i]))
  }

  /** An item as the list helpers produce it: non-empty, trimmed, no separator. */
  predicate IsItem(s: string) {
    s != [] && Trimmed(s) && NoSeparator(s)
  }

  /**
   * `split(..).map(str::trim).filter(|s| !s.is_empty())`: the items of a
   * Rust batch or format operation.
   */
  function Items(s: string): (items: seq<string>)
    ensures forall i :: 0 <= i < |items| ==> IsItem(items[i])
  {
    var r := DropEmpty(TrimEach(Split(s)));
    TrimmedPieces(Split(s));
    r
  }

  /** Trimming a piece keeps it free of separators. */
  lemma TrimmedPiece(p: string)
    requires NoSeparator(p) && Trim(p) != []
    ensures IsItem(Trim(p))
  {
  }

  /** The non-empty trimmed pieces are items. */
  lemma TrimmedPieces(pieces: seq<string>)
    requires forall i :: 0 <= i < |pieces| ==> NoSeparator(pieces[i])
    ensures forall i :: 0 <= i < |DropEmpty(TrimEach(pieces))| ==> IsItem(DropEmpty(TrimEach(pieces))[i])
  {
    var t := TrimEach(pieces);
    var r := DropEmpty(t);
    forall i | 0 <= i < |r| ensures IsItem(r[i]) {
      var k :| 0 <= k < |t| && t[k] == r[i];
      TrimmedPiece(pieces[k]);
    }
  }

  /**
   * Go's `strings.FieldsFunc(s, func(r) bool { r == '\n' || r == ',' })`:
   * the non-empty pieces, not trimmed.
   */
  function Fields(s: string): (fields: seq<string>)
    ensures forall i :: 0 <= i < |fields| ==> fields[i] != [] && NoSeparator(fields[i])
  {
    DropEmpty(Split(s))
  }

  /** `count('\n') > count(',')`: the input is mostly newline-separated. */
  predicate UsesNewlines(s: string) {
    Count(s, '\n') > Count(s, ',')
  }

  /** The join delimiter of the batch, add-quotes and remove-quotes operations. */
  function MajorityDelimiter(s: string): (d: string)
    ensures d == "\n" <==> Count(s, '\n') > Count(s, ',')
    ensures d == "\n" || d == ","
  {
    if UsesNewlines(s) then "\n" else ","
  }

  /** The list as the Rust helpers rebuild it when every item maps to itself. */
  function Normalize(s: string): string {
    Join(Items(s), MajorityDelimiter(s))
  }

  lemma {:induction false} SplitNoSeparator(a: string)
    requires NoSeparator(a)
    ensures Split(a) == [a]
  {
    if a != [] {
      SplitNoSeparator(a[1..]);
    }
  }

  /** A separator ends the first piece. */
  lemma {:induction false} SplitAtSeparator(a: string, c: char, b: string)
    requires NoSeparator(a) && IsListSeparator(c)
    ensures Split(a + [c] + b) == [a] + Split(b)
  {
    if a == [] {
      assert a + [c] + b == [c] + b;
      assert ([c] + b)[1..] == b;
    } else {
      assert (a + [c] + b)[1..] == a[1..] + [c] + b;
      SplitAtSeparator(a[1..], c, b);
      assert [a[0]] + a[1..] == a;
    }
  }

  /** Splitting undoes joining, for pieces free of separators. */
  lemma {:induction false} SplitJoin(xs: seq<string>, d: char)
    requires |xs| >= 1 && IsListSeparator(d)
    requires forall i :: 0 <= i < |xs| ==> NoSeparator(xs[i])
    ensures Split(Join(xs, [d])) == xs
  {
    if |xs| == 1 {
      SplitNoSeparator(xs[0]);
    } else {
      SplitJoin(xs[1..], d);
      SplitAtSeparator(xs[0], d, Join(xs[1..], [d]));
      assert [xs[0]] + xs[1..] == xs;
    }
  }

  /** A non-empty run of ASCII letters and digits is an item. */
  lemma AlphanumericIsItem(s: string)
    requires s != []
    requires forall i :: 0 <= i < |s| ==> IsAsciiAlphanumeric(s[i])
    ensures IsItem(s)
  {
    assert !IsWhitespace(s[0]) && !IsWhitespace(s[|s| - 1]);
    assert '\n' !in s && ',' !in s by {
      forall i | 0 <= i < |s| ensures s[i] != '\n' && s[i] != ',' {
        assert IsAsciiAlphanumeric(s[i]);
      }
    }
  }

  lemma TrimEachItems(xs: seq<string>)
    requires forall i :: 0 <= i < |xs| ==> IsItem(xs[i])
    ensures TrimEach(xs) == xs
  {
  }

  /**
   * Reading back a joined list gives the same items: the list helpers'
   * output can be fed to them again without losing or merging items.
   */
  lemma ItemsOfJoin(xs: seq<string>, d: string)
    requires d == "\n" || d == ","
    requires forall i :: 0 <= i < |xs| ==> IsItem(xs[i])
    ensures Items(Join(xs, d)) == xs
  {
    if xs == [] {
      assert Split("") == [""];
      assert TrimEach([""]) == [""];
    } else {
      SplitJoin(xs, d[0]);
      assert [d[0]] == d;
      TrimEachItems(xs);
    }
  }

  /** Joining items with `d` leaves a text whose majority delimiter is `d` again. */
  lemma DelimiterOfJoin(xs: seq<string>, d: string)
    requires d == "\n" || d == ","
    requires |xs| >= 2 || d == ","
    requires forall i :: 0 <= i < |xs| ==> NoSeparator(xs[i])
    ensures MajorityDelimiter(Join(xs, d)) == d
  {
    assert [d[0]] == d;
    CountJoin(xs, d[0], '\n');
    CountJoin(xs, d[0], ',');
  }

  /** Below two items the delimiter never shows. */
  lemma JoinShort(xs: seq<string>, d: string, e: string)
    requires |xs| <= 1
    ensures Join(xs, d) == Join(xs, e)
  {
  }

  /** Feeding a normalized list back in normalizes to itself. */
  lemma {:induction false} NormalizeIdempotent(s: string)
    ensures Normalize(Normalize(s)) == Normalize(s)
  {
    var xs, d := Items(s), MajorityDelimiter(s);
    ItemsOfJoin(xs, d);
    if |xs| >= 2 || d == "," {
      DelimiterOfJoin(xs, d);
    } else {
      JoinShort(xs, d, MajorityDelimiter(Join(xs, d)));
    }
  }
}

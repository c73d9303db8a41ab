/**
 * The list transforms of `text_processor.rs`: switching the delimiter,
 * replacing full-width commas, and adding or removing single quotes around
 * every item. Each refuses an empty input.
 */
module TextProcessor {
  import opened Wrappers
  import opened Strs
  import opened Lists
  import opened Errors

  /** The error every transform gives for an empty input. */
  const EMPTY_FORMAT_INPUT := FormatError(EMPTY_INPUT)

  // ---------------------------------------------------------------------
  // convert_format

  /** The delimiter `convert_format` switches to: the opposite of the majority one. */
  function OppositeDelimiter(s: string): (d: string)
    ensures d == "," <==> MajorityDelimiter(s) == "\n"
    ensures d == "\n" || d == ","
  {
    if UsesNewlines(s) then "," else "\n"
  }

  /** `convert_format`: the items, joined with the other delimiter. */
  function ConvertFormat(input: string): (r: Result<string, AppError>)
    ensures r.Err? <==> input == []
    ensures r.Err? ==> r.error == EMPTY_FORMAT_INPUT
  {
    if input == [] then Err(EMPTY_FORMAT_INPUT)
    else Ok(Join(Items(input), OppositeDelimiter(input)))
  }

  /**
   * Converting twice restores the normalized list: the same items with the
   * original majority delimiter. With fewer than two items there is no
   * delimiter in the first output for the second call to count.
   */
  lemma ConvertFormatTwice(input: string)
    requires |Items(input)| >= 2
    ensures ConvertFormat(input).Ok?
    ensures ConvertFormat(ConvertFormat(input).value) == Ok(Normalize(input))
  {
    var xs, d := Items(input), OppositeDelimiter(input);
    var once := Join(xs, d);
    assert once == xs[0] + d + Join(xs[1..], d);
    ItemsOfJoin(xs, d);
    DelimiterOfJoin(xs, d);
  }

  /** On a list of items, conversion swaps the delimiter and keeps the items. */
  lemma ConvertFormatOfJoin(xs: seq<string>, d: string)
    requires |xs| >= 2 && (d == "\n" || d == ",")
    requires forall i :: 0 <= i < |xs| ==> IsItem(xs[i])
    ensures ConvertFormat(Join(xs, d)) == Ok(Join(xs, if d == "\n" then "," else "\n"))
  {
    assert Join(xs, d) == xs[0] + d + Join(xs[1..], d);
    ItemsOfJoin(xs, d);
    DelimiterOfJoin(xs, d);
  }

  /** The conversion test of `text_processor.rs` and `commands.rs`, both ways. */
  lemma ConvertFormatExample()
    ensures ConvertFormat("1,2,3") == Ok("1\n2\n3")
    ensures ConvertFormat("1\n2\n3") == Ok("1,2,3")
  {
    var xs := ["1", "2", "3"];
    assert Join(xs, ",") == "1,2,3";
    assert Join(xs, "\n") == "1\n2\n3";
    ConvertFormatOfJoin(xs, ",");
    ConvertFormatOfJoin(xs, "\n");
  }

  // ---------------------------------------------------------------------
  // replace_chinese_commas

  /** `replace_chinese_commas`: every full-width comma becomes ',', nothing else changes. */
  function ReplaceChineseCommas(input: string): (r: Result<string, AppError>)
    ensures r.Err? <==> input == []
    ensures r.Err? ==> r.error == EMPTY_FORMAT_INPUT
    ensures r.Ok? ==> |r.value| == |input| && '，' !in r.value
    ensures r.Ok? ==> forall i :: 0 <= i < |input| ==> r.value[i] == if input[i] == '，' then ',' else input[i]
  {
    if input == [] then Err(EMPTY_FORMAT_INPUT) else Ok(ReplaceAll(input, '，', ','))
  }

  /** The comma test of `text_processor.rs`. */
  lemma ReplaceChineseCommasExample()
    ensures ReplaceChineseCommas("1，2，3") == Ok("1,2,3")
  {
    var r := ReplaceChineseCommas("1，2，3");
    assert r.value == "1,2,3";
  }

  // ---------------------------------------------------------------------
  // add_quotes

  const QUOTE := "'"

  predicate QuotedBothEnds(item: string) {
    StartsWith(item, QUOTE) && EndsWith(item, QUOTE)
  }

  /** The per-item step of `add_quotes`: wrap an item that touches no quote at either end. */
  function Quote(item: string): (q: string)
    ensures !StartsWith(item, QUOTE) && !EndsWith(item, QUOTE) ==> q == QUOTE + item + QUOTE
    ensures StartsWith(item, QUOTE) || EndsWith(item, QUOTE) ==> q == item
  {
    if !StartsWith(item, QUOTE) && !EndsWith(item, QUOTE) then QUOTE + item + QUOTE else item
  }

  function QuoteAll(xs: seq<string>): (qs: seq<string>)
    ensures |qs| == |xs|
    ensures forall i :: 0 <= i < |xs| ==> qs[i] == Quote(xs[i])
  {
    seq(|xs|, i requires 0 <= i < |xs| => Quote(xs[i]))
  }

  /** `add_quotes`: every item quoted, joined with the majority delimiter. */
  function AddQuotes(input: string): (r: Result<string, AppError>)
    ensures r.Err? <==> input == []
    ensures r.Err? ==> r.error == EMPTY_FORMAT_INPUT
  {
    if input == [] then Err(EMPTY_FORMAT_INPUT)
    else Ok(Join(QuoteAll(Items(input)), MajorityDelimiter(input)))
  }

  /** Quoting keeps an item an item. */
  lemma QuoteIsItem(item: string)
    requires IsItem(item)
    ensures IsItem(Quote(item))
    ensures QuotedBothEnds(Quote(item)) <==> Quote(item) != item || QuotedBothEnds(item)
  {
    var q := Quote(item);
    if q != item {
      assert q[0] == '\'' && q[|q| - 1] == '\'';
      assert q[..1] == QUOTE && q[|q| - 1..] == QUOTE;
      assert forall c :: c in q ==> c in item || c == '\'';
    }
  }

  /**
   * `add_quotes` keeps the list: reading its output back gives one quoted
   * item per input item, in order, and the majority delimiter is kept
   * whenever there are two items to show it or it is ",".
   */
  lemma AddQuotesItems(input: string)
    requires input != []
    ensures Items(AddQuotes(input).value) == QuoteAll(Items(input))
    ensures |Items(input)| >= 2 || MajorityDelimiter(input) == "," ==>
      MajorityDelimiter(AddQuotes(input).value) == MajorityDelimiter(input)
  {
    var xs := Items(input);
    var qs := QuoteAll(xs);
    forall i | 0 <= i < |qs| ensures IsItem(qs[i]) {
      QuoteIsItem(xs[i]);
    }
    ItemsOfJoin(qs, MajorityDelimiter(input));
    if |xs| >= 2 || MajorityDelimiter(input) == "," {
      DelimiterOfJoin(qs, MajorityDelimiter(input));
    }
  }

  // ---------------------------------------------------------------------
  // remove_quotes

  /** The per-item step of `remove_quotes` as written: `item[1..item.len()-1]` when both ends are quotes. */
  datatype Unquoted = Stripped(value: string) | SlicePanic

  function UnquoteAsWritten(item: string): (u: Unquoted)
    ensures u.SlicePanic? <==> item == QUOTE
    ensures u.Stripped? && QuotedBothEnds(item) ==> u.value == item[1..|item| - 1]
    ensures !QuotedBothEnds(item) ==> u == Stripped(item)
  {
    if QuotedBothEnds(item) then
      if |item| < 2 then SlicePanic else Stripped(item[1..|item| - 1])
    else Stripped(item)
  }

  /** A panic, or the result `remove_quotes` returns. */
  datatype Outcome = Returned(result: Result<string, AppError>) | Panicked

  /** The items stripped in order, or the panic of the first item that makes the slice fail. */
  function UnquoteAllAsWritten(xs: seq<string>): (r: Option<seq<string>>)
    ensures r.None? <==> exists i :: 0 <= i < |xs| && xs[i] == QUOTE
    ensures r.Some? ==> |r.value| == |xs| && forall i :: 0 <= i < |xs| ==> r.value[i] == UnquoteAsWritten(xs[i]).value
  {
    if xs == [] then Some([])
    else
      var head, tail := UnquoteAsWritten(xs[0]), UnquoteAllAsWritten(xs[1..]);
      if head.SlicePanic? then None
      else if tail.None? then
        var j :| 0 <= j < |xs[1..]| && xs[1..][j] == QUOTE;
        assert xs[j + 1] == QUOTE;
        None
      else
        Some([head.value] + tail.value)
  }

  /** `remove_quotes` as written, panic included. */
  function RemoveQuotesAsWritten(input: string): (o: Outcome)
    ensures o.Panicked? <==> input != [] && exists i :: 0 <= i < |Items(input)| && Items(input)[i] == QUOTE
  {
    if input == [] then Returned(Err(EMPTY_FORMAT_INPUT))
    else
      match UnquoteAllAsWritten(Items(input))
      case None => Panicked
      case Some(us) => Returned(Ok(Join(us, MajorityDelimiter(input))))
  }

  /** The input "'" makes `remove_quotes` panic instead of returning a result. */
  lemma LoneQuotePanics()
    ensures RemoveQuotesAsWritten(QUOTE) == Panicked
  {
    assert IsItem(QUOTE);
    ItemsOfJoin([QUOTE], ",");
    assert Join([QUOTE], ",") == QUOTE;
  }

  /**
   * The per-item step of `remove_quotes` with a length guard: an item of two
   * characters or more with a quote at both ends loses them; anything else,
   * the lone quote included, is kept.
   */
  function Unquote(item: string): (u: string)
    ensures |item| >= 2 && QuotedBothEnds(item) ==> QUOTE + u + QUOTE == item
    ensures |item| < 2 || !QuotedBothEnds(item) ==> u == item
  {
    if |item| >= 2 && QuotedBothEnds(item) then item[1..|item| - 1] else item
  }

  function UnquoteAll(xs: seq<string>): (us: seq<string>)
    ensures |us| == |xs|
    ensures forall i :: 0 <= i < |xs| ==> us[i] == Unquote(xs[i])
  {
    seq(|xs|, i requires 0 <= i < |xs| => Unquote(xs[i]))
  }

  /** `remove_quotes` with the guard: every non-empty input gives a result. */
  function RemoveQuotes(input: string): (r: Result<string, AppError>)
    ensures r.Err? <==> input == []
    ensures r.Err? ==> r.error == EMPTY_FORMAT_INPUT
  {
    if input == [] then Err(EMPTY_FORMAT_INPUT)
    else Ok(Join(UnquoteAll(Items(input)), MajorityDelimiter(input)))
  }

  /** Where the code as written does not panic, it agrees with the guarded version. */
  lemma RemoveQuotesAgrees(input: string)
    requires !RemoveQuotesAsWritten(input).Panicked?
    ensures RemoveQuotesAsWritten(input) == Returned(RemoveQuotes(input))
  {
    if input != [] {
      var xs := Items(input);
      var us := UnquoteAllAsWritten(xs).value;
      assert us == UnquoteAll(xs);
    }
  }

  /** An unquoted item holds no item boundary, so the output has exactly one field per input item. */
  lemma RemoveQuotesFields(input: string)
    requires Items(input) != []
    ensures Split(RemoveQuotes(input).value) == UnquoteAll(Items(input))
    ensures |Items(input)| >= 2 || MajorityDelimiter(input) == "," ==>
      MajorityDelimiter(RemoveQuotes(input).value) == MajorityDelimiter(input)
  {
    var xs := Items(input);
    var us := UnquoteAll(xs);
    forall i | 0 <= i < |us| ensures NoSeparator(us[i]) {
      assert forall c :: c in us[i] ==> c in xs[i];
    }
    var d := MajorityDelimiter(input);
    assert [d[0]] == d;
    SplitJoin(us, d[0]);
    if |xs| >= 2 || d == "," {
      DelimiterOfJoin(us, d);
    }
  }

  /** Removing the quotes that `Quote` added gives the item back. */
  lemma UnquoteQuote(item: string)
    requires item != [] && !QuotedBothEnds(item)
    ensures Unquote(Quote(item)) == item
  {
    var q := Quote(item);
    if q != item {
      assert q[..1] == QUOTE && q[|q| - 1..] == QUOTE;
      assert q[1..|q| - 1] == item;
    }
  }

  /** Unquoting undoes quoting, item by item. */
  lemma UnquoteQuoteAll(xs: seq<string>)
    requires forall i :: 0 <= i < |xs| ==> xs[i] != [] && !QuotedBothEnds(xs[i])
    ensures UnquoteAll(QuoteAll(xs)) == xs
  {
    forall i | 0 <= i < |xs| ensures Unquote(QuoteAll(xs)[i]) == xs[i] {
      UnquoteQuote(xs[i]);
    }
  }

  /** The output of `add_quotes` on a list with items is not empty. */
  lemma AddQuotesNonEmpty(input: string)
    requires Items(input) != []
    ensures AddQuotes(input).Ok? && AddQuotes(input).value != []
  {
    var xs, d := Items(input), MajorityDelimiter(input);
    var qs := QuoteAll(xs);
    QuoteIsItem(xs[0]);
    if |qs| >= 2 {
      assert Join(qs, d) == qs[0] + d + Join(qs[1..], d);
    }
  }

  /**
   * Adding quotes and removing them normalizes the list, as long as no item
   * already has a quote at both ends (such an item is left alone by
   * `add_quotes` and stripped by `remove_quotes`).
   */
  lemma RemoveAddQuotes(input: string)
    requires Items(input) != []
    requires forall i :: 0 <= i < |Items(input)| ==> !QuotedBothEnds(Items(input)[i])
    ensures AddQuotes(input).Ok?
    ensures RemoveQuotes(AddQuotes(input).value) == Ok(Normalize(input))
  {
    var xs, d := Items(input), MajorityDelimiter(input);
    var added := AddQuotes(input).value;
    AddQuotesNonEmpty(input);
    AddQuotesItems(input);
    UnquoteQuoteAll(xs);
    assert RemoveQuotes(added) == Ok(Join(xs, MajorityDelimiter(added)));
    if |xs| < 2 && d == "\n" {
      JoinShort(xs, MajorityDelimiter(added), d);
    }
  }

  /** Quoting and unquoting a one-character item other than the quote. */
  lemma QuoteOneChar(c: char)
    requires c != '\''
    ensures Quote([c]) == ['\'', c, '\'']
    ensures Unquote(['\'', c, '\'']) == [c]
  {
    assert [c][..1] == [c] && QUOTE == ['\''];
    assert !StartsWith([c], QUOTE);
    assert QUOTE + [c] + QUOTE == ['\'', c, '\''];
    assert ['\'', c, '\''][1..2] == [c];
  }

  /** On a joined list of items, `add_quotes` quotes each and keeps the delimiter. */
  lemma AddQuotesOfJoin(xs: seq<string>, d: string)
    requires xs != [] && (d == "\n" || d == ",") && (|xs| >= 2 || d == ",")
    requires forall i :: 0 <= i < |xs| ==> IsItem(xs[i])
    ensures AddQuotes(Join(xs, d)) == Ok(Join(QuoteAll(xs), d))
  {
    if |xs| >= 2 {
      assert Join(xs, d) == xs[0] + d + Join(xs[1..], d);
    }
    ItemsOfJoin(xs, d);
    DelimiterOfJoin(xs, d);
  }

  /** On a joined list of items, `remove_quotes` unquotes each and keeps the delimiter. */
  lemma RemoveQuotesOfJoin(xs: seq<string>, d: string)
    requires xs != [] && (d == "\n" || d == ",") && (|xs| >= 2 || d == ",")
    requires forall i :: 0 <= i < |xs| ==> IsItem(xs[i])
    ensures RemoveQuotes(Join(xs, d)) == Ok(Join(UnquoteAll(xs), d))
  {
    if |xs| >= 2 {
      assert Join(xs, d) == xs[0] + d + Join(xs[1..], d);
    }
    ItemsOfJoin(xs, d);
    DelimiterOfJoin(xs, d);
  }

  /** Three one-character items, none of them the quote, are quoted and unquoted one by one. */
  lemma QuoteThreeChars(a: char, b: char, c: char)
    requires a != '\'' && b != '\'' && c != '\''
    ensures QuoteAll([[a], [b], [c]]) == [['\'', a, '\''], ['\'', b, '\''], ['\'', c, '\'']]
    ensures UnquoteAll([['\'', a, '\''], ['\'', b, '\''], ['\'', c, '\'']]) == [[a], [b], [c]]
  {
    QuoteOneChar(a);
    QuoteOneChar(b);
    QuoteOneChar(c);
  }

  // A helper of the test lemmas: the literal is a parameter fixed by `requires`
  // so that each caller's local stands for it and the solver expands it once.
  lemma QuoteExampleItems(xs: seq<string>)
    requires xs == ["1", "2", "3"]
    ensures QuoteAll(xs) == ["'1'", "'2'", "'3'"]
    ensures UnquoteAll(["'1'", "'2'", "'3'"]) == xs
  {
    QuoteThreeChars('1', '2', '3');
    assert xs == [['1'], ['2'], ['3']];
    assert ["'1'", "'2'", "'3'"] == [['\'', '1', '\''], ['\'', '2', '\''], ['\'', '3', '\'']];
  }

  /** The lists of the quote test, written out. */
  // A helper of the test lemmas: the literal is a parameter fixed by `requires`
  // so that each caller's local stands for it and the solver expands it once.
  lemma QuoteExampleLists(xs: seq<string>, qs: seq<string>)
    requires xs == ["1", "2", "3"] && qs == ["'1'", "'2'", "'3'"]
    ensures Join(xs, ",") == "1,2,3" && Join(qs, ",") == "'1','2','3'"
    ensures forall i :: 0 <= i < 3 ==> IsItem(xs[i]) && IsItem(qs[i])
  {
  }

  /** The add-quotes half of the quote test of `text_processor.rs`. */
  lemma AddQuotesExample()
    ensures AddQuotes("1,2,3") == Ok("'1','2','3'")
  {
    var xs, qs := ["1", "2", "3"], ["'1'", "'2'", "'3'"];
    QuoteExampleLists(xs, qs);
    AddQuotesOfJoin(xs, ",");
    QuoteExampleItems(xs);
  }

  /** The remove-quotes half of the quote test of `text_processor.rs`. */
  lemma RemoveQuotesExample()
    ensures RemoveQuotes("'1','2','3'") == Ok("1,2,3")
  {
    var xs, qs := ["1", "2", "3"], ["'1'", "'2'", "'3'"];
    QuoteExampleLists(xs, qs);
    RemoveQuotesOfJoin(qs, ",");
    QuoteExampleItems(xs);
  }
}

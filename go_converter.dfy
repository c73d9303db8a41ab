/**
 * The single-profile desktop converter written in Go (`main.go`). Its list
 * operations never fail: an item that cannot be converted is passed through
 * as it is. It keeps two paged views, one of the input and one of the
 * output, of 5000 characters a page.
 */
module GoConverter {
  import opened Wrappers
  import opened Strs
  import opened Lists
  import opened Numbers
  import opened Pages
  import TextProcessor
  import Text

  /** Items handled per chunk by the chunked loops. */
  const BATCH_SIZE: nat := 1000
  /** Characters shown per page. */
  const PAGE_SIZE: nat := 5000

  // ---------------------------------------------------------------------
  // The hashids codec

  /**
   * The `go-hashids` instance built with salt "Yout_Salt" and minimum
   * length 12: `EncodeInt64([]int64{n})` (`None` for its error) and
   * `DecodeInt64WithError` (`None` for its error).
   */
  datatype GoHashids = GoHashids(encode: i64 -> Option<string>, decode: string -> Option<seq<i64>>)

  const SALT := "Yout_Salt"
  const MIN_LENGTH: nat := 12

  /** A token of the default alphabet: ASCII letters and digits only. */
  predicate Alphanumeric(t: string) {
    forall i :: 0 <= i < |t| ==> IsAsciiAlphanumeric(t[i])
  }

  /**
   * What the library promises for a non-negative value: an alphanumeric
   * token of at least 12 characters that decodes to that value alone.
   */
  ghost predicate Reversible(h: GoHashids) {
    forall n: i64 {:trigger h.encode(n)} :: n >= 0 ==>
      && h.encode(n).Some?
      && |h.encode(n).value| >= MIN_LENGTH
      && Alphanumeric(h.encode(n).value)
      && h.decode(h.encode(n).value) == Some([n])
  }

  /** The library refuses to encode a negative value. */
  ghost predicate RejectsNegatives(h: GoHashids) {
    forall n: i64 {:trigger h.encode(n)} :: n < 0 ==> h.encode(n).None?
  }

  /** `encrypt`: the token of the parsed value, or the text itself when parsing or encoding fails. */
  function Encrypt(h: GoHashids, text: string): (r: string)
    ensures ParseInt64(text).None? ==> r == text
    ensures ParseInt64(text).Some? && h.encode(ParseInt64(text).value).Some? ==>
      r == h.encode(ParseInt64(text).value).value
    ensures ParseInt64(text).Some? && h.encode(ParseInt64(text).value).None? ==> r == text
  {
    match ParseInt64(text)
    case None => text
    case Some(n) =>
      match h.encode(n)
      case None => text
      case Some(token) => token
  }

  /** `decrypt`: the first decoded value in decimal, or the text itself when decoding gives nothing. */
  function Decrypt(h: GoHashids, text: string): (r: string)
    ensures h.decode(text).None? || h.decode(text).value == [] ==> r == text
    ensures h.decode(text).Some? && h.decode(text).value != [] ==> r == FormatInt(h.decode(text).value[0])
  {
    match h.decode(text)
    case None => text
    case Some(ns) => if ns == [] then text else FormatInt(ns[0])
  }

  /** A non-negative value written in decimal comes back from `decrypt(encrypt(..))`. */
  lemma RoundTrip(h: GoHashids, n: i64)
    requires Reversible(h) && n >= 0
    ensures Decrypt(h, Encrypt(h, FormatInt(n))) == FormatInt(n)
  {
    ParseInt64Decimal(n);
    assert Encrypt(h, FormatInt(n)) == h.encode(n).value;
  }

  /** A negative value is written back unchanged, since the library refuses it. */
  lemma NegativePassesThrough(h: GoHashids, n: i64)
    requires RejectsNegatives(h) && n < 0
    ensures Encrypt(h, FormatInt(n)) == FormatInt(n)
  {
    ParseInt64Decimal(n);
  }

  // ---------------------------------------------------------------------
  // List operations
  //
  // The Go list loops split with `strings.FieldsFunc` on '\n' and ',',
  // which drops empty pieces but keeps blank ones, and trim each piece
  // before converting it.

  /** `f` applied to every field once trimmed, in order. */
  function EachTrimmed(f: string -> string, fields: seq<string>): (ys: seq<string>)
    ensures |ys| == |fields|
    ensures forall i :: 0 <= i < |fields| ==> ys[i] == f(Trim(fields[i]))
  {
    seq(|fields|, i requires 0 <= i < |fields| => f(Trim(fields[i])))
  }

  lemma EachTrimmedSnoc(f: string -> string, fields: seq<string>, i: nat)
    requires i < |fields|
    ensures EachTrimmed(f, fields[..i + 1]) == EachTrimmed(f, fields[..i]) + [f(Trim(fields[i]))]
  {
  }

  /**
   * The builder loop of `encryptBatch`, `decryptBatch`, `convertFormat` and
   * `removeQuotes`: the converted fields separated by `d`.
   */
  method JoinTrimmed(f: string -> string, fields: seq<string>, d: string) returns (out: string)
    ensures out == Join(EachTrimmed(f, fields), d)
  {
    out := [];
    var i := 0;
    while i < |fields|
      invariant 0 <= i <= |fields|
      invariant out == Join(EachTrimmed(f, fields[..i]), d)
    {
      var prev := out;
      if i > 0 {
        out := out + d;
      }
      var item := Trim(fields[i]);
      out := out + f(item);
      JoinStep(f, fields, i, d, prev, out);
      i := i + 1;
    }
    assert fields[..i] == fields;
  }

  /** One turn of a builder loop: the delimiter (except before the first field), then the converted field. */
  lemma JoinStep(f: string -> string, fields: seq<string>, i: nat, d: string, prev: string, out: string)
    requires i < |fields|
    requires prev == Join(EachTrimmed(f, fields[..i]), d)
    requires out == (if i > 0 then prev + d else prev) + f(Trim(fields[i]))
    ensures out == Join(EachTrimmed(f, fields[..i + 1]), d)
  {
    EachTrimmedSnoc(f, fields, i);
    JoinSnoc(EachTrimmed(f, fields[..i]), f(Trim(fields[i])), d);
  }

  /** Converted fields free of separators can be read back one by one. */
  lemma SplitJoinTrimmed(f: string -> string, fields: seq<string>, d: string)
    requires fields != [] && (d == "\n" || d == ",")
    requires forall i :: 0 <= i < |fields| ==> NoSeparator(f(Trim(fields[i])))
    ensures Split(Join(EachTrimmed(f, fields), d)) == EachTrimmed(f, fields)
  {
    assert [d[0]] == d;
    SplitJoin(EachTrimmed(f, fields), d[0]);
  }

  /** Trimming a field keeps it free of separators. */
  lemma TrimmedField(field: string)
    requires NoSeparator(field)
    ensures NoSeparator(Trim(field))
  {
  }

  function EncryptWith(h: GoHashids): string -> string {
    t => Encrypt(h, t)
  }

  function DecryptWith(h: GoHashids): string -> string {
    t => Decrypt(h, t)
  }

  /** What `encryptBatch` returns: every field encrypted, joined with the majority delimiter. */
  function EncryptedList(h: GoHashids, input: string): (r: string)
    ensures Fields(input) == [] ==> r == []
  {
    Join(EachTrimmed(EncryptWith(h), Fields(input)), MajorityDelimiter(input))
  }

  /** What `decryptBatch` returns: every field decrypted, joined with the majority delimiter. */
  function DecryptedList(h: GoHashids, input: string): (r: string)
    ensures Fields(input) == [] ==> r == []
  {
    Join(EachTrimmed(DecryptWith(h), Fields(input)), MajorityDelimiter(input))
  }

  /**
   * `encryptBatch` yields exactly one output field per input field, blank
   * ones included, each the encryption of the trimmed field.
   */
  lemma EncryptedFields(h: GoHashids, input: string)
    requires Reversible(h) && RejectsNegatives(h)
    requires Fields(input) != []
    ensures Split(EncryptedList(h, input)) == EachTrimmed(EncryptWith(h), Fields(input))
  {
    var fields := Fields(input);
    forall i | 0 <= i < |fields| ensures NoSeparator(EncryptWith(h)(Trim(fields[i]))) {
      var t := Trim(fields[i]);
      TrimmedField(fields[i]);
      if Encrypt(h, t) != t {
        var n := ParseInt64(t).value;
        AlphanumericNoSeparator(h.encode(n).value);
      }
    }
    SplitJoinTrimmed(EncryptWith(h), fields, MajorityDelimiter(input));
  }

  lemma AlphanumericNoSeparator(t: string)
    requires Alphanumeric(t)
    ensures NoSeparator(t)
  {
    forall i | 0 <= i < |t| ensures t[i] != '\n' && t[i] != ',' {
      assert IsAsciiAlphanumeric(t[i]);
    }
  }

  /**
   * `decryptBatch` yields exactly one output field per input field, each
   * the decryption of the trimmed field.
   */
  lemma DecryptedFields(h: GoHashids, input: string)
    requires Fields(input) != []
    ensures Split(DecryptedList(h, input)) == EachTrimmed(DecryptWith(h), Fields(input))
  {
    var fields := Fields(input);
    forall i | 0 <= i < |fields| ensures NoSeparator(DecryptWith(h)(Trim(fields[i]))) {
      var t := Trim(fields[i]);
      TrimmedField(fields[i]);
      if Decrypt(h, t) != t {
        FormatIntNoSeparator(h.decode(t).value[0]);
      }
    }
    SplitJoinTrimmed(DecryptWith(h), fields, MajorityDelimiter(input));
  }

  lemma FormatIntNoSeparator(n: i64)
    ensures NoSeparator(FormatInt(n))
  {
    var s := FormatInt(n);
    var digits := Decimal(if n < 0 then -(n as int) else n as int);
    assert forall i :: 0 <= i < |digits| ==> IsAsciiDigit(digits[i]);
    forall i | 0 <= i < |s| ensures s[i] != '\n' && s[i] != ',' {
      if n < 0 && i > 0 {
        assert s[i] == digits[i - 1];
      }
    }
  }

  /** The identity, for `convertFormat`, which only trims. */
  function Same(): string -> string {
    t => t
  }

  /** What `convertFormat` returns: the trimmed fields joined with the minority delimiter. */
  function ConvertedList(input: string): (r: string)
    ensures Fields(input) == [] ==> r == []
  {
    Join(EachTrimmed(Same(), Fields(input)), TextProcessor.OppositeDelimiter(input))
  }

  /** Fields that are items come back unchanged from splitting and trimming their join. */
  lemma FieldsOfJoin(xs: seq<string>, d: string)
    requires d == "\n" || d == ","
    requires forall i :: 0 <= i < |xs| ==> IsItem(xs[i])
    ensures Fields(Join(xs, d)) == xs
    ensures EachTrimmed(Same(), Fields(Join(xs, d))) == xs
  {
    if xs == [] {
      assert Split([]) == [""];
    } else {
      assert [d[0]] == d;
      SplitJoin(xs, d[0]);
    }
  }

  /**
   * Converting twice restores the list with its own delimiter, when it has
   * at least two fields and none of them is blank.
   */
  lemma ConvertTwice(input: string)
    requires |Fields(input)| >= 2
    requires forall i :: 0 <= i < |Fields(input)| ==> Trim(Fields(input)[i]) != []
    ensures ConvertedList(ConvertedList(input)) == Join(EachTrimmed(Same(), Fields(input)), MajorityDelimiter(input))
  {
    var ys := EachTrimmed(Same(), Fields(input));
    var d := TextProcessor.OppositeDelimiter(input);
    forall i | 0 <= i < |ys| ensures IsItem(ys[i]) {
      TrimmedField(Fields(input)[i]);
    }
    FieldsOfJoin(ys, d);
    DelimiterOfJoin(ys, d);
  }

  /** `removeQuotes` and the "add" branch join with '\n' when the text holds any. */
  function ContainsDelimiter(text: string): (d: string)
    ensures d == "\n" <==> '\n' in text
    ensures d == "\n" || d == ","
  {
    if '\n' in text then "\n" else ","
  }

  /** The per-item step of the "add" branch: wrap unless both ends are already quotes. */
  function WrapQuotes(item: string): (q: string)
    ensures TextProcessor.QuotedBothEnds(q)
    ensures TextProcessor.QuotedBothEnds(item) ==> q == item
    ensures !TextProcessor.QuotedBothEnds(item) ==> q == TextProcessor.QUOTE + item + TextProcessor.QUOTE
  {
    if TextProcessor.QuotedBothEnds(item) then item
    else
      var q := TextProcessor.QUOTE + item + TextProcessor.QUOTE;
      assert q[..1] == TextProcessor.QUOTE && q[|q| - 1..] == TextProcessor.QUOTE;
      q
  }

  function WrapWith(): string -> string {
    WrapQuotes
  }

  /** What the "add" branch of `addRemoveQuotes` produces. */
  function QuotedList(text: string): (r: string)
    ensures Fields(text) == [] ==> r == []
  {
    Join(EachTrimmed(WrapWith(), Fields(text)), ContainsDelimiter(text))
  }

  /**
   * `removeQuotes` as written: `None` when some trimmed field is the lone
   * quote "'", on which `item[1 : len(item)-1]` panics.
   */
  function UnquotedListAsWritten(text: string): (r: Option<string>)
    ensures r.None? <==> exists i :: 0 <= i < |Fields(text)| && Trim(Fields(text)[i]) == TextProcessor.QUOTE
  {
    var items := EachTrimmed(Same(), Fields(text));
    match TextProcessor.UnquoteAllAsWritten(items)
    case None => None
    case Some(us) => Some(Join(us, ContainsDelimiter(text)))
  }

  /** The input "'" makes `removeQuotes` panic. */
  lemma LoneQuoteCrashes(text: string)
    requires text == TextProcessor.QUOTE
    ensures UnquotedListAsWritten(text).None?
  {
    assert NoSeparator(text);
    SplitNoSeparator(text);
    assert Trimmed(text);
    assert Trim(Fields(text)[0]) == TextProcessor.QUOTE;
  }

  function UnquoteWith(): string -> string {
    TextProcessor.Unquote
  }

  /** `removeQuotes` with the length guard: the outer quotes of every trimmed field of two characters or more go. */
  function UnquotedList(text: string): (r: string)
    ensures Fields(text) == [] ==> r == []
  {
    Join(EachTrimmed(UnquoteWith(), Fields(text)), ContainsDelimiter(text))
  }

  /** Where the code as written does not panic, it agrees with the guarded version. */
  lemma UnquotedListAgrees(text: string)
    requires UnquotedListAsWritten(text).Some?
    ensures UnquotedListAsWritten(text) == Some(UnquotedList(text))
  {
    var items := EachTrimmed(Same(), Fields(text));
    var us := TextProcessor.UnquoteAllAsWritten(items).value;
    forall i | 0 <= i < |us| ensures us[i] == UnquoteWith()(Trim(Fields(text)[i])) {
      assert items[i] != TextProcessor.QUOTE;
    }
    assert us == EachTrimmed(UnquoteWith(), Fields(text));
  }

  /** A wrapped item has its quotes removed again. */
  lemma UnwrapWrap(item: string)
    requires !TextProcessor.QuotedBothEnds(item)
    ensures TextProcessor.Unquote(WrapQuotes(item)) == item
  {
    var q := WrapQuotes(item);
    assert q[1..|q| - 1] == item;
  }

  /** The wrapped form of a trimmed field: quotes at both ends, no separator. */
  lemma WrappedIsItem(field: string)
    requires NoSeparator(field) && !TextProcessor.QuotedBothEnds(Trim(field))
    ensures IsItem(WrapQuotes(Trim(field)))
  {
    var t := Trim(field);
    TrimmedField(field);
    var q := WrapQuotes(t);
    assert q[0] == '\'' && q[|q| - 1] == '\'';
    assert forall c :: c in q ==> c in t || c == '\'';
  }

  /** Every wrapped field is an item. */
  lemma WrappedItems(fields: seq<string>)
    requires forall i :: 0 <= i < |fields| ==> NoSeparator(fields[i]) && !TextProcessor.QuotedBothEnds(Trim(fields[i]))
    ensures forall i :: 0 <= i < |fields| ==> IsItem(EachTrimmed(WrapWith(), fields)[i])
  {
    forall i | 0 <= i < |fields| ensures IsItem(EachTrimmed(WrapWith(), fields)[i]) {
      WrappedIsItem(fields[i]);
    }
  }

  /** Unwrapping every wrapped field gives back the trimmed fields. */
  lemma UnwrapAll(fields: seq<string>)
    requires forall i :: 0 <= i < |fields| ==> NoSeparator(fields[i]) && !TextProcessor.QuotedBothEnds(Trim(fields[i]))
    ensures EachTrimmed(UnquoteWith(), EachTrimmed(WrapWith(), fields)) == EachTrimmed(Same(), fields)
  {
    var qs := EachTrimmed(WrapWith(), fields);
    WrappedItems(fields);
    forall i | 0 <= i < |fields| ensures UnquoteWith()(Trim(qs[i])) == Trim(fields[i]) {
      assert Trim(qs[i]) == qs[i];
      UnwrapWrap(Trim(fields[i]));
    }
  }

  /**
   * Removing quotes after adding them gives back the trimmed fields, blank
   * ones included, when no field was quoted at both ends to begin with.
   */
  lemma RemoveAddQuotes(text: string)
    requires Fields(text) != []
    requires forall i :: 0 <= i < |Fields(text)| ==> !TextProcessor.QuotedBothEnds(Trim(Fields(text)[i]))
    ensures UnquotedList(QuotedList(text)) == Join(EachTrimmed(Same(), Fields(text)), ContainsDelimiter(text))
  {
    var fields := Fields(text);
    var qs := EachTrimmed(WrapWith(), fields);
    var d := ContainsDelimiter(text);
    WrappedItems(fields);
    FieldsOfJoin(qs, d);
    UnwrapAll(fields);
    var back := EachTrimmed(Same(), fields);
    if |qs| == 1 {
      JoinShort(back, ContainsDelimiter(Join(qs, d)), d);
    } else {
      QuotedDelimiter(qs, d);
    }
  }

  /** A list of two items or more shows its delimiter. */
  lemma QuotedDelimiter(qs: seq<string>, d: string)
    requires |qs| >= 2 && (d == "\n" || d == ",")
    requires forall i :: 0 <= i < |qs| ==> IsItem(qs[i])
    ensures ContainsDelimiter(Join(qs, d)) == d
  {
    if d == "\n" {
      assert Join(qs, d) == qs[0] + d + Join(qs[1..], d);
      assert Join(qs, d)[|qs[0]|] == '\n';
    } else {
      NoNewlineInJoin(qs, d);
    }
  }

  lemma {:induction false} NoNewlineInJoin(qs: seq<string>, d: string)
    requires d == ","
    requires forall i :: 0 <= i < |qs| ==> IsItem(qs[i])
    ensures '\n' !in Join(qs, d)
  {
    if |qs| > 1 {
      NoNewlineInJoin(qs[1..], d);
    }
  }

  /** The body of the "add" loop: quotes around the item unless it starts and ends with one. */
  method WrapItem(item: string) returns (q: string)
    ensures q == WrapWith()(item)
  {
    if !(StartsWith(item, TextProcessor.QUOTE) && EndsWith(item, TextProcessor.QUOTE)) {
      q := TextProcessor.QUOTE + item + TextProcessor.QUOTE;
    } else {
      q := item;
    }
  }

  /**
   * The chunked loop of the "add" branch: items are taken `BATCH_SIZE` at a
   * time, and the chunking does not change the result.
   */
  method AddQuotesChunked(text: string) returns (out: string)
    ensures out == QuotedList(text)
  {
    var items := Fields(text);
    var d := if '\n' in text then "\n" else ",";
    out := [];
    var i := 0;
    while i < |items|
      invariant 0 <= i <= |items|
      invariant out == Join(EachTrimmed(WrapWith(), items[..i]), d)
    {
      var end := Min(i + BATCH_SIZE, |items|);
      var j := i;
      while j < end
        invariant i <= j <= end
        invariant out == Join(EachTrimmed(WrapWith(), items[..j]), d)
      {
        var prev := out;
        if j > 0 {
          out := out + d;
        }
        var item := Trim(items[j]);
        var wrapped := WrapItem(item);
        out := out + wrapped;
        JoinStep(WrapWith(), items, j, d, prev, out);
        j := j + 1;
      }
      i := end;
    }
    assert items[..i] == items;
  }

  /**
   * The chunked loop of `replaceCommas`: every '，' becomes ',', all else is
   * kept, whatever the chunk boundaries.
   */
  method ReplaceCommasChunked(text: string) returns (out: string)
    ensures out == ReplaceAll(text, '，', ',')
  {
    out := [];
    var i := 0;
    while i < |text|
      invariant 0 <= i <= |text|
      invariant |out| == i
      invariant forall k :: 0 <= k < i ==> out[k] == if text[k] == '，' then ',' else text[k]
    {
      var end := Min(i + BATCH_SIZE, |text|);
      var j := i;
      while j < end
        invariant i <= j <= end
        invariant |out| == j
        invariant forall k :: 0 <= k < j ==> out[k] == if text[k] == '，' then ',' else text[k]
      {
        if text[j] == '，' {
          out := out + [','];
        } else {
          out := out + [text[j]];
        }
        j := j + 1;
      }
      i := end;
    }
  }

  // ---------------------------------------------------------------------
  // Pages

  /**
   * `runes[(p-1)*pageSize : min(p*pageSize, len)]`: page `p` of the text.
   * Go allows the slice only when the page starts within the text.
   */
  function PageOf(text: string, p: int): (page: string)
    requires 1 <= p && (p - 1) * PAGE_SIZE <= |text|
    ensures |page| == Min(PAGE_SIZE, |text| - (p - 1) * PAGE_SIZE)
    ensures text[..(p - 1) * PAGE_SIZE] + page <= text
  {
    var start := (p - 1) * PAGE_SIZE;
    var end := Min(p * PAGE_SIZE, |text|);
    assert text[..start] + text[start..end] == text[..end];
    text[start..end]
  }

  /** Within range, the Go page is the page `getPageContent` gives. */
  lemma PageOfAgrees(text: string, p: int)
    requires 1 <= p && (p - 1) * PAGE_SIZE <= |text|
    ensures PageOf(text, p) == Text.GetPageContent(text, p)
  {
  }

  /** `fmt.Sprintf("第 %d/%d 页", page, total)`. */
  function PageLabel(page: nat, total: nat): (shown: string)
    ensures StartsWith(shown, "第 ") && EndsWith(shown, " 页")
  {
    var shown := "第 " + Decimal(page) + "/" + Decimal(total) + " 页";
    assert shown[..2] == "第 ";
    assert shown[|shown| - 2..] == " 页";
    shown
  }

  /** The entry whose content `addRemoveQuotes` works on. */
  datatype Box = InputBox | OutputBox

  /**
   * `converterApp`: the two entries and their page labels, the full input
   * and output texts, and the page state of each view. The widgets are
   * modelled by the text they hold.
   */
  class ConverterApp {
    const hashids: GoHashids
    var inputBox: string
    var outputBox: string
    var inputPageLabel: string
    var pageInfoLabel: string
    var currentPage: int
    var totalPages: int
    var fullOutput: string
    var fullInput: string
    var inputCurrentPage: int
    var inputTotalPages: int

    /**
     * What every operation keeps: each view's page count matches its text,
     * and a non-empty text is on one of its pages.
     */
    predicate Valid()
      reads this
    {
      && 1 <= currentPage && 1 <= inputCurrentPage
      && totalPages == CeilDiv(|fullOutput|, PAGE_SIZE)
      && inputTotalPages == CeilDiv(|fullInput|, PAGE_SIZE)
      && (fullOutput != [] ==> currentPage <= totalPages)
      && (fullInput != [] ==> inputCurrentPage <= inputTotalPages)
    }

    /** `newConverterApp`: empty entries, both views on page 1 of 0 pages. */
    constructor (h: GoHashids)
      ensures hashids == h
      ensures inputBox == [] && outputBox == [] && inputPageLabel == [] && pageInfoLabel == []
      ensures fullInput == [] && fullOutput == []
      ensures currentPage == 1 && inputCurrentPage == 1 && totalPages == 0 && inputTotalPages == 0
      ensures Valid()
    {
      hashids := h;
      inputBox, outputBox, inputPageLabel, pageInfoLabel := [], [], [], [];
      fullInput, fullOutput := [], [];
      currentPage, inputCurrentPage := 1, 1;
      totalPages, inputTotalPages := 0, 0;
    }

    /** The text the input-side operations read: the pasted text, or the entry when nothing was pasted. */
    function InputText(): (t: string)
      reads this
      ensures fullInput != [] ==> t == fullInput
      ensures t == [] <==> fullInput == [] && inputBox == []
    {
      if fullInput == [] then inputBox else fullInput
    }

    /** `encryptBatch`. */
    method EncryptBatch(input: string) returns (out: string)
      ensures out == EncryptedList(hashids, input)
    {
      var d := if Count(input, '\n') > Count(input, ',') then "\n" else ",";
      out := JoinTrimmed(EncryptWith(hashids), Fields(input), d);
    }

    /** `decryptBatch`. */
    method DecryptBatch(input: string) returns (out: string)
      ensures out == DecryptedList(hashids, input)
    {
      var d := if Count(input, '\n') > Count(input, ',') then "\n" else ",";
      out := JoinTrimmed(DecryptWith(hashids), Fields(input), d);
    }

    /** `showCurrentPage`: the output entry shows the current page, with a label when there are several. */
    method ShowCurrentPage()
      requires fullOutput != [] ==> 1 <= currentPage && (currentPage - 1) * PAGE_SIZE <= |fullOutput|
      modifies this`outputBox, this`pageInfoLabel
      ensures fullOutput == [] ==> outputBox == [] && pageInfoLabel == []
      ensures fullOutput != [] ==> outputBox == PageOf(fullOutput, currentPage)
      ensures fullOutput != [] && totalPages > 1 ==> pageInfoLabel == PageLabel(currentPage, totalPages)
      ensures fullOutput != [] && totalPages <= 1 ==> pageInfoLabel == []
    {
      if fullOutput == [] {
        outputBox := [];
        pageInfoLabel := [];
        return;
      }
      outputBox := PageOf(fullOutput, currentPage);
      if totalPages > 1 {
        pageInfoLabel := PageLabel(currentPage, totalPages);
      } else {
        pageInfoLabel := [];
      }
    }

    /** `showInputPage`: the same for the input entry. */
    method ShowInputPage()
      requires fullInput != [] ==> 1 <= inputCurrentPage && (inputCurrentPage - 1) * PAGE_SIZE <= |fullInput|
      modifies this`inputBox, this`inputPageLabel
      ensures fullInput == [] ==> inputBox == [] && inputPageLabel == []
      ensures fullInput != [] ==> inputBox == PageOf(fullInput, inputCurrentPage)
      ensures fullInput != [] && inputTotalPages > 1 ==> inputPageLabel == PageLabel(inputCurrentPage, inputTotalPages)
      ensures fullInput != [] && inputTotalPages <= 1 ==> inputPageLabel == []
    {
      if fullInput == [] {
        inputBox := [];
        inputPageLabel := [];
        return;
      }
      inputBox := PageOf(fullInput, inputCurrentPage);
      if inputTotalPages > 1 {
        inputPageLabel := PageLabel(inputCurrentPage, inputTotalPages);
      } else {
        inputPageLabel := [];
      }
    }

    /** `goToPage`: a page outside 1 to `totalPages` is ignored; any other is shown. */
    method GoToPage(page: int)
      requires Valid()
      modifies this`currentPage, this`outputBox, this`pageInfoLabel
      ensures Valid()
      ensures page < 1 || page > totalPages ==> unchanged(this)
      ensures 1 <= page <= totalPages ==> currentPage == page && outputBox == PageOf(fullOutput, page)
      ensures 1 <= page <= totalPages ==>
        pageInfoLabel == (if totalPages > 1 then PageLabel(page, totalPages) else [])
    {
      if page < 1 || page > totalPages {
        return;
      }
      PageStartInside(|fullOutput|, PAGE_SIZE, page);
      currentPage := page;
      ShowCurrentPage();
    }

    /** `goToInputPage`: the same for the input view. */
    method GoToInputPage(page: int)
      requires Valid()
      modifies this`inputCurrentPage, this`inputBox, this`inputPageLabel
      ensures Valid()
      ensures page < 1 || page > inputTotalPages ==> unchanged(this)
      ensures 1 <= page <= inputTotalPages ==> inputCurrentPage == page && inputBox == PageOf(fullInput, page)
      ensures 1 <= page <= inputTotalPages ==>
        inputPageLabel == (if inputTotalPages > 1 then PageLabel(page, inputTotalPages) else [])
    {
      if page < 1 || page > inputTotalPages {
        return;
      }
      PageStartInside(|fullInput|, PAGE_SIZE, page);
      inputCurrentPage := page;
      ShowInputPage();
    }

    /**
     * The output view after `showCurrentPage` on page 1: the first page of
     * the output (nothing for no output), and the page label only when there
     * is more than one page.
     */
    predicate OutputOnFirstPage()
      reads this
    {
      && currentPage == 1
      && (fullOutput == [] ==> outputBox == [])
      && (fullOutput != [] ==> outputBox == PageOf(fullOutput, 1))
      && pageInfoLabel == (if fullOutput != [] && totalPages > 1 then PageLabel(1, totalPages) else [])
    }

    /** The input view after `showInputPage` on page 1. */
    predicate InputOnFirstPage()
      reads this
    {
      && inputCurrentPage == 1
      && (fullInput == [] ==> inputBox == [])
      && (fullInput != [] ==> inputBox == PageOf(fullInput, 1))
      && inputPageLabel == (if fullInput != [] && inputTotalPages > 1 then PageLabel(1, inputTotalPages) else [])
    }

    /** The steps after each output-producing action: store the result and show its first page. */
    method PublishOutput(result: string)
      requires Valid()
      modifies this`fullOutput, this`currentPage, this`totalPages, this`outputBox, this`pageInfoLabel
      ensures Valid()
      ensures fullOutput == result && totalPages == CeilDiv(|result|, PAGE_SIZE)
      ensures OutputOnFirstPage()
    {
      fullOutput := result;
      currentPage := 1;
      totalPages := CeilDiv(|result|, PAGE_SIZE);
      ShowCurrentPage();
    }

    /** The steps after each input-rewriting action: store the result and show its first page. */
    method PublishInput(result: string)
      requires Valid()
      modifies this`fullInput, this`inputCurrentPage, this`inputTotalPages, this`inputBox, this`inputPageLabel
      ensures Valid()
      ensures fullInput == result && inputTotalPages == CeilDiv(|result|, PAGE_SIZE)
      ensures InputOnFirstPage()
    {
      fullInput := result;
      inputCurrentPage := 1;
      inputTotalPages := CeilDiv(|result|, PAGE_SIZE);
      ShowInputPage();
    }

    /** The encrypt button: encrypt the input text into the output view. */
    method EncryptInput()
      requires Valid()
      modifies this`fullOutput, this`currentPage, this`totalPages, this`outputBox, this`pageInfoLabel
      ensures Valid() && OutputOnFirstPage()
      ensures fullOutput == EncryptedList(hashids, old(InputText()))
    {
      var out := EncryptBatch(InputText());
      PublishOutput(out);
    }

    /** The decrypt button: decrypt the input text into the output view. */
    method DecryptInput()
      requires Valid()
      modifies this`fullOutput, this`currentPage, this`totalPages, this`outputBox, this`pageInfoLabel
      ensures Valid() && OutputOnFirstPage()
      ensures fullOutput == DecryptedList(hashids, old(InputText()))
    {
      var out := DecryptBatch(InputText());
      PublishOutput(out);
    }

    /** `updateOutput`, the convert button: `convertFormat` of the input text into the output view. */
    method UpdateOutput()
      requires Valid()
      modifies this`fullOutput, this`currentPage, this`totalPages, this`outputBox, this`pageInfoLabel
      ensures Valid() && OutputOnFirstPage()
      ensures fullOutput == ConvertedList(old(InputText()))
    {
      var out := ConvertFormat(InputText());
      PublishOutput(out);
    }

    /** `replaceCommas`: the input text with every '，' made ',', back into the input view. */
    method ReplaceCommas()
      requires Valid()
      modifies this`fullInput, this`inputCurrentPage, this`inputTotalPages, this`inputBox, this`inputPageLabel
      ensures Valid() && InputOnFirstPage()
      ensures fullInput == ReplaceAll(old(InputText()), '，', ',')
    {
      var out := ReplaceCommasChunked(InputText());
      PublishInput(out);
    }

    /**
     * `addRemoveQuotes`: quotes are added to or removed from the text of the
     * chosen view (for the input, the input text); an empty text is left
     * alone. The result goes back into the same view.
     */
    method AddRemoveQuotes(box: Box, add: bool)
      requires Valid()
      modifies this
      ensures Valid()
      ensures var text := if box == OutputBox then old(fullOutput) else old(InputText());
        && (text == [] ==> unchanged(this))
        && (text != [] && box == OutputBox ==>
              && fullOutput == (if add then QuotedList(text) else UnquotedList(text))
              && OutputOnFirstPage()
              && fullInput == old(fullInput) && inputBox == old(inputBox)
              && inputCurrentPage == old(inputCurrentPage) && inputTotalPages == old(inputTotalPages)
              && inputPageLabel == old(inputPageLabel))
        && (text != [] && box == InputBox ==>
              && fullInput == (if add then QuotedList(text) else UnquotedList(text))
              && InputOnFirstPage()
              && fullOutput == old(fullOutput) && outputBox == old(outputBox)
              && currentPage == old(currentPage) && totalPages == old(totalPages)
              && pageInfoLabel == old(pageInfoLabel))
    {
      var text := if box == OutputBox then fullOutput else InputText();
      if text == [] {
        return;
      }
      var result;
      if add {
        result := AddQuotesChunked(text);
      } else {
        result := RemoveQuotes(text);
      }
      if box == OutputBox {
        PublishOutput(result);
      } else {
        PublishInput(result);
      }
    }
  }

  /** `convertFormat`. */
  method ConvertFormat(input: string) returns (out: string)
    ensures out == ConvertedList(input)
  {
    var usesNewlines := Count(input, '\n') > Count(input, ',');
    var d := if !usesNewlines then "\n" else ",";
    out := JoinTrimmed(Same(), Fields(input), d);
  }

  /** `removeQuotes`, with the guard that keeps a lone "'" as it is. */
  method RemoveQuotes(text: string) returns (out: string)
    ensures out == UnquotedList(text)
  {
    var d := if '\n' in text then "\n" else ",";
    out := JoinTrimmed(UnquoteWith(), Fields(text), d);
  }
}

/**
 * The command layer of `commands.rs`: profile names, the prefix flag, and the
 * batch encrypt and decrypt commands that apply the codec to every item of a
 * delimited list, stopping at the first failure.
 */
module Commands {
  import opened Wrappers
  import opened Strs
  import opened Lists
  import opened Numbers
  import opened Errors
  import opened Crypto
  import Oss
  import TextProcessor

  // ---------------------------------------------------------------------
  // Profile names

  const GENERAL_NAME := "通用"
  const HUAWEI_NAME := "华为"
  const INVALID_CONFIG_NAME := "无效的配置名称，必须是 '通用' 或 '华为'"

  /** The name `get_crypto_config` reports for a profile; `set_crypto_config` maps it back. */
  function ProfileName(config: CryptoConfig): (n: string)
    ensures n == GENERAL_NAME || n == HUAWEI_NAME
    ensures ProfileFromName(n) == Some(config)
  {
    assert GENERAL_NAME[0] != HUAWEI_NAME[0];
    match config
    case General => GENERAL_NAME
    case Huawei => HUAWEI_NAME
  }

  /** The profile `set_crypto_config` selects for a name: exactly two names are known. */
  function ProfileFromName(name: string): (r: Option<CryptoConfig>)
    ensures r.Some? <==> name == GENERAL_NAME || name == HUAWEI_NAME
  {
    if name == GENERAL_NAME then Some(General)
    else if name == HUAWEI_NAME then Some(Huawei)
    else None
  }

  /** Naming a profile and reading the name back are inverse. */
  lemma ProfileNameRoundTrip(config: CryptoConfig, name: string)
    ensures ProfileFromName(ProfileName(config)) == Some(config)
    ensures ProfileFromName(name) == Some(config) ==> ProfileName(config) == name
  {
    assert GENERAL_NAME != HUAWEI_NAME by { assert GENERAL_NAME[0] != HUAWEI_NAME[0]; }
  }

  /** `get_crypto_config`: the name of the current profile. */
  method GetCryptoConfig(state: CryptoState) returns (r: Result<string, string>)
    ensures r.Ok? && ProfileFromName(r.value) == Some(state.config)
  {
    var config := state.GetCurrentConfig();
    ProfileNameRoundTrip(config, "");
    r := Ok(ProfileName(config));
  }

  /**
   * `set_crypto_config`: a known name replaces the profile; any other name
   * is refused and the state is left as it was.
   */
  method SetCryptoConfig(state: CryptoState, name: string) returns (r: Result<(), string>)
    modifies state
    ensures ProfileFromName(name).Some? ==>
      r == Ok(()) && state.config == ProfileFromName(name).value && state.useHuaweiPrefix == old(state.useHuaweiPrefix)
    ensures ProfileFromName(name).None? ==> r == Err(INVALID_CONFIG_NAME) && unchanged(state)
  {
    match ProfileFromName(name) {
      case None =>
        return Err(INVALID_CONFIG_NAME);
      case Some(config) =>
        state.SetConfig(config);
        r := Ok(());
    }
  }

  /** `get_huawei_prefix_config`. */
  method GetHuaweiPrefixConfig(state: CryptoState) returns (r: Result<bool, string>)
    ensures r == Ok(state.useHuaweiPrefix)
  {
    var b := state.UseHuaweiPrefix();
    r := Ok(b);
  }

  /** `set_huawei_prefix_config`: passes the flag through and always succeeds. */
  method SetHuaweiPrefixConfig(state: CryptoState, usePrefix: bool) returns (r: Result<(), string>)
    modifies state
    ensures r == Ok(()) && state.useHuaweiPrefix == usePrefix && state.config == old(state.config)
  {
    state.SetUseHuaweiPrefix(usePrefix);
    r := Ok(());
  }

  /** Setting a name and then getting the name gives the same name back. */
  method SetThenGet(state: CryptoState, name: string) returns (got: Result<string, string>)
    requires ProfileFromName(name).Some?
    modifies state
    ensures got == Ok(name)
  {
    var _ := SetCryptoConfig(state, name);
    got := GetCryptoConfig(state);
    ProfileNameRoundTrip(state.config, got.value);
    ProfileNameRoundTrip(state.config, name);
  }

  // ---------------------------------------------------------------------
  // Fail-fast mapping

  /**
   * Applying `f` to every item in order and collecting the results, giving
   * up at the first failure: the `for item in items { match .. return Err }`
   * loop of both batch commands.
   */
  function MapAll(f: string -> Result<string, AppError>, xs: seq<string>): (r: Result<seq<string>, AppError>)
    ensures r.Ok? <==> forall i :: 0 <= i < |xs| ==> f(xs[i]).Ok?
    ensures r.Ok? ==> |r.value| == |xs| && forall i :: 0 <= i < |xs| ==> r.value[i] == f(xs[i]).value
  {
    if xs == [] then Ok([])
    else
      var init := xs[..|xs| - 1];
      match MapAll(f, init)
      case Err(e) => Err(e)
      case Ok(ys) =>
        match f(xs[|xs| - 1])
        case Ok(y) => Ok(ys + [y])
        case Err(e) => Err(e)
  }

  /** A failed mapping reports the error of the first item that failed. */
  lemma {:induction false} MapAllFirstError(f: string -> Result<string, AppError>, xs: seq<string>)
    requires MapAll(f, xs).Err?
    ensures exists i :: 0 <= i < |xs| && f(xs[i]) == Err(MapAll(f, xs).error) && forall j :: 0 <= j < i ==> f(xs[j]).Ok?
  {
    var init := xs[..|xs| - 1];
    if MapAll(f, init).Err? {
      MapAllFirstError(f, init);
      var i :| 0 <= i < |init| && f(init[i]) == Err(MapAll(f, init).error) && forall j :: 0 <= j < i ==> f(init[j]).Ok?;
      assert f(xs[i]) == Err(MapAll(f, xs).error);
      assert forall j :: 0 <= j < i ==> f(xs[j]).Ok? by {
        forall j | 0 <= j < i ensures f(xs[j]).Ok? { assert xs[j] == init[j]; }
      }
    } else {
      var i := |xs| - 1;
      assert forall j :: 0 <= j < i ==> f(xs[j]).Ok? by {
        forall j | 0 <= j < i ensures f(xs[j]).Ok? { assert xs[j] == init[j]; }
      }
    }
  }

  /** Once a prefix of the items fails, the rest of the items are never looked at. */
  lemma {:induction false} MapAllErrPrefix(f: string -> Result<string, AppError>, xs: seq<string>, k: nat)
    requires k <= |xs| && MapAll(f, xs[..k]).Err?
    ensures MapAll(f, xs) == MapAll(f, xs[..k])
    decreases |xs|
  {
    if k < |xs| {
      var init := xs[..|xs| - 1];
      assert init[..k] == xs[..k];
      MapAllErrPrefix(f, init, k);
    } else {
      assert xs[..k] == xs;
    }
  }

  /** One step of the batch loop: the mapping of the first `i + 1` items from that of the first `i`. */
  lemma MapAllStep(f: string -> Result<string, AppError>, xs: seq<string>, i: nat)
    requires i < |xs|
    ensures MapAll(f, xs[..i + 1]) ==
      if MapAll(f, xs[..i]).Err? then MapAll(f, xs[..i])
      else if f(xs[i]).Err? then Err(f(xs[i]).error)
      else Ok(MapAll(f, xs[..i]).value + [f(xs[i]).value])
  {
    assert xs[..i + 1][..i] == xs[..i];
  }

  function EncryptWith(config: CryptoConfig, usePrefix: bool, codecs: Codecs): string -> Result<string, AppError> {
    t => Encrypt(config, usePrefix, codecs, t)
  }

  function DecryptWith(config: CryptoConfig, codecs: Codecs): string -> Result<string, AppError> {
    t => Decrypt(config, codecs, t)
  }

  /** A batch: the items, each mapped, joined with the input's majority delimiter. */
  function Batch(f: string -> Result<string, AppError>, input: string): (r: Result<string, string>)
    ensures r.Ok? <==> forall i :: 0 <= i < |Items(input)| ==> f(Items(input)[i]).Ok?
    ensures Items(input) == [] ==> r == Ok("")
  {
    match MapAll(f, Items(input))
    case Ok(outs) => Ok(Join(outs, MajorityDelimiter(input)))
    case Err(e) => Err(Display(e))
  }

  /** `process_batch_encrypt` under a given profile and prefix flag. */
  function BatchEncrypt(config: CryptoConfig, usePrefix: bool, codecs: Codecs, input: string): (r: Result<string, string>)
    ensures r.Ok? <==> forall i :: 0 <= i < |Items(input)| ==> Encrypt(config, usePrefix, codecs, Items(input)[i]).Ok?
  {
    Batch(EncryptWith(config, usePrefix, codecs), input)
  }

  /** `process_batch_decrypt` under a given profile. */
  function BatchDecrypt(config: CryptoConfig, codecs: Codecs, input: string): (r: Result<string, string>)
    ensures r.Ok? <==> forall i :: 0 <= i < |Items(input)| ==> Decrypt(config, codecs, Items(input)[i]).Ok?
  {
    Batch(DecryptWith(config, codecs), input)
  }

  /** A batch fails exactly when some item fails, and then with the display text of the first failure. */
  lemma BatchFailsFirst(f: string -> Result<string, AppError>, input: string)
    ensures Batch(f, input).Ok? <==> forall i :: 0 <= i < |Items(input)| ==> f(Items(input)[i]).Ok?
    ensures Batch(f, input).Err? ==>
      exists i :: 0 <= i < |Items(input)| && f(Items(input)[i]).Err?
               && Batch(f, input) == Err(Display(f(Items(input)[i]).error))
               && forall j :: 0 <= j < i ==> f(Items(input)[j]).Ok?
  {
    var items := Items(input);
    if MapAll(f, items).Err? {
      MapAllFirstError(f, items);
    }
  }

  /** A successful batch holds one result per item, in order, joined by the majority delimiter. */
  lemma BatchJoinsResults(f: string -> Result<string, AppError>, input: string, outs: seq<string>)
    requires |outs| == |Items(input)|
    requires forall i :: 0 <= i < |outs| ==> f(Items(input)[i]) == Ok(outs[i])
    ensures Batch(f, input) == Ok(Join(outs, MajorityDelimiter(input)))
  {
    assert MapAll(f, Items(input)).value == outs;
  }

  /** Input with no items, such as "" or " , \n", gives an empty output. */
  lemma BatchBlank(f: string -> Result<string, AppError>, input: string)
    requires Items(input) == []
    ensures Batch(f, input) == Ok("")
  {
  }

  /**
   * The loop both batch commands share: split the input into items, map them
   * in order, stop at the first failure with its display text, otherwise
   * join the results with the majority delimiter.
   */
  method RunBatch(f: string -> Result<string, AppError>, input: string) returns (r: Result<string, string>)
    ensures r == Batch(f, input)
  {
    var items := Items(input);
    var delimiter := if UsesNewlines(input) then "\n" else ",";
    var result: seq<string> := [];
    var i := 0;
    while i < |items|
      invariant 0 <= i <= |items|
      invariant MapAll(f, items[..i]) == Ok(result)
    {
      var out := f(items[i]);
      MapAllStep(f, items, i);
      match out {
        case Err(e) =>
          MapAllErrPrefix(f, items, i + 1);
          return Err(Display(e));
        case Ok(value) =>
          result := result + [value];
      }
      i := i + 1;
    }
    assert items[..i] == items;
    r := Ok(Join(result, delimiter));
  }

  /** `process_batch_encrypt`: `encrypt_number` on every item under the current profile and flag. */
  method ProcessBatchEncrypt(state: CryptoState, codecs: Codecs, input: string) returns (r: Result<string, string>)
    ensures r == BatchEncrypt(state.config, state.useHuaweiPrefix, codecs, input)
  {
    var config := state.GetCurrentConfig();
    var usePrefix := state.UseHuaweiPrefix();
    r := RunBatch(EncryptWith(config, usePrefix, codecs), input);
  }

  /** `process_batch_decrypt`: `decrypt_text` on every item under the current profile. */
  method ProcessBatchDecrypt(state: CryptoState, codecs: Codecs, input: string) returns (r: Result<string, string>)
    ensures r == BatchDecrypt(state.config, codecs, input)
  {
    var config := state.GetCurrentConfig();
    r := RunBatch(DecryptWith(config, codecs), input);
  }

  // ---------------------------------------------------------------------
  // Batch round trip

  /** The decimal forms of a list of numbers. */
  function Decimals(ns: seq<u64>): (ds: seq<string>)
    ensures |ds| == |ns|
    ensures forall i :: 0 <= i < |ns| ==> ds[i] == Decimal(ns[i] as nat)
  {
    seq(|ns|, i requires 0 <= i < |ns| => Decimal(ns[i] as nat))
  }

  lemma DecimalIsItem(n: nat)
    ensures IsItem(Decimal(n))
  {
    var s := Decimal(n);
    assert forall i :: 0 <= i < |s| ==> IsAsciiDigit(s[i]);
    AlphanumericIsItem(s);
  }

  /** What `encrypt_number` writes for `n`: the token, behind "haot" when the prefix is active. */
  function Token(config: CryptoConfig, usePrefix: bool, codecs: Codecs, n: u64): string {
    (if PrefixActive(config, usePrefix) then HUAWEI_PREFIX else "") + HarshFor(codecs, config).encode(n)
  }

  function Tokens(config: CryptoConfig, usePrefix: bool, codecs: Codecs, ns: seq<u64>): (ts: seq<string>)
    ensures |ts| == |ns|
    ensures forall i :: 0 <= i < |ns| ==> ts[i] == Token(config, usePrefix, codecs, ns[i])
  {
    seq(|ns|, i requires 0 <= i < |ns| => Token(config, usePrefix, codecs, ns[i]))
  }

  /** An encrypted `u64` is a single item: it survives the split, trim and filter of the next batch. */
  lemma EncryptedIsItem(config: CryptoConfig, usePrefix: bool, codecs: Codecs, n: u64)
    requires Reversible(HarshFor(codecs, config), config)
    ensures Encrypt(config, usePrefix, codecs, Decimal(n as nat)) == Ok(Token(config, usePrefix, codecs, n))
    ensures IsItem(Token(config, usePrefix, codecs, n))
  {
    var token := HarshFor(codecs, config).encode(n);
    assert OverAlphabet(token, TokenAlphabet(config)) && |token| >= config.MinLength();
    TokenChars(config, token);
    EncryptParsed(config, usePrefix, codecs, Decimal(n as nat), n) by { ParseU64Decimal(n); }
    var out := Token(config, usePrefix, codecs, n);
    assert forall i :: 0 <= i < |out| ==> IsAsciiAlphanumeric(out[i]) by {
      forall i | 0 <= i < |out| ensures IsAsciiAlphanumeric(out[i]) {
        if PrefixActive(config, usePrefix) && i < 4 {
          assert out[i] == HUAWEI_PREFIX[i];
        } else if PrefixActive(config, usePrefix) {
          assert out[i] == token[i - 4];
        } else {
          assert out[i] == token[i];
        }
      }
    }
    AlphanumericIsItem(out);
  }

  /** Batch encryption of a joined list of numerals writes their tokens, joined the same way. */
  lemma BatchEncryptDecimals(config: CryptoConfig, usePrefix: bool, codecs: Codecs, ns: seq<u64>, d: string)
    requires d == "\n" || d == ","
    requires |ns| >= 2 || d == ","
    requires Reversible(HarshFor(codecs, config), config)
    ensures BatchEncrypt(config, usePrefix, codecs, Join(Decimals(ns), d)) == Ok(Join(Tokens(config, usePrefix, codecs, ns), d))
  {
    var decs := Decimals(ns);
    var input := Join(decs, d);
    forall i | 0 <= i < |decs| ensures IsItem(decs[i]) {
      DecimalIsItem(ns[i] as nat);
    }
    ItemsOfJoin(decs, d);
    DelimiterOfJoin(decs, d);
    var enc := EncryptWith(config, usePrefix, codecs);
    var tokens := Tokens(config, usePrefix, codecs, ns);
    forall i | 0 <= i < |ns| ensures enc(Items(input)[i]) == Ok(tokens[i]) {
      EncryptedIsItem(config, usePrefix, codecs, ns[i]);
    }
    BatchJoinsResults(enc, input, tokens);
  }

  /** Batch decryption of a joined list of tokens gives the numerals back, joined the same way. */
  lemma BatchDecryptTokens(config: CryptoConfig, usePrefix: bool, codecs: Codecs, ns: seq<u64>, d: string)
    requires d == "\n" || d == ","
    requires |ns| >= 2 || d == ","
    requires Reversible(HarshFor(codecs, config), config)
    requires forall i :: 0 <= i < |ns| ==> Unambiguous(config, usePrefix, HarshFor(codecs, config).encode(ns[i]))
    ensures BatchDecrypt(config, codecs, Join(Tokens(config, usePrefix, codecs, ns), d)) == Ok(Join(Decimals(ns), d))
  {
    var tokens := Tokens(config, usePrefix, codecs, ns);
    var input := Join(tokens, d);
    var decs := Decimals(ns);
    forall i | 0 <= i < |ns|
      ensures IsItem(tokens[i]) && Decrypt(config, codecs, tokens[i]) == Ok(decs[i])
    {
      EncryptedIsItem(config, usePrefix, codecs, ns[i]);
      RoundTripNumber(config, usePrefix, codecs, ns[i]);
    }
    ItemsOfJoin(tokens, d);
    DelimiterOfJoin(tokens, d);
    BatchJoinsResults(DecryptWith(config, codecs), input, decs);
  }

  /**
   * Encrypting a list of decimal numbers and decrypting the output gives the
   * input back, with the same delimiter, whenever every number round-trips
   * on its own. A single item only keeps its delimiter when it is ",", since
   * an output of one item has no delimiter to count.
   */
  lemma BatchRoundTrip(config: CryptoConfig, usePrefix: bool, codecs: Codecs, ns: seq<u64>, d: string)
    requires d == "\n" || d == ","
    requires |ns| >= 2 || d == ","
    requires Reversible(HarshFor(codecs, config), config)
    requires forall i :: 0 <= i < |ns| ==> Unambiguous(config, usePrefix, HarshFor(codecs, config).encode(ns[i]))
    ensures BatchEncrypt(config, usePrefix, codecs, Join(Decimals(ns), d)).Ok?
    ensures BatchDecrypt(config, codecs, BatchEncrypt(config, usePrefix, codecs, Join(Decimals(ns), d)).value)
      == Ok(Join(Decimals(ns), d))
  {
    BatchEncryptDecimals(config, usePrefix, codecs, ns, d);
    BatchDecryptTokens(config, usePrefix, codecs, ns, d);
  }

  lemma Decimal12345()
    ensures Decimal(12345) == "12345"
  {
    assert Decimal(1) == "1";
    assert Decimal(12) == "12";
    assert Decimal(123) == "123";
    assert Decimal(1234) == "1234";
  }

  lemma Decimal67890()
    ensures Decimal(67890) == "67890"
  {
    assert Decimal(6) == "6";
    assert Decimal(67) == "67";
    assert Decimal(678) == "678";
    assert Decimal(6789) == "6789";
  }

  /** The input of the batch test, as a joined list of numerals. */
  // A helper of the test lemmas: the literal is a parameter fixed by `requires`
  // so that each caller's local stands for it and the solver expands it once.
  lemma ExampleInput(ns: seq<u64>)
    requires ns == [12345, 67890]
    ensures Join(Decimals(ns), ",") == "12345,67890"
  {
    Decimal12345();
    Decimal67890();
    assert Decimals(ns) == ["12345", "67890"];
  }

  /**
   * The batch test of `commands.rs`: "12345,67890" survives encryption and
   * decryption under the initial state (General, prefix on), given that both
   * tokens round-trip on their own.
   */
  lemma BatchRoundTripExample(codecs: Codecs)
    requires Reversible(codecs.general, General)
    requires Unambiguous(General, true, codecs.general.encode(12345))
    requires Unambiguous(General, true, codecs.general.encode(67890))
    ensures BatchEncrypt(General, true, codecs, "12345,67890").Ok?
    ensures BatchDecrypt(General, codecs, BatchEncrypt(General, true, codecs, "12345,67890").value) == Ok("12345,67890")
  {
    var ns: seq<u64> := [12345, 67890];
    ExampleInput(ns);
    BatchRoundTrip(General, true, codecs, ns, ",");
  }

  // ---------------------------------------------------------------------
  // Text commands

  /** `map_err(|e| e.to_string())`: a command reports an error by its display text. */
  function AsCommand(r: Result<string, AppError>): Result<string, string> {
    match r
    case Ok(v) => Ok(v)
    case Err(e) => Err(Display(e))
  }

  /** `process_convert_format`. */
  function ProcessConvertFormat(input: string): (r: Result<string, string>)
    ensures r.Err? <==> input == []
    ensures r.Err? ==> r.error == Display(TextProcessor.EMPTY_FORMAT_INPUT)
    ensures r.Ok? ==> r.value == TextProcessor.ConvertFormat(input).value
  {
    AsCommand(TextProcessor.ConvertFormat(input))
  }

  /** `process_replace_commas`. */
  function ProcessReplaceCommas(input: string): (r: Result<string, string>)
    ensures r.Err? <==> input == []
    ensures r.Err? ==> r.error == Display(TextProcessor.EMPTY_FORMAT_INPUT)
    ensures r.Ok? ==> r.value == TextProcessor.ReplaceChineseCommas(input).value
  {
    AsCommand(TextProcessor.ReplaceChineseCommas(input))
  }

  /** `process_add_quotes`. */
  function ProcessAddQuotes(input: string): (r: Result<string, string>)
    ensures r.Err? <==> input == []
    ensures r.Err? ==> r.error == Display(TextProcessor.EMPTY_FORMAT_INPUT)
    ensures r.Ok? ==> r.value == TextProcessor.AddQuotes(input).value
  {
    AsCommand(TextProcessor.AddQuotes(input))
  }

  /** `process_remove_quotes`, over the guarded `remove_quotes`. */
  function ProcessRemoveQuotes(input: string): (r: Result<string, string>)
    ensures r.Err? <==> input == []
    ensures r.Err? ==> r.error == Display(TextProcessor.EMPTY_FORMAT_INPUT)
    ensures r.Ok? ==> r.value == TextProcessor.RemoveQuotes(input).value
  {
    AsCommand(TextProcessor.RemoveQuotes(input))
  }

  /**
   * The four text commands fail exactly on the empty input, all with the
   * same text, and otherwise pass the transform's result through.
   */
  lemma TextCommandsRefuseEmpty(input: string)
    ensures ProcessConvertFormat(input).Err? <==> input == []
    ensures ProcessReplaceCommas(input).Err? <==> input == []
    ensures ProcessAddQuotes(input).Err? <==> input == []
    ensures ProcessRemoveQuotes(input).Err? <==> input == []
    ensures input == [] ==>
      && ProcessConvertFormat(input) == Err(Display(FormatError(EMPTY_INPUT)))
      && ProcessReplaceCommas(input) == ProcessConvertFormat(input)
      && ProcessAddQuotes(input) == ProcessConvertFormat(input)
      && ProcessRemoveQuotes(input) == ProcessConvertFormat(input)
  {
  }

  /** The command-level format test: "1,2,3" becomes "1\n2\n3", and converting that gives "1,2,3" back. */
  lemma FormatCommandRoundTrip()
    ensures ProcessConvertFormat("1,2,3") == Ok("1\n2\n3")
    ensures ProcessConvertFormat("1\n2\n3") == Ok("1,2,3")
  {
    TextProcessor.ConvertFormatExample();
  }

  // ---------------------------------------------------------------------
  // Upload

  /**
   * `upload_to_oss`: the channel name is parsed first, so an unknown channel
   * is refused before the credentials or the content are looked at; then the
   * checks of `upload_ids_to_oss` run, and then the request, whose answer
   * is the parameter `response`.
   */
  method UploadToOss(accessId: string, accessKey: string, content: string, channelName: string, response: Oss.PutResponse)
    returns (r: Result<string, string>)
    ensures Oss.ChannelFromStr(channelName).Err? ==> r == Err(Oss.UnsupportedChannel(channelName))
    ensures Oss.ChannelFromStr(channelName).Ok? && (Trim(accessId) == [] || Trim(accessKey) == []) ==>
      r == Err(Oss.BLANK_CREDENTIALS)
    ensures Oss.ChannelFromStr(channelName).Ok? && Trim(accessId) != [] && Trim(accessKey) != [] ==>
      && (Trim(content) == [] ==> r == Err(Oss.ContentErrorMessage(Oss.EmptyContent)))
      && (Trim(content) != [] && !Oss.AllLinesNumeric(content) ==>
            exists e :: Oss.FirstBadLine(Oss.Lines(content), e) && r == Err(Oss.ContentErrorMessage(e)))
      && (Trim(content) != [] && Oss.AllLinesNumeric(content) ==>
            r == if Oss.HeaderSafe(accessId) then Oss.ResponseResult(Oss.ObjectPath(Oss.ChannelFromStr(channelName).value), response)
                 else Err(Oss.INVALID_HEADER))
    ensures r.Ok? <==>
      && Oss.ChannelFromStr(channelName).Ok?
      && Trim(accessId) != [] && Trim(accessKey) != [] && Trim(content) != [] && Oss.AllLinesNumeric(content)
      && Oss.HeaderSafe(accessId) && response.Answered? && Oss.IsSuccess(response.code)
    ensures r.Ok? ==> r.value == Oss.UPLOADED + Oss.HOST + "/" + Oss.ObjectPath(Oss.ChannelFromStr(channelName).value)
  {
    var channel := Oss.ChannelFromStr(channelName);
    if channel.Err? {
      return Err(channel.error);
    }
    r := Oss.UploadIdsToOss(accessId, accessKey, content, channel.value, response);
  }
}

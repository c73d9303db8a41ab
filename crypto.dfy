/**
 * The reversible ID obfuscation engine of `crypto.rs`: the two profiles,
 * the process-wide profile state, `encrypt_number` and `decrypt_text`.
 *
 * The Hashids primitive (crate `harsh`) is not modelled: a `Harsh` value is
 * any pair of encode/decode functions, and what the crate guarantees (decode
 * inverts encode, tokens reach the minimum length and use only the alphabet)
 * is the predicate `Reversible`, a hypothesis of the lemmas that need it.
 */
module Crypto {
  import opened Wrappers
  import opened Strs
  import opened Numbers
  import opened Errors

  /** The two profiles; every parameter is a fixed constant. */
  datatype CryptoConfig = General | Huawei {

    /** The salt the profile's codec is built with; each profile has its own. */
    function Salt(): (s: string)
      ensures s != []
      ensures s == "Tongyong" <==> this == General
    {
      match this
      case General => "Tongyong"
      case Huawei => "Huawei"
    }

    /** The shortest token the profile's codec writes; Huawei asks for more. */
    function MinLength(): (m: nat)
      ensures m >= 12
      ensures m > 12 <==> this == Huawei
    {
      match this
      case General => 12
      case Huawei => 16
    }

    /**
     * The profile's own alphabet: none under General (the codec's default),
     * and under Huawei the 36 lower-case letters and digits.
     */
    function Alphabet(): (a: Option<string>)
      ensures a.None? <==> this == General
      ensures a.Some? ==> |a.value| == 36
      ensures a.Some? ==> forall c :: c in a.value <==> ('a' <= c <= 'z' || IsAsciiDigit(c))
    {
      match this
      case General => None
      // "abcdefghijklmnopqrstuvwxyz1234567890"
      case Huawei => Some(CharRange('a', 'z') + CharRange('1', '9') + "0")
    }
  }

  /**
   * The alphabet `harsh` uses when none is given,
   * "abcdefghijklmnopqrstuvwxyzABCDEFGHIJKLMNOPQRSTUVWXYZ1234567890".
   */
  const DEFAULT_ALPHABET := CharRange('a', 'z') + CharRange('A', 'Z') + CharRange('1', '9') + "0"

  /** Marks Huawei tokens when the prefix flag is on, and oversized numerals under it. */
  const HUAWEI_PREFIX := "haot"

  /** Marks an oversized numeral passed through unencoded. */
  const SENTINEL := "x"

  /** A literal that decryption rejects outright. */
  const REJECTED_LITERAL := "invalid_hash"

  const INVALID_CIPHERTEXT := "无效的加密字符串"
  const DECODE_PANICKED := "解密失败，无效的加密字符串"

  function TooShortMessage(minLength: nat): string {
    "无效的加密字符串：长度不足，需要至少" + Decimal(minLength) + "个字符"
  }

  function TooShortAfterPrefixMessage(minLength: nat): string {
    "无效的加密字符串：去除前缀后长度不足，需要至少" + Decimal(minLength) + "个字符"
  }

  function NotNumericMessage(kind: IntErrorKind): string {
    "输入必须为数字: " + IntErrorText(kind)
  }

  /** The characters a Harsh instance built for `config` writes. */
  function TokenAlphabet(config: CryptoConfig): string {
    match config.Alphabet()
    case Some(a) => a
    case None => DEFAULT_ALPHABET
  }

  /** What `Harsh::decode` gives back: the numbers, an error, or a panic. */
  datatype Decoded = Values(numbers: seq<u64>) | Rejected | Panicked

  /** A built `Harsh` instance: its `encode(&[n])` and its `decode`. */
  datatype Harsh = Harsh(encode: u64 -> string, decode: string -> Decoded)

  /** The two lazily built instances, one per profile. */
  datatype Codecs = Codecs(general: Harsh, huawei: Harsh)

  /** `get_harsh`: the instance of the given profile. */
  function HarshFor(codecs: Codecs, config: CryptoConfig): (h: Harsh)
    ensures Reversible(codecs.general, General) && Reversible(codecs.huawei, Huawei) ==>
      Reversible(h, config)
  {
    match config
    case General => codecs.general
    case Huawei => codecs.huawei
  }

  ghost predicate OverAlphabet(t: string, alphabet: string) {
    forall i :: 0 <= i < |t| ==> t[i] in alphabet
  }

  /** Both alphabets hold ASCII letters and digits only. */
  lemma TokenChars(config: CryptoConfig, t: string)
    requires OverAlphabet(t, TokenAlphabet(config))
    ensures forall i :: 0 <= i < |t| ==> IsAsciiAlphanumeric(t[i])
    ensures ByteLen(t) == |t|
  {
    AlphabetChars(config);
    assert forall i :: 0 <= i < |t| ==> t[i] in TokenAlphabet(config);
  }

  lemma AlphabetChars(config: CryptoConfig)
    ensures forall c :: c in TokenAlphabet(config) ==> IsAsciiAlphanumeric(c)
  {
  }

  /**
   * What Hashids promises of an instance built with the profile's salt,
   * minimum length and alphabet.
   */
  ghost predicate Reversible(h: Harsh, config: CryptoConfig) {
    forall n: u64 {:trigger h.encode(n)} ::
      && h.decode(h.encode(n)) == Values([n])
      && |h.encode(n)| >= config.MinLength()
      && OverAlphabet(h.encode(n), TokenAlphabet(config))
  }

  /** Whether a token gets the "haot" prefix. */
  predicate PrefixActive(config: CryptoConfig, usePrefix: bool) {
    config == Huawei && usePrefix
  }

  /**
   * `encrypt_number(text)` for a given profile and prefix flag: a `u64`
   * numeral is encoded; an all-digit numeral too large for `u64` is passed
   * through behind "haot" (Huawei with prefix) or "x" (otherwise).
   */
  function Encrypt(config: CryptoConfig, usePrefix: bool, codecs: Codecs, text: string): (r: Result<string, AppError>)
    ensures text == [] ==> r == Err(EncryptError(EMPTY_INPUT))
    ensures r.Ok? <==> text != [] && (ParseU64(text).Ok? || AllDigits(text))
    ensures text != [] && r.Err? ==> r.error.InvalidInput?
    ensures r.Ok? && PrefixActive(config, usePrefix) ==> StartsWith(r.value, HUAWEI_PREFIX)
  {
    if text == [] then Err(EncryptError(EMPTY_INPUT))
    else
      match ParseU64(text)
      case Ok(n) =>
        var token := HarshFor(codecs, config).encode(n);
        if PrefixActive(config, usePrefix) then Ok(HUAWEI_PREFIX + token) else Ok(token)
      case Err(kind) =>
        if !AllDigits(text) then Err(InvalidInput(NotNumericMessage(kind)))
        else if PrefixActive(config, usePrefix) then Ok(HUAWEI_PREFIX + text)
        else Ok(SENTINEL + text)
  }

  /**
   * The `catch_unwind(|| get_harsh().decode(t))` block: the first decoded
   * number in decimal, or a decryption error.
   */
  function RunDecode(h: Harsh, t: string): (r: Result<string, AppError>)
    ensures r.Ok? <==> h.decode(t).Values? && h.decode(t).numbers != []
    ensures r.Ok? ==> r.value == Decimal(h.decode(t).numbers[0] as nat)
    ensures r.Err? ==> r.error == DecryptError(if h.decode(t).Panicked? then DECODE_PANICKED else INVALID_CIPHERTEXT)
  {
    match h.decode(t)
    case Values(ns) => if ns == [] then Err(DecryptError(INVALID_CIPHERTEXT)) else Ok(Decimal(ns[0] as nat))
    case Rejected => Err(DecryptError(INVALID_CIPHERTEXT))
    case Panicked => Err(DecryptError(DECODE_PANICKED))
  }

  /**
   * The Huawei branch of `decrypt_text`, reached by a non-empty token that is
   * neither the rejected literal nor all digits: the two length checks, the
   * "haot" pass-through of digits, then the decoder.
   */
  function DecryptHuawei(codecs: Codecs, text: string): (r: Result<string, AppError>)
    ensures r.Err? ==> r.error.DecryptError?
    ensures r.Ok? ==> AllDigits(r.value)
    ensures !StartsWith(text, HUAWEI_PREFIX) && (StartsWith(text, SENTINEL) || ByteLen(text) >= Huawei.MinLength()) ==>
      r == RunDecode(HarshFor(codecs, Huawei), text)
  {
    var minLength := Huawei.MinLength();
    if !StartsWith(text, HUAWEI_PREFIX) && !StartsWith(text, SENTINEL) && ByteLen(text) < minLength then
      Err(DecryptError(TooShortMessage(minLength)))
    else if StartsWith(text, HUAWEI_PREFIX) then
      var rest := text[|HUAWEI_PREFIX|..];
      if !AllDigits(rest) && ByteLen(rest) < minLength then
        Err(DecryptError(TooShortAfterPrefixMessage(minLength)))
      else if AllDigits(rest) then Ok(rest)
      else RunDecode(HarshFor(codecs, Huawei), rest)
    else RunDecode(HarshFor(codecs, Huawei), text)
  }

  /** `decrypt_text(text)` for a given profile: the decision table of `crypto.rs`. */
  function Decrypt(config: CryptoConfig, codecs: Codecs, text: string): (r: Result<string, AppError>)
    ensures text == [] ==> r == Err(DecryptError(EMPTY_INPUT))
    ensures r.Err? ==> r.error.DecryptError?
    ensures r.Ok? ==> AllDigits(r.value)
    ensures
      && text != [] && text != REJECTED_LITERAL && !AllDigits(text)
      && (config == General ==> !(StartsWith(text, SENTINEL) && ByteLen(text) > 1 && AllDigits(text[1..])))
      && (config == Huawei ==>
            !StartsWith(text, HUAWEI_PREFIX) && (StartsWith(text, SENTINEL) || ByteLen(text) >= Huawei.MinLength()))
      ==> r == RunDecode(HarshFor(codecs, config), text)
  {
    if text == [] then Err(DecryptError(EMPTY_INPUT))
    else if text == REJECTED_LITERAL then Err(DecryptError(INVALID_CIPHERTEXT))
    else if AllDigits(text) then Err(DecryptError(INVALID_CIPHERTEXT))
    else if config == General && StartsWith(text, SENTINEL) && ByteLen(text) > 1 && AllDigits(text[1..]) then
      Ok(text[1..])
    else if config == Huawei then DecryptHuawei(codecs, text)
    else RunDecode(HarshFor(codecs, config), text)
  }

  /** Whether a decryption failed on one of the two Huawei length checks. */
  predicate IsLengthError(r: Result<string, AppError>) {
    r == Err(DecryptError(TooShortMessage(Huawei.MinLength())))
    || r == Err(DecryptError(TooShortAfterPrefixMessage(Huawei.MinLength())))
  }

  /**
   * The process-wide configuration: `CURRENT_CONFIG` and `USE_HUAWEI_PREFIX`.
   * Every encryption and decryption reads both at its start.
   */
  class CryptoState {
    var config: CryptoConfig
    var useHuaweiPrefix: bool

    /** `init_config`: General, with the prefix flag on. */
    constructor ()
      ensures config == General && useHuaweiPrefix
    {
      config := General;
      useHuaweiPrefix := true;
    }

    /** `get_current_config`. */
    method GetCurrentConfig() returns (c: CryptoConfig)
      ensures c == config
    {
      c := config;
    }

    /** `set_config`: replaces the profile and nothing else. */
    method SetConfig(c: CryptoConfig)
      modifies this
      ensures config == c && useHuaweiPrefix == old(useHuaweiPrefix)
    {
      config := c;
    }

    /** `use_huawei_prefix`. */
    method UseHuaweiPrefix() returns (b: bool)
      ensures b == useHuaweiPrefix
    {
      b := useHuaweiPrefix;
    }

    /** `set_use_huawei_prefix`: replaces the flag and nothing else. */
    method SetUseHuaweiPrefix(b: bool)
      modifies this
      ensures useHuaweiPrefix == b && config == old(config)
    {
      useHuaweiPrefix := b;
    }

    /** `encrypt_number`, reading the current profile and flag. */
    method EncryptNumber(codecs: Codecs, text: string) returns (r: Result<string, AppError>)
      ensures r == Encrypt(config, useHuaweiPrefix, codecs, text)
    {
      var c := GetCurrentConfig();
      var p := UseHuaweiPrefix();
      r := Encrypt(c, p, codecs, text);
    }

    /** `decrypt_text`, reading the current profile. */
    method DecryptText(codecs: Codecs, text: string) returns (r: Result<string, AppError>)
      ensures r == Decrypt(config, codecs, text)
    {
      var c := GetCurrentConfig();
      r := Decrypt(c, codecs, text);
    }
  }

  // ---------------------------------------------------------------------
  // encrypt_number

  /** An empty numeral is refused before anything else is looked at. */
  lemma EncryptEmpty(config: CryptoConfig, usePrefix: bool, codecs: Codecs)
    ensures Encrypt(config, usePrefix, codecs, "") == Err(EncryptError(EMPTY_INPUT))
  {
  }

  /** A `u64` numeral is encoded, behind "haot" exactly when the prefix is active. */
  lemma EncryptParsed(config: CryptoConfig, usePrefix: bool, codecs: Codecs, text: string, n: u64)
    requires ParseU64(text) == Ok(n)
    ensures Encrypt(config, usePrefix, codecs, text) ==
      Ok((if PrefixActive(config, usePrefix) then HUAWEI_PREFIX else "") + HarshFor(codecs, config).encode(n))
  {
    assert "" + HarshFor(codecs, config).encode(n) == HarshFor(codecs, config).encode(n);
  }

  /**
   * A numeral that fails to parse fails encryption unless it is all digits;
   * an all-digit one is a value of 64 bits or more, passed through verbatim
   * behind "haot" or "x".
   */
  lemma EncryptUnparsed(config: CryptoConfig, usePrefix: bool, codecs: Codecs, text: string)
    requires text != [] && ParseU64(text).Err?
    ensures !AllDigits(text) ==>
      Encrypt(config, usePrefix, codecs, text) == Err(InvalidInput(NotNumericMessage(ParseU64(text).error)))
    ensures AllDigits(text) ==> DigitsValue(text) >= U64_LIMIT
    ensures AllDigits(text) ==>
      Encrypt(config, usePrefix, codecs, text) ==
        Ok((if PrefixActive(config, usePrefix) then HUAWEI_PREFIX else SENTINEL) + text)
  {
    if AllDigits(text) {
      ParseU64Digits(text);
    }
  }

  // ---------------------------------------------------------------------
  // decrypt_text

  /**
   * The empty token, the rejected literal and every all-digit token fail
   * before the profile is consulted: both profiles give the same error.
   */
  lemma DecryptRejectsEarly(codecs: Codecs, text: string)
    requires text == [] || text == REJECTED_LITERAL || AllDigits(text)
    ensures Decrypt(General, codecs, text).Err?
    ensures Decrypt(General, codecs, text) == Decrypt(Huawei, codecs, text)
    ensures text == [] ==> Decrypt(General, codecs, text) == Err(DecryptError(EMPTY_INPUT))
    ensures text != [] ==> Decrypt(General, codecs, text) == Err(DecryptError(INVALID_CIPHERTEXT))
  {
  }

  /** Under General, "x" followed by digits unwraps to those digits. */
  lemma DecryptSentinel(codecs: Codecs, digits: string)
    requires digits != [] && AllDigits(digits)
    ensures Decrypt(General, codecs, SENTINEL + digits) == Ok(digits)
  {
    var text := SENTINEL + digits;
    assert text[1..] == digits && text[..1] == SENTINEL;
    assert !IsAsciiDigit(text[0]);
    assert text != REJECTED_LITERAL by { assert REJECTED_LITERAL[0] == 'i'; }
  }

  /** Under Huawei, a token without "haot" or 'x' shorter than 16 bytes fails on length. */
  lemma DecryptHuaweiTooShort(codecs: Codecs, text: string)
    requires text != REJECTED_LITERAL && !AllDigits(text)
    requires !StartsWith(text, HUAWEI_PREFIX) && !StartsWith(text, SENTINEL)
    requires ByteLen(text) < Huawei.MinLength()
    ensures Decrypt(Huawei, codecs, text) == Err(DecryptError(TooShortMessage(16)))
  {
  }

  /**
   * Under Huawei, "haot" followed by digits gives the digits back, even when
   * there are none; followed by anything else shorter than 16 bytes, it fails
   * on length; followed by 16 bytes or more, it never fails on length.
   */
  lemma DecryptHuaweiPrefixed(codecs: Codecs, rest: string)
    ensures AllDigits(rest) ==> Decrypt(Huawei, codecs, HUAWEI_PREFIX + rest) == Ok(rest)
    ensures !AllDigits(rest) && ByteLen(rest) < 16 ==>
      Decrypt(Huawei, codecs, HUAWEI_PREFIX + rest) == Err(DecryptError(TooShortAfterPrefixMessage(16)))
    ensures ByteLen(rest) >= 16 ==> !IsLengthError(Decrypt(Huawei, codecs, HUAWEI_PREFIX + rest))
    ensures !AllDigits(rest) && ByteLen(rest) >= 16 ==>
      Decrypt(Huawei, codecs, HUAWEI_PREFIX + rest) == RunDecode(codecs.huawei, rest)
  {
    var text := HUAWEI_PREFIX + rest;
    assert text[..4] == HUAWEI_PREFIX && text[4..] == rest;
    assert text[0] == 'h' && !IsAsciiDigit(text[0]);
    assert text != REJECTED_LITERAL by { assert REJECTED_LITERAL[0] == 'i'; }
    assert TooShortMessage(16) != TooShortAfterPrefixMessage(16) by {
      assert TooShortMessage(16)[9] != TooShortAfterPrefixMessage(16)[9];
    }
  }

  /** The shape facts about the short test token that the decision table reads. */
  // A helper of the test lemmas: the literal is a parameter fixed by `requires`
  // so that each caller's local stands for it and the solver expands it once.
  lemma ShortTokenShape(short: string)
    requires short == "07p59j4wqvk4ze"
    ensures short != REJECTED_LITERAL && !AllDigits(short)
    ensures !StartsWith(short, HUAWEI_PREFIX) && !StartsWith(short, SENTINEL)
    ensures ByteLen(short) == 14
  {
    assert short[0] == '0' && !IsAsciiDigit(short[2]);
  }

  /** The short-token decryption test of `crypto.rs`: 14 bytes is too short under Huawei. */
  // The token is a parameter fixed by `requires`: with the literal in the
  // ensures, the solver expands the whole decryption table on its characters.
  lemma DecryptShortToken(codecs: Codecs, short: string)
    requires short == "07p59j4wqvk4ze"
    ensures Decrypt(Huawei, codecs, short) == Err(DecryptError(TooShortMessage(16)))
  {
    ShortTokenShape(short);
    DecryptHuaweiTooShort(codecs, short);
  }

  /** The prefixed-token decryption test of `crypto.rs`: 22 bytes after "haot" pass the length check. */
  lemma DecryptLongPrefixed(codecs: Codecs)
    ensures !IsLengthError(Decrypt(Huawei, codecs, "haotabcdefghijklmnopqrstuv"))
  {
    var rest := "abcdefghijklmnopqrstuv";
    assert HUAWEI_PREFIX + rest == "haotabcdefghijklmnopqrstuv";
    assert |rest| == 22;
    DecryptHuaweiPrefixed(codecs, rest);
  }

  // ---------------------------------------------------------------------
  // Round trips

  /**
   * The token shapes the decryption table reads as something other than a
   * Hashids token: digits only, "x" followed by digits under General, and
   * (without the prefix) "haot" at the start under Huawei. Hashids can in
   * principle write such tokens, since both alphabets contain the digits,
   * 'x', 'h', 'a', 'o' and 't'.
   */
  predicate Unambiguous(config: CryptoConfig, usePrefix: bool, token: string) {
    && !AllDigits(token)
    && (config == General && StartsWith(token, SENTINEL) ==> !AllDigits(token[1..]))
    && (config == Huawei && !usePrefix ==> !StartsWith(token, HUAWEI_PREFIX))
  }

  lemma RejectedLiteralNotAToken(config: CryptoConfig, t: string)
    requires OverAlphabet(t, TokenAlphabet(config))
    ensures t != REJECTED_LITERAL
  {
    TokenChars(config, t);
    assert !IsAsciiAlphanumeric(REJECTED_LITERAL[7]);
  }

  /**
   * Encrypting the decimal form of a `u64` and decrypting the result gives
   * it back, under either profile and flag, when the token is not one of the
   * ambiguous shapes.
   */
  lemma RoundTripNumber(config: CryptoConfig, usePrefix: bool, codecs: Codecs, n: u64)
    requires Reversible(HarshFor(codecs, config), config)
    requires Unambiguous(config, usePrefix, HarshFor(codecs, config).encode(n))
    ensures Encrypt(config, usePrefix, codecs, Decimal(n as nat)).Ok?
    ensures Decrypt(config, codecs, Encrypt(config, usePrefix, codecs, Decimal(n as nat)).value) == Ok(Decimal(n as nat))
  {
    var h := HarshFor(codecs, config);
    var token := h.encode(n);
    ParseU64Decimal(n);
    assert h.decode(token) == Values([n]) && |token| >= config.MinLength();
    if PrefixActive(config, usePrefix) {
      assert Encrypt(config, usePrefix, codecs, Decimal(n as nat)) == Ok(HUAWEI_PREFIX + token);
      DecryptHuaweiPrefixed(codecs, token);
    } else {
      assert Encrypt(config, usePrefix, codecs, Decimal(n as nat)) == Ok(token);
      RejectedLiteralNotAToken(config, token);
    }
  }

  /**
   * An all-digit numeral too large for `u64` survives the round trip through
   * the "x" or "haot" pass-through, except under Huawei with the prefix off.
   */
  lemma RoundTripOversized(config: CryptoConfig, usePrefix: bool, codecs: Codecs, digits: string)
    requires digits != [] && AllDigits(digits) && DigitsValue(digits) >= U64_LIMIT
    requires config == General || usePrefix
    ensures Encrypt(config, usePrefix, codecs, digits).Ok?
    ensures Decrypt(config, codecs, Encrypt(config, usePrefix, codecs, digits).value) == Ok(digits)
  {
    ParseU64Digits(digits);
    if PrefixActive(config, usePrefix) {
      DecryptHuaweiPrefixed(codecs, digits);
    } else {
      DecryptSentinel(codecs, digits);
    }
  }

  /**
   * Under Huawei with the prefix off, an oversized numeral is written as
   * "x" + digits, which decryption hands to Hashids instead of unwrapping:
   * whatever Hashids returns, it is not the numeral.
   */
  lemma OversizedLostWithoutPrefix(codecs: Codecs, digits: string)
    requires digits != [] && AllDigits(digits) && DigitsValue(digits) >= U64_LIMIT
    ensures Encrypt(Huawei, false, codecs, digits) == Ok(SENTINEL + digits)
    ensures Decrypt(Huawei, codecs, SENTINEL + digits) != Ok(digits)
  {
    ParseU64Digits(digits);
    var text := SENTINEL + digits;
    assert text[..1] == SENTINEL && text[0] == 'x';
    assert !StartsWith(text, HUAWEI_PREFIX);
    assert text != REJECTED_LITERAL by { assert REJECTED_LITERAL[0] == 'i'; }
    assert Decrypt(Huawei, codecs, text) == RunDecode(codecs.huawei, text);
    var r := RunDecode(codecs.huawei, text);
    if r == Ok(digits) {
      var v := codecs.huawei.decode(text).numbers[0];
      DigitsValueOfDecimal(v as nat);
      assert false;
    }
  }

  /**
   * A Hashids token made only of digits never reaches the decoder: without
   * the prefix it is refused as a bare numeral, and behind "haot" it comes
   * back as itself.
   */
  lemma DigitTokenNotDecoded(config: CryptoConfig, usePrefix: bool, codecs: Codecs, n: u64)
    requires AllDigits(HarshFor(codecs, config).encode(n))
    ensures Decrypt(config, codecs, Encrypt(config, usePrefix, codecs, Decimal(n as nat)).value) ==
      if PrefixActive(config, usePrefix) then Ok(HarshFor(codecs, config).encode(n))
      else Err(DecryptError(if HarshFor(codecs, config).encode(n) == [] then EMPTY_INPUT else INVALID_CIPHERTEXT))
  {
    ParseU64Decimal(n);
    if PrefixActive(config, usePrefix) {
      DecryptHuaweiPrefixed(codecs, HarshFor(codecs, config).encode(n));
    }
  }

  /**
   * A General token that happens to be "x" and digits is taken for a
   * passed-through oversized numeral: decryption returns the digits.
   */
  lemma SentinelTokenMisread(codecs: Codecs, usePrefix: bool, n: u64)
    requires StartsWith(codecs.general.encode(n), SENTINEL)
    requires |codecs.general.encode(n)| > 1 && AllDigits(codecs.general.encode(n)[1..])
    ensures Decrypt(General, codecs, Encrypt(General, usePrefix, codecs, Decimal(n as nat)).value) ==
      Ok(codecs.general.encode(n)[1..])
  {
    var token := codecs.general.encode(n);
    ParseU64Decimal(n);
    assert token[0] == 'x' && !IsAsciiDigit(token[0]);
    assert REJECTED_LITERAL[0] == 'i';
    assert Encrypt(General, usePrefix, codecs, Decimal(n as nat)) == Ok(token);
  }

  /**
   * Under Huawei with the prefix off, a token that happens to start with
   * "haot" loses those four characters before it is decoded.
   */
  lemma HuaweiPrefixTokenMisread(codecs: Codecs, n: u64)
    requires StartsWith(codecs.huawei.encode(n), HUAWEI_PREFIX)
    requires !AllDigits(codecs.huawei.encode(n)[4..])
    ensures var rest := codecs.huawei.encode(n)[4..];
      Decrypt(Huawei, codecs, Encrypt(Huawei, false, codecs, Decimal(n as nat)).value) ==
        if ByteLen(rest) < 16 then Err(DecryptError(TooShortAfterPrefixMessage(16)))
        else RunDecode(codecs.huawei, rest)
  {
    var token := codecs.huawei.encode(n);
    ParseU64Decimal(n);
    assert Encrypt(Huawei, false, codecs, Decimal(n as nat)) == Ok(token);
    assert token == HUAWEI_PREFIX + token[4..];
    DecryptHuaweiPrefixed(codecs, token[4..]);
  }

  /**
   * A General token shorter than 16 characters that starts with neither 'x'
   * nor "haot" fails under Huawei on length, whatever Hashids would say.
   */
  lemma CrossProfileRejection(codecs: Codecs, n: u64)
    requires Reversible(codecs.general, General)
    requires |codecs.general.encode(n)| < 16 && !AllDigits(codecs.general.encode(n))
    requires !StartsWith(codecs.general.encode(n), SENTINEL) && !StartsWith(codecs.general.encode(n), HUAWEI_PREFIX)
    ensures Decrypt(Huawei, codecs, codecs.general.encode(n)) == Err(DecryptError(TooShortMessage(16)))
  {
    var token := codecs.general.encode(n);
    assert OverAlphabet(token, TokenAlphabet(General));
    RejectedLiteralNotAToken(General, token);
    TokenChars(General, token);
    DecryptHuaweiTooShort(codecs, token);
  }
}

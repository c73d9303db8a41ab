# Operation-Kit, modelled in Dafny

Operation-Kit is a small operations tool for lists of numeric IDs. This
project models its core.

**The Rust back end** (`crypto.rs`, `commands.rs`, `text_processor.rs`,
`oss.rs`):
- It encrypts decimal IDs into Hashids tokens and decrypts them again.
- There are two profiles, General ("通用") and Huawei ("华为").
- Under Huawei, tokens may carry the optional "haot" prefix.
- Numerals too large for `u64` are passed through behind a marker.
- Every item of a list separated by newlines or commas is handled, and the
  batch stops at the first failure.
- Lists can be reformatted: switch the delimiter, replace full-width commas,
  add or remove single quotes.
- An ID list is checked before it is uploaded to object storage for a sales
  channel.

**The Go desktop variant** (`main.go`):
- It has one profile, and its list operations pass through any item they
  cannot convert.
- Its input and output views are paged, 5000 characters to a page.

**The TypeScript paged text state** (`text.ts`) is modelled as well.

Files:

- `wrappers.dfy` (`Wrappers`): `Option` and `Result`.
- `strs.dfy` (`Strs`): character and string primitives.
  - Unicode whitespace, `trim`, the digit tests, prefix and suffix tests.
  - Counting, joining, replacing, and the UTF-8 byte length.
- `lists.dfy` (`Lists`): how a list is read.
  - The Rust split-trim-filter items and Go's `FieldsFunc` fields.
  - The majority delimiter, and split/join lemmas.
- `numbers.dfy` (`Numbers`): number parsing and printing.
  - `u64`/`i64`, Rust's `parse::<u64>` with its error kinds, Go's `strconv.ParseInt`.
  - Decimal printing, and parse/print round trips.
- `errors.dfy` (`Errors`): `AppError` and its display text.
- `crypto.dfy` (`Crypto`): `crypto.rs`.
  - Profiles, the Hashids codec as a parameter, and the encrypt and decrypt decision tables.
  - The global profile and flag, as the class `CryptoState`.
- `commands.dfy` (`Commands`): `commands.rs`.
  - Profile names and the prefix flag commands.
  - The batch commands: a loop proved against a fail-fast specification.
  - The text commands and the upload command.
- `text_processor.dfy` (`TextProcessor`): `text_processor.rs`.
- `oss.rs` is modelled in `oss.dfy` (`Oss`): channels, `validate_content` (a loop), the upload pre-checks, and how the answer to the upload request becomes the result.
- `pages.dfy` (`Pages`): ceiling division for page counts.
- `go_converter.dfy` (`GoConverter`): `main.go`.
  - The codec functions, and the builder loops proved against list specifications.
  - The class `ConverterApp` with its page state.
- `text_state.dfy` (`Text`): `text.ts`.
  - JavaScript `slice` semantics, and page contents.
  - The class `TextState`.

Hashids is a foreign library, so it is not reimplemented. `Crypto.Harsh` and
`GoConverter.GoHashids` hold its `encode` and `decode` as function values.
What the library guarantees is written as predicates:
- `Crypto.Reversible`: `decode(encode(n)) == [n]`, a minimum length, and the alphabet.
- `GoConverter.Reversible` and `GoConverter.RejectsNegatives`.

These predicates are used only as hypotheses of the lemmas that need them.

## Model

| member | source | states |
|---|---|---|
| Crypto.TokenChars | Operation-Kit-Rust/src-tauri/src/crypto.rs:27-32 | both profile alphabets (default and the Huawei one) contain only ASCII letters and digits, so a token's byte length equals its character count |
| Crypto.CryptoConfig.Salt | Operation-Kit-Rust/src-tauri/src/crypto.rs:13-18 | records each profile's salt, non-empty and different for the two profiles ("Tongyong" exactly for General); the codecs built from it are parameters, so nothing else in the model reads it |
| Crypto.CryptoConfig.MinLength | Operation-Kit-Rust/src-tauri/src/crypto.rs:20-25 | every profile asks for at least 12 characters, and only Huawei asks for more (16); the decryption length checks and `Crypto.Reversible` use it |
| Crypto.CryptoConfig.Alphabet | Operation-Kit-Rust/src-tauri/src/crypto.rs:27-32 | General has no alphabet of its own; Huawei's has 36 characters, which are exactly the lower-case ASCII letters and the digits, so none is repeated |
| Crypto.HarshFor | Operation-Kit-Rust/src-tauri/src/crypto.rs:114-119 | the instance picked for a profile keeps Hashids' guarantees for that profile whenever both built instances keep theirs |
| Crypto.RunDecode | Operation-Kit-Rust/src-tauri/src/crypto.rs:202-219 | decoding succeeds exactly when Hashids gives a non-empty list, and returns the first number in decimal; a decoder error and a caught panic map to their two different messages |
| Crypto.Encrypt | Operation-Kit-Rust/src-tauri/src/crypto.rs:121-151 | an empty numeral is refused with "输入不能为空"; encryption succeeds exactly when the numeral parses as `u64` or is all digits, and any other failure is an invalid-input error; with Huawei and the flag on, every token starts with "haot". Its partners are `Crypto.Decrypt` and the lemma `Crypto.RoundTripNumber` |
| Crypto.DecryptHuawei | Operation-Kit-Rust/src-tauri/src/crypto.rs:179-239 | the Huawei branch fails only with decryption errors, and what it returns is all digits; a text without "haot" that starts with "x" or has at least 16 bytes gets the decoder's result (crypto.rs:203-258, stated by `Crypto.RunDecode`) |
| Crypto.Decrypt | Operation-Kit-Rust/src-tauri/src/crypto.rs:153-260 | an empty text is refused with "输入不能为空"; every failure is a decryption error, and every success is all digits; a non-empty text that is not "invalid_hash", not all digits and not caught by the profile's pass-through or length rules gets the decoder's result: the first decoded value in decimal, or a decryption error. `Crypto.RoundTripNumber` shows that it inverts `Crypto.Encrypt` |
| Crypto.CryptoState.constructor | Operation-Kit-Rust/src-tauri/src/crypto.rs:44-48 | the initial state is General with the prefix flag on |
| Crypto.CryptoState.GetCurrentConfig | Operation-Kit-Rust/src-tauri/src/crypto.rs:51-55 | returns the current profile |
| Crypto.CryptoState.SetConfig | Operation-Kit-Rust/src-tauri/src/crypto.rs:58-62 | replaces the profile; the prefix flag is kept |
| Crypto.CryptoState.UseHuaweiPrefix | Operation-Kit-Rust/src-tauri/src/crypto.rs:65-69 | returns the prefix flag |
| Crypto.CryptoState.SetUseHuaweiPrefix | Operation-Kit-Rust/src-tauri/src/crypto.rs:72-76 | replaces the flag; the profile is kept |
| Crypto.CryptoState.EncryptNumber | Operation-Kit-Rust/src-tauri/src/crypto.rs:121-151 | `encrypt_number` reads the current profile and flag, then follows the encryption table `Crypto.Encrypt` |
| Crypto.CryptoState.DecryptText | Operation-Kit-Rust/src-tauri/src/crypto.rs:153-260 | `decrypt_text` reads the current profile, then follows the decryption table `Crypto.Decrypt` |
| Crypto.EncryptEmpty | Operation-Kit-Rust/src-tauri/src/crypto.rs:122-124 | an empty numeral is refused with the encrypt error "输入不能为空" under every profile |
| Crypto.EncryptParsed | Operation-Kit-Rust/src-tauri/src/crypto.rs:125-136 | a numeral that parses as `u64` is encoded as that single number; "haot" is put in front exactly when the profile is Huawei and the flag is on |
| Crypto.EncryptUnparsed | Operation-Kit-Rust/src-tauri/src/crypto.rs:137-149 | an unparsable numeral with a non-digit is refused with "输入必须为数字: " and the parse error; an all-digit one is at least 2^64 and comes back with the prefix "haot" or "x", unencoded |
| Crypto.DecryptRejectsEarly | Operation-Kit-Rust/src-tauri/src/crypto.rs:154-166 | an empty text, the literal "invalid_hash" and an all-digit text are refused, identically under both profiles; every one of them but the empty text with "无效的加密字符串" |
| Crypto.DecryptSentinel | Operation-Kit-Rust/src-tauri/src/crypto.rs:172-176 | under General, "x" followed by digits decrypts to those digits |
| Crypto.SentinelTokenMisread | Operation-Kit-Rust/src-tauri/src/crypto.rs:172-176 | if Hashids writes a General token that is "x" followed by digits, decryption returns those digits instead of decoding it, so the numeral is lost |
| Crypto.DecryptHuaweiTooShort | Operation-Kit-Rust/src-tauri/src/crypto.rs:179-185 | under Huawei, a text shorter than 16 bytes that starts with neither "haot" nor "x" is refused with the too-short message |
| Crypto.DecryptHuaweiPrefixed | Operation-Kit-Rust/src-tauri/src/crypto.rs:188-219 | the cases for a "haot"-prefixed text under Huawei: all digits after the prefix are returned as they are; a non-digit rest under 16 bytes gets the after-prefix message; any rest of 16 bytes or more never gets a length error and goes to the decoder |
| Crypto.HuaweiPrefixTokenMisread | Operation-Kit-Rust/src-tauri/src/crypto.rs:188-219 | if Hashids writes a Huawei token that starts with "haot" while the flag is off, decryption strips those four characters and decodes, or length-checks, only the rest |
| Crypto.DecryptShortToken | Operation-Kit-Rust/src-tauri/src/crypto.rs:300-321 | the 14-byte test token "07p59j4wqvk4ze" is refused under Huawei with the too-short message |
| Crypto.DecryptLongPrefixed | Operation-Kit-Rust/src-tauri/src/crypto.rs:323-344 | the test token "haot" plus 22 letters never fails on a length check under Huawei |
| Crypto.RejectedLiteralNotAToken | Operation-Kit-Rust/src-tauri/src/crypto.rs:158-161 | no token over either alphabet is "invalid_hash" (it has an underscore), so that special case never hides a real token |
| Crypto.RoundTripNumber | Operation-Kit-Rust/src-tauri/src/crypto.rs:121-260 | encrypting a `u64` numeral and decrypting the result under the same profile gives the numeral back; this needs a reversible codec and a token the decryption table does not intercept |
| Crypto.RoundTripOversized | Operation-Kit-Rust/src-tauri/src/crypto.rs:141-147 | a numeral too large for `u64` round-trips under General, and under Huawei with the prefix on |
| Crypto.OversizedLostWithoutPrefix | Operation-Kit-Rust/src-tauri/src/crypto.rs:143-147 | under Huawei with the prefix off, an oversized numeral becomes "x…", and decryption does not give it back |
| Crypto.DigitTokenNotDecoded | Operation-Kit-Rust/src-tauri/src/crypto.rs:163-166 | if Hashids writes a token of digits only, it does not round-trip: with the prefix on, decryption returns the token itself, undecoded, and without the prefix it refuses the token |
| Crypto.CrossProfileRejection | Operation-Kit-Rust/src-tauri/src/crypto.rs:266-297 | a short General token (under 16 bytes, no "x" or "haot" in front) is refused under Huawei with the too-short message |
| Commands.ProfileFromName | Operation-Kit-Rust/src-tauri/src/commands.rs:24-29 | exactly the two names "通用" and "华为" are accepted, each mapping to its profile |
| Commands.ProfileName | Operation-Kit-Rust/src-tauri/src/commands.rs:14-20 | the reported name is "通用" or "华为", and `set_crypto_config` maps it back to the same profile |
| Commands.ProfileNameRoundTrip | Operation-Kit-Rust/src-tauri/src/commands.rs:14-29 | the name `get_crypto_config` reports is accepted by `set_crypto_config` and maps back to the same profile |
| Commands.GetCryptoConfig | Operation-Kit-Rust/src-tauri/src/commands.rs:14-20 | always succeeds, with the name of the current profile |
| Commands.SetCryptoConfig | Operation-Kit-Rust/src-tauri/src/commands.rs:24-33 | a valid name sets that profile; any other name is refused with the invalid-name message and the state is unchanged |
| Commands.GetHuaweiPrefixConfig | Operation-Kit-Rust/src-tauri/src/commands.rs:101-103 | always succeeds, with the flag |
| Commands.SetHuaweiPrefixConfig | Operation-Kit-Rust/src-tauri/src/commands.rs:107-110 | always succeeds; sets the flag and keeps the profile |
| Commands.SetThenGet | Operation-Kit-Rust/src-tauri/src/commands.rs:14-33 | getting after setting a valid name gives that name back |
| Commands.MapAll | Operation-Kit-Rust/src-tauri/src/commands.rs:46-54 | the collected results succeed exactly when every item succeeds, and then they hold each item's result in order |
| Commands.MapAllFirstError | Operation-Kit-Rust/src-tauri/src/commands.rs:47-52 | on failure, the error comes from the first failing item; every earlier item succeeded |
| Commands.MapAllStep | Operation-Kit-Rust/src-tauri/src/commands.rs:46-54 | one more item keeps an earlier error, turns a failing item into the error, and otherwise appends the item's result |
| Commands.Batch | Operation-Kit-Rust/src-tauri/src/commands.rs:37-54 | a batch succeeds exactly when every item does, and an input with no items gives ""; `Commands.BatchFailsFirst` and `Commands.BatchJoinsResults` add the first error and the joined results |
| Commands.BatchEncrypt | Operation-Kit-Rust/src-tauri/src/commands.rs:36-55 | batch encryption succeeds exactly when `Crypto.Encrypt` succeeds on every item; `Commands.BatchRoundTrip` shows that `Commands.BatchDecrypt` inverts it |
| Commands.BatchDecrypt | Operation-Kit-Rust/src-tauri/src/commands.rs:58-77 | batch decryption succeeds exactly when `Crypto.Decrypt` succeeds on every item |
| Commands.BatchFailsFirst | Operation-Kit-Rust/src-tauri/src/commands.rs:36-77 | a batch succeeds exactly when every item does; otherwise it reports the display text of the first failing item's error |
| Commands.BatchJoinsResults | Operation-Kit-Rust/src-tauri/src/commands.rs:43-54 | a successful batch is the per-item results joined by the majority delimiter |
| Commands.BatchBlank | Operation-Kit-Rust/src-tauri/src/commands.rs:37-41 | an input with no items gives the empty string |
| Commands.RunBatch | Operation-Kit-Rust/src-tauri/src/commands.rs:37-54 | the loop over items, with early return on the first error, computes the batch specification |
| Commands.ProcessBatchEncrypt | Operation-Kit-Rust/src-tauri/src/commands.rs:36-55 | `process_batch_encrypt` equals the batch of `encrypt_number` under the current profile and flag |
| Commands.ProcessBatchDecrypt | Operation-Kit-Rust/src-tauri/src/commands.rs:58-77 | `process_batch_decrypt` equals the batch of `decrypt_text` under the current profile |
| Commands.DecimalIsItem | Operation-Kit-Rust/src-tauri/src/commands.rs:43-45 | a decimal numeral is a list item |
| Commands.EncryptedIsItem | Operation-Kit-Rust/src-tauri/src/crypto.rs:125-136 | with a reversible codec, an encrypted `u64` numeral is its token, with "haot" in front when that is on; the token is a list item (no separator, no blank), so it survives being joined into a list |
| Commands.BatchEncryptDecimals | Operation-Kit-Rust/src-tauri/src/commands.rs:36-55 | with a reversible codec, batch-encrypting numerals joined by one delimiter gives their tokens joined by the same delimiter |
| Commands.BatchDecryptTokens | Operation-Kit-Rust/src-tauri/src/commands.rs:58-77 | with a reversible codec, batch-decrypting tokens joined by one delimiter gives the numerals back, with the same delimiter |
| Commands.BatchRoundTrip | Operation-Kit-Rust/src-tauri/src/commands.rs:36-77 | batch-encrypting a list of `u64` numerals and batch-decrypting the output gives the same list with the same delimiter; this needs a reversible codec and unintercepted tokens |
| Commands.BatchRoundTripExample | Operation-Kit-Rust/src-tauri/src/commands.rs:129-135 | the command test: "12345,67890" survives batch encrypt then batch decrypt under General |
| Commands.TextCommandsRefuseEmpty | Operation-Kit-Rust/src-tauri/src/commands.rs:79-97 | the four text commands fail exactly on the empty input, all with "格式转换错误: 输入不能为空" |
| Commands.ProcessConvertFormat | Operation-Kit-Rust/src-tauri/src/commands.rs:80-82 | fails exactly on the empty input, with "格式转换错误: 输入不能为空", and otherwise returns what `convert_format` returns |
| Commands.ProcessReplaceCommas | Operation-Kit-Rust/src-tauri/src/commands.rs:85-87 | fails exactly on the empty input, with the same text, and otherwise returns what `replace_chinese_commas` returns |
| Commands.ProcessAddQuotes | Operation-Kit-Rust/src-tauri/src/commands.rs:90-92 | fails exactly on the empty input, with the same text, and otherwise returns what `add_quotes` returns |
| Commands.ProcessRemoveQuotes | Operation-Kit-Rust/src-tauri/src/commands.rs:95-97 | fails exactly on the empty input, with the same text, and otherwise returns what the guarded `remove_quotes` returns |
| Commands.FormatCommandRoundTrip | Operation-Kit-Rust/src-tauri/src/commands.rs:137-143 | the command test: "1,2,3" converts to "1\n2\n3", and that converts back to "1,2,3" |
| Commands.UploadToOss | Operation-Kit-Rust/src-tauri/src/commands.rs:114-122 | an unknown channel is refused first, with its message. For a known channel, blank credentials are refused with the credentials message, then blank content with the empty-content message, then content with a bad line with the message naming the first bad line. Content that passes goes on to the header check and the request. Success means all of these passed and the server answered 2xx, and the result is "成功上传到 OSS 路径: Bucket.endpoint/" followed by the channel's object path |
| Errors.DisplayInjective | Operation-Kit-Rust/src-tauri/src/error.rs:3-16 | different errors display as different texts |
| Numbers.ParseU64 | Operation-Kit-Rust/src-tauri/src/crypto.rs:125 | `text.parse::<u64>()`: `Empty` exactly for ""; success exactly for an optional '+' then at least one digit with a value below 2^64, giving that value; a digit string too large fails with `PosOverflow`, the error whose text crypto.rs:139 shows |
| Numbers.ParseInt64 | Operation-Kit-Go/main.go:42 | `strconv.ParseInt(text, 10, 64)`: a text that is an optional '+' or '-' followed by at least one digit is accepted exactly when the digits' value is below 2^63, or at most 2^63 after a '-' (so "+5", "007", "-007" and "-9223372036854775808" succeed); every success has that shape, the value's size is the digits' value, and a negative value comes only from a '-' |
| Numbers.FormatInt | Operation-Kit-Go/main.go:59 | `strconv.FormatInt(n, 10)`: a '-' exactly for a negative value, followed by the digits of its size; `Numbers.ParseInt64Decimal` parses it back |
| Numbers.ParseU64Decimal | Operation-Kit-Rust/src-tauri/src/crypto.rs:125 | the decimal form of any `u64` parses back to that number |
| Numbers.ParseInt64Decimal | Operation-Kit-Go/main.go:42-59 | what `FormatInt` prints, `ParseInt` reads back as the same value |
| Lists.Split | Operation-Kit-Rust/src-tauri/src/commands.rs:37-38 | splitting at '\n' and ',' gives at least one piece, none holding a separator |
| Lists.Items | Operation-Kit-Rust/src-tauri/src/commands.rs:37-41 | every item is non-empty, trimmed and free of separators; `Lists.ItemsOfJoin` shows that items joined by one delimiter read back as themselves |
| Lists.Fields | Operation-Kit-Go/main.go:65-67 | every field is non-empty and free of separators |
| Lists.MajorityDelimiter | Operation-Kit-Rust/src-tauri/src/commands.rs:43-44 | the delimiter is "\n" exactly when the input has more '\n' than ',', and "," otherwise |
| Lists.SplitJoin | Operation-Kit-Rust/src-tauri/src/commands.rs:37-38 | splitting undoes joining pieces free of separators |
| Lists.ItemsOfJoin | Operation-Kit-Rust/src-tauri/src/commands.rs:37-41 | items joined by "\n" or "," read back as the same items |
| Lists.DelimiterOfJoin | Operation-Kit-Rust/src-tauri/src/commands.rs:43-44 | a join by `d` of two items or more, or a join by ",", has `d` as its majority delimiter |
| Lists.NormalizeIdempotent | Operation-Kit-Rust/src-tauri/src/commands.rs:37-54 | rebuilding a list from its items and majority delimiter a second time changes nothing |
| TextProcessor.OppositeDelimiter | Operation-Kit-Rust/src-tauri/src/text_processor.rs:8-15 | `convert_format` joins with "," exactly when the input mostly uses newlines |
| TextProcessor.ConvertFormat | Operation-Kit-Rust/src-tauri/src/text_processor.rs:3-17 | fails exactly on the empty input, with the format error |
| TextProcessor.ConvertFormatTwice | Operation-Kit-Rust/src-tauri/src/text_processor.rs:3-17 | for two items or more, converting twice gives the items joined with the original majority delimiter |
| TextProcessor.ConvertFormatOfJoin | Operation-Kit-Rust/src-tauri/src/text_processor.rs:3-17 | a list of items joined by one delimiter converts to the same items joined by the other |
| TextProcessor.ConvertFormatExample | Operation-Kit-Rust/src-tauri/src/text_processor.rs:84-93 | "1,2,3" converts to "1\n2\n3", and that converts back |
| TextProcessor.ReplaceChineseCommas | Operation-Kit-Rust/src-tauri/src/text_processor.rs:19-24 | empty input fails; otherwise the result has the same length, each '，' becomes ',', every other character is kept, and no '，' remains |
| TextProcessor.ReplaceChineseCommasExample | Operation-Kit-Rust/src-tauri/src/text_processor.rs:95-100 | "1，2，3" becomes "1,2,3" |
| TextProcessor.Quote | Operation-Kit-Rust/src-tauri/src/text_processor.rs:41-47 | an item with no quote at either end is wrapped in quotes; any other item is kept |
| TextProcessor.QuoteAll | Operation-Kit-Rust/src-tauri/src/text_processor.rs:40-48 | one quoted item per input item, in order |
| TextProcessor.AddQuotes | Operation-Kit-Rust/src-tauri/src/text_processor.rs:26-51 | fails exactly on the empty input |
| TextProcessor.QuoteIsItem | Operation-Kit-Rust/src-tauri/src/text_processor.rs:41-47 | quoting keeps an item an item |
| TextProcessor.AddQuotesItems | Operation-Kit-Rust/src-tauri/src/text_processor.rs:26-51 | reading the output back gives the quoted input items in order; the delimiter is kept when there are two items or it is "," |
| TextProcessor.UnquoteAsWritten | Operation-Kit-Rust/src-tauri/src/text_processor.rs:68-74 | the slice `item[1..len-1]` panics exactly on the lone item "'"; other items quoted at both ends lose their quotes |
| TextProcessor.UnquoteAllAsWritten | Operation-Kit-Rust/src-tauri/src/text_processor.rs:66-75 | the mapped items panic exactly when one item is "'" |
| TextProcessor.RemoveQuotesAsWritten | Operation-Kit-Rust/src-tauri/src/text_processor.rs:53-78 | `remove_quotes` as written panics exactly when the input is not empty and one of its items is "'" |
| TextProcessor.LoneQuotePanics | Operation-Kit-Rust/src-tauri/src/text_processor.rs:69-70 | the input "'" makes `remove_quotes` panic |
| TextProcessor.Unquote | Operation-Kit-Rust/src-tauri/src/text_processor.rs:68-74 | with a length guard: an item of two characters or more, quoted at both ends, loses its quotes; any other item is kept |
| TextProcessor.UnquoteAll | Operation-Kit-Rust/src-tauri/src/text_processor.rs:66-75 | one unquoted item per input item, in order |
| TextProcessor.RemoveQuotes | Operation-Kit-Rust/src-tauri/src/text_processor.rs:53-78 | the guarded version fails exactly on the empty input |
| TextProcessor.RemoveQuotesAgrees | Operation-Kit-Rust/src-tauri/src/text_processor.rs:53-78 | wherever the code as written does not panic, it returns what the guarded version returns |
| TextProcessor.RemoveQuotesFields | Operation-Kit-Rust/src-tauri/src/text_processor.rs:59-77 | the output has exactly one field per input item, each the unquoted item; it keeps the majority delimiter when there are two items or the delimiter is "," |
| TextProcessor.UnquoteQuote | Operation-Kit-Rust/src-tauri/src/text_processor.rs:41-47 | unquoting undoes quoting for a non-empty item that is not already quoted at both ends |
| TextProcessor.RemoveAddQuotes | Operation-Kit-Rust/src-tauri/src/text_processor.rs:26-78 | when no item is quoted at both ends, removing quotes after adding them gives the list's items joined with its majority delimiter |
| TextProcessor.AddQuotesNonEmpty | Operation-Kit-Rust/src-tauri/src/text_processor.rs:26-51 | a text with at least one item gets a non-empty quoted output |
| TextProcessor.UnquoteQuoteAll | Operation-Kit-Rust/src-tauri/src/text_processor.rs:41-74 | unquoting every item undoes quoting every item, when none is empty or already quoted at both ends |
| TextProcessor.AddQuotesOfJoin | Operation-Kit-Rust/src-tauri/src/text_processor.rs:26-51 | a list of items joined by one delimiter comes back with every item quoted and the same delimiter |
| TextProcessor.RemoveQuotesOfJoin | Operation-Kit-Rust/src-tauri/src/text_processor.rs:53-78 | a list of items joined by one delimiter comes back with every item unquoted and the same delimiter |
| TextProcessor.QuoteOneChar | Operation-Kit-Rust/src-tauri/src/text_processor.rs:41-74 | a one-character item other than the quote is wrapped, and unquoting the result gives it back |
| TextProcessor.QuoteThreeChars | Operation-Kit-Rust/src-tauri/src/text_processor.rs:41-74 | three one-character items other than the quote are each wrapped, and unquoting gives them back |
| TextProcessor.AddQuotesExample | Operation-Kit-Rust/src-tauri/src/text_processor.rs:102-110 | "1,2,3" becomes "'1','2','3'" |
| TextProcessor.RemoveQuotesExample | Operation-Kit-Rust/src-tauri/src/text_processor.rs:102-110 | "'1','2','3'" becomes "1,2,3" |
| Oss.AsStr | Operation-Kit-Rust/src-tauri/src/oss.rs:29-36 | a channel name is non-empty lower-case ASCII |
| Oss.ToLower | Operation-Kit-Rust/src-tauri/src/oss.rs:19 | the lower-cased text has the same length; every ASCII capital becomes its small letter and every other character is kept |
| Oss.ChannelFromStr | Operation-Kit-Rust/src-tauri/src/oss.rs:18-26 | succeeds exactly when the lower-cased input is a channel name, and then returns that channel; otherwise the message is "不支持的渠道: " and the input as given |
| Oss.ChannelRoundTrip | Operation-Kit-Rust/src-tauri/src/oss.rs:18-36 | parsing a channel's name gives the channel back |
| Oss.ChannelExamples | Operation-Kit-Rust/src-tauri/src/oss.rs:186-194 | "vivo" and "OPPO" parse, "invalid" does not |
| Oss.SplitNewlines | Operation-Kit-Rust/src-tauri/src/oss.rs:156 | the pieces between '\n' characters: at least one, and none holds a '\n' |
| Oss.SplitNewlinesAt | Operation-Kit-Rust/src-tauri/src/oss.rs:156 | a text with its first '\n' after `a` splits into `a` followed by the pieces of the rest |
| Oss.PieceLines | Operation-Kit-Rust/src-tauri/src/oss.rs:156 | `str::lines` keeps one line per piece, except that an empty final piece (after a trailing '\n') gives no line |
| Oss.Lines | Operation-Kit-Rust/src-tauri/src/oss.rs:156 | the empty text has no lines |
| Oss.CheckLines | Operation-Kit-Rust/src-tauri/src/oss.rs:156-167 | the loop accepts exactly when every line is blank or all digits once trimmed; otherwise it reports the first bad line, 1-based and trimmed |
| Oss.FirstBadLineAt | Operation-Kit-Rust/src-tauri/src/oss.rs:157-165 | a bad line after only good ones is the first bad line, reported with its 1-based number and trimmed text, and the lines are then not all numeric |
| Oss.ContentErrorMessage | Operation-Kit-Rust/src-tauri/src/oss.rs:153-163 | blank content gets "内容不能为空" and no other error does; a bad line's message contains its 1-based number and the trimmed line |
| Oss.ValidateContent | Operation-Kit-Rust/src-tauri/src/oss.rs:151-168 | blank content is refused as empty; otherwise the result is that of the line check |
| Oss.ThreePieces | Operation-Kit-Rust/src-tauri/src/oss.rs:156 | three pieces without '\n', joined by '\n', split back into those three pieces |
| Oss.ThreePieceLines | Operation-Kit-Rust/src-tauri/src/oss.rs:156 | three pieces, the last non-empty and none of the others ending in '\r', are kept as three lines |
| Oss.ThreeLines | Operation-Kit-Rust/src-tauri/src/oss.rs:156 | three pieces joined by '\n', none ending in '\r', are three lines |
| Oss.ValidContentExample | Operation-Kit-Rust/src-tauri/src/oss.rs:175-178 | "123\n456\n789" is accepted |
| Oss.InvalidContentExample | Operation-Kit-Rust/src-tauri/src/oss.rs:181-184 | "123\nabc\n789" is refused at line 2, reporting "abc" |
| Oss.ObjectPath | Operation-Kit-Rust/src-tauri/src/oss.rs:69-71 | the path starts with "hive2/dim/tmp_" and ends with ".txt" |
| Oss.ObjectPathInjective | Operation-Kit-Rust/src-tauri/src/oss.rs:69-71 | different channels get different paths |
| Oss.UploadPrecheck | Operation-Kit-Rust/src-tauri/src/oss.rs:49-71 | blank credentials are refused first; then blank content is refused as empty, and other content passes exactly when every line is numeric, else with the message naming the first bad line, 1-based and trimmed; success returns the channel's object path |
| Oss.ErrorDetail | Operation-Kit-Rust/src-tauri/src/oss.rs:135-136 | the body text of a failed answer when it was read, and the stand-in "无法获取错误详情" when it could not be |
| Oss.ResponseResult | Operation-Kit-Rust/src-tauri/src/oss.rs:121-147 | the result is Ok exactly for a 2xx answer, and then it is the success message with "Bucket.endpoint/" and the path; a failed send gives "发送请求失败: " and its reason; for a failed answer, a body naming "InvalidAccessKeyId" gives the bad-ID message, else one naming "SignatureDoesNotMatch" the bad-key message, else one naming "NetworkingError" or "Connection refused" the network message, and any other body gives "上传到OSS失败: HTTP " followed by the status, ", 错误: " and the body |
| Oss.HasTextInside | Operation-Kit-Rust/src-tauri/src/oss.rs:138 | `contains` finds a text wherever it is written inside another |
| Oss.InvalidAccessKeyIdReported | Operation-Kit-Rust/src-tauri/src/oss.rs:134-139 | a failed answer whose body names "InvalidAccessKeyId" anywhere is reported as a bad access ID |
| Oss.UploadIdsToOss | Operation-Kit-Rust/src-tauri/src/oss.rs:49-148 | the blank-credentials, empty-content and first-bad-line errors in that order. Then an access ID with a control character fails as an invalid header, and otherwise the answer decides. It succeeds exactly when every check passed and the answer is 2xx, and then returns the success message for the channel's object path |
| Oss.UploadedMessageInjective | Operation-Kit-Rust/src-tauri/src/oss.rs:69-71 | the success messages of different channels differ, so the message tells where the IDs went |
| GoConverter.Encrypt | Operation-Kit-Go/main.go:41-51 | returns the text unchanged when it does not parse as `int64` or the encoder refuses the parsed value; otherwise it returns the encoder's token for that value, for any accepted spelling such as "+5" or "007" |
| GoConverter.Decrypt | Operation-Kit-Go/main.go:54-60 | returns the text unchanged on a decode error or an empty result; otherwise the first value in decimal |
| GoConverter.RoundTrip | Operation-Kit-Go/main.go:41-60 | a non-negative value written in decimal comes back from decrypt after encrypt |
| GoConverter.NegativePassesThrough | Operation-Kit-Go/main.go:42-49 | a negative numeral is returned unchanged, since the encoder refuses it |
| GoConverter.JoinTrimmed | Operation-Kit-Go/main.go:74-81 | the builder loop writes the converted trimmed fields, separated by the delimiter |
| GoConverter.EncryptedList | Operation-Kit-Go/main.go:63-82 | an input with no fields gives ""; `GoConverter.EncryptedFields` states the fields of the output |
| GoConverter.DecryptedList | Operation-Kit-Go/main.go:85-104 | an input with no fields gives ""; `GoConverter.DecryptedFields` states the fields of the output |
| GoConverter.ConvertedList | Operation-Kit-Go/main.go:107-130 | an input with no fields gives ""; `GoConverter.ConvertTwice` shows that converting twice restores the trimmed fields |
| GoConverter.EncryptedFields | Operation-Kit-Go/main.go:63-82 | with a codec that writes alphanumeric tokens and refuses negatives, the output of `encryptBatch` has exactly one field per input field, blank ones included, each the encryption of the trimmed field |
| GoConverter.DecryptedFields | Operation-Kit-Go/main.go:85-104 | likewise, one decrypted field per input field |
| GoConverter.EachTrimmed | Operation-Kit-Go/main.go:74-81 | one output per field, each the conversion of the trimmed field |
| GoConverter.FieldsOfJoin | Operation-Kit-Go/main.go:66 | items joined by one delimiter split back into the same items, which trimming keeps |
| GoConverter.ConvertTwice | Operation-Kit-Go/main.go:107-130 | with two or more non-blank fields, converting twice gives the trimmed fields joined with the original majority delimiter |
| GoConverter.ContainsDelimiter | Operation-Kit-Go/main.go:139-142 | the quote operations join with "\n" exactly when the text contains one |
| GoConverter.WrapQuotes | Operation-Kit-Go/main.go:466-472 | an item quoted at both ends is kept; any other item is wrapped; either way the result is quoted at both ends |
| GoConverter.QuotedList | Operation-Kit-Go/main.go:445-476 | a text with no fields gives ""; `GoConverter.RemoveAddQuotes` shows that removing quotes undoes it |
| GoConverter.UnquotedListAsWritten | Operation-Kit-Go/main.go:133-156 | `removeQuotes` as written panics exactly when some trimmed field is "'" |
| GoConverter.UnwrapWrap | Operation-Kit-Go/main.go:147-152 | unquoting undoes wrapping for an item not already quoted at both ends |
| GoConverter.LoneQuoteCrashes | Operation-Kit-Go/main.go:149-150 | the text "'" makes `removeQuotes` panic |
| GoConverter.UnquotedListAgrees | Operation-Kit-Go/main.go:133-156 | wherever the code as written does not panic, it agrees with the guarded version |
| GoConverter.UnquotedList | Operation-Kit-Go/main.go:133-156 | a text with no fields gives ""; with the length guard, `GoConverter.UnquotedListAgrees` ties it to the code as written |
| GoConverter.RemoveAddQuotes | Operation-Kit-Go/main.go:445-476 | removing quotes after adding them gives back the trimmed fields when none was quoted at both ends |
| GoConverter.QuotedDelimiter | Operation-Kit-Go/main.go:139-142 | a list of two items or more joined by one delimiter is recognised as using that delimiter |
| GoConverter.WrapItem | Operation-Kit-Go/main.go:466-472 | the branch of the add loop computes the wrapped item |
| GoConverter.AddQuotesChunked | Operation-Kit-Go/main.go:445-474 | the add loop, taking items in chunks of 1000, produces the quoted list; the chunking does not change the result |
| GoConverter.ReplaceCommasChunked | Operation-Kit-Go/main.go:402-416 | the chunked loop maps each '，' to ',' and keeps every other character, whatever the chunk boundaries |
| GoConverter.PageOf | Operation-Kit-Go/main.go:364-371 | page p has min(5000, what is left) characters and continues the text right after the first p-1 pages |
| GoConverter.PageOfAgrees | Operation-Kit-Go/main.go:364-371 | the Go page equals the page `getPageContent` gives for the same text and page |
| GoConverter.PageLabel | Operation-Kit-Go/main.go:374 | the label starts with "第 " and ends with " 页" |
| GoConverter.ConverterApp.constructor | Operation-Kit-Go/main.go:158-174 | empty entries; each view is on page 1 of 0 pages |
| GoConverter.ConverterApp.InputText | Operation-Kit-Go/main.go:206-209 | the pasted full text when there is one, otherwise the entry; it is empty only when both are |
| GoConverter.ConverterApp.EncryptBatch | Operation-Kit-Go/main.go:63-82 | the loop computes the encrypted list |
| GoConverter.ConverterApp.DecryptBatch | Operation-Kit-Go/main.go:85-104 | the loop computes the decrypted list |
| GoConverter.ConverterApp.ShowCurrentPage | Operation-Kit-Go/main.go:357-378 | the output entry shows the current page, or nothing when there is no output; the label shows only when there is more than one page; nothing else changes |
| GoConverter.ConverterApp.ShowInputPage | Operation-Kit-Go/main.go:309-330 | the same for the input view |
| GoConverter.ConverterApp.GoToPage | Operation-Kit-Go/main.go:380-389 | a page outside 1 to `totalPages` leaves everything unchanged; any other page becomes current and is shown, and the label reads that page of `totalPages` when there is more than one page, and is empty otherwise; the page invariant holds |
| GoConverter.ConverterApp.GoToInputPage | Operation-Kit-Go/main.go:332-341 | the same for the input view and its label |
| GoConverter.ConverterApp.PublishOutput | Operation-Kit-Go/main.go:480-484 | a new output becomes the full output with its page count; the output view goes to page 1 and shows the first page, with the label only when there is more than one page; the input view is unchanged |
| GoConverter.ConverterApp.PublishInput | Operation-Kit-Go/main.go:485-489 | the same for a new input and the input view |
| GoConverter.ConverterApp.EncryptInput | Operation-Kit-Go/main.go:202-213 | the output becomes the encrypted input text (the full input, or the entry when that is empty); the output view goes to page 1, shows the first page, and shows the page label only when there is more than one page |
| GoConverter.ConverterApp.DecryptInput | Operation-Kit-Go/main.go:214-225 | the output becomes the decrypted input text; the output view goes to page 1, shows the first page, and shows the page label only when there is more than one page |
| GoConverter.ConverterApp.UpdateOutput | Operation-Kit-Go/main.go:343-355 | the output becomes the converted input text; the output view goes to page 1, shows the first page, and shows the page label only when there is more than one page |
| GoConverter.ConverterApp.ReplaceCommas | Operation-Kit-Go/main.go:391-422 | the input becomes the input text with every '，' replaced; the input view goes to page 1, shows the first page, and shows the page label only when there is more than one page |
| GoConverter.ConverterApp.AddRemoveQuotes | Operation-Kit-Go/main.go:424-491 | an empty text changes nothing; otherwise the chosen view gets the quoted or unquoted text, goes to page 1 and shows its first page, with the label only when there is more than one page; the other view's text, entry, page, page count and label are unchanged |
| GoConverter.ConvertFormat | Operation-Kit-Go/main.go:107-130 | the loop computes the converted list |
| GoConverter.RemoveQuotes | Operation-Kit-Go/main.go:133-156 | the loop computes the unquoted list, with the length guard |
| Text.CalculatePages | Operation-Kit-Rust/src/utils/text.ts:5-7 | the smallest page count whose pages hold the text: zero exactly for the empty text |
| Text.Slice | Operation-Kit-Rust/src/utils/text.ts:12 | a slice is no longer than its requested range |
| Text.GetPageContent | Operation-Kit-Rust/src/utils/text.ts:9-13 | a page has at most 5000 characters; for page 1 or later it is the characters from (page-1)*5000 to page*5000, clipped to the text |
| Text.PageInRange | Operation-Kit-Rust/src/utils/text.ts:5-13 | a page between the first and the last is non-empty and holds min(5000, what is left) characters |
| Text.FirstPagesPrefix | Operation-Kit-Rust/src/utils/text.ts:9-13 | the first k pages, put together, are the first k*5000 characters, or the whole text |
| Text.PagesCoverText | Operation-Kit-Rust/src/utils/text.ts:5-13 | all the pages in order are the whole text, with no character lost or repeated |
| Text.TextState.constructor | Operation-Kit-Rust/src/utils/text.ts:15-25 | empty text on page 1 of 1, with a page size of 5000 |
| Text.TextState.UpdateTextState | Operation-Kit-Rust/src/utils/text.ts:27-34 | a full update stores the text, sets the page count to max(1, pages) and goes back to page 1; a partial update changes only the shown page; either way the shown page is refreshed and the state invariant is kept |
| Text.TextState.GoToPage | Operation-Kit-Rust/src/utils/text.ts:36-40 | a page outside 1 to `totalPages` leaves the state unchanged; any other page becomes current and is shown; the state invariant is kept |
| Text.ValidScreen | Operation-Kit-Rust/src/utils/text.ts:27-40 | in a valid state the screen holds at most one page, and it is empty only when the whole text is empty |

## Left out

- The Hashids algorithm itself (the `harsh` crate and `go-hashids`) is not modelled. It is a parameter, and its guarantees are hypotheses.
- The Go codec's construction (salt "Yout_Salt", minimum length 12) is fixed in `main.go:158-163`. Only the minimum length enters `GoConverter.Reversible`.
- `Mutex`, `OnceLock` and lazy instance building are not modelled; the shared state is a plain class.
  - The batch commands read the profile once per batch. The source re-reads it for every item, which only matters under concurrent writes.
- The upload request is network I/O, so only its answer is modelled, as the parameter `Oss.PutResponse` of `Oss.UploadIdsToOss` and `Commands.UploadToOss`. The date, the MD5 digest, the HMAC-SHA1 signature and the HTTP exchange are not modelled. `reqwest`'s texts for a failed send and for a status are taken as they are given.
- The Fyne widgets and layout, clipboard paste and copy, dialogs, `clearText` and `main` are not modelled, because they are UI. Entries and labels are modelled as string fields.
- Go's `math.Ceil` and TypeScript's `Math.ceil` on floating point are replaced by integer ceiling division. The two agree for every length of text a program can hold.
- String lengths are counted in characters. This matches Go's rune count. TypeScript counts UTF-16 code units, so the two differ only outside the Basic Multilingual Plane. Rust's byte lengths are modelled exactly with UTF-8 widths.
- Oss.ToLower: lower-cases ASCII letters only, whereas Rust's `to_lowercase` follows full Unicode. The only non-ASCII character that lower-cases into ASCII is the Kelvin sign, which maps to 'k', and no channel name contains a 'k'. So the accepted set of names is the same.
- Commands.ProcessRemoveQuotes uses the guarded unquoting. The panic of the code as written is modelled separately, in `TextProcessor.RemoveQuotesAsWritten`.
- TextProcessor.RemoveQuotes: the guard keeps a lone "'" as it is, where text_processor.rs:69-70 panics. `TextProcessor.RemoveQuotesAsWritten` models the panic.
- GoConverter.RemoveQuotes: the guard keeps a lone "'" as it is, where main.go:149-150 panics. `GoConverter.UnquotedListAsWritten` models the crash.
- GoConverter.ConverterApp.AddRemoveQuotes: its remove branch uses the guarded `GoConverter.RemoveQuotes`. The crash on a lone "'" is modelled by `GoConverter.UnquotedListAsWritten`.
- `TextState.pageInfo` is a nested object in TypeScript. It is flattened into the fields `currentPage`, `totalPages` and `pageSize`. A page number is an integer here, while JavaScript would accept any number.

## Findings

| source | as written | input that shows it | evidently intended | confidence | as-written member | corrected member |
|---|---|---|---|---|---|---|
| Operation-Kit-Rust/src-tauri/src/text_processor.rs:69-70 | an item that starts and ends with `'` is sliced as `item[1..item.len()-1]` | the input "'": the item "'" starts and ends with the quote, and the slice `[1..0]` panics | a lone quote is kept as it is, like any item too short to hold a pair of quotes | high (not executed) | TextProcessor.LoneQuotePanics | TextProcessor.RemoveQuotes |
| Operation-Kit-Go/main.go:149-150 | a field that starts and ends with `'` is sliced as `item[1 : len(item)-1]` | the text "'": the slice `[1:0]` panics inside the button handler and ends the program | a lone quote is kept as it is | high (not executed) | GoConverter.LoneQuoteCrashes | GoConverter.RemoveAddQuotes |

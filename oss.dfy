/**
 * The checks `oss.rs` runs before an upload: the channel names, the
 * credential pre-check, the one-numeric-ID-per-line content validation and
 * the object path. The upload itself (signing, hashing, HTTP) is not part of
 * this model.
 */
module Oss {
  import opened Wrappers
  import opened Strs
  import opened Numbers

  // ---------------------------------------------------------------------
  // Channels

  datatype Channel = Vivo | Oppo | Huawei | Xiaomi

  predicate IsLowerAscii(s: string) {
    forall i :: 0 <= i < |s| ==> 'a' <= s[i] <= 'z'
  }

  /** `Channel::as_str`: the lower-case channel name. */
  function AsStr(c: Channel): (s: string)
    ensures s != [] && IsLowerAscii(s)
  {
    match c
    case Vivo => "vivo"
    case Oppo => "oppo"
    case Huawei => "huawei"
    case Xiaomi => "xiaomi"
  }

  function ToLowerChar(c: char): (l: char)
    ensures 'A' <= c <= 'Z' ==> l as int == c as int + 32
    ensures !('A' <= c <= 'Z') ==> l == c
  {
    if 'A' <= c <= 'Z' then (c as int + 32) as char else c
  }

  /** `to_lowercase` on the letters that matter here: ASCII capitals become small letters. */
  function ToLower(s: string): (r: string)
    ensures |r| == |s|
    ensures forall i :: 0 <= i < |s| ==> r[i] == ToLowerChar(s[i])
  {
    seq(|s|, i requires 0 <= i < |s| => ToLowerChar(s[i]))
  }

  function UnsupportedChannel(s: string): string {
    "不支持的渠道: " + s
  }

  /** `Channel::from_str`: one of the four names in any letter case. */
  function ChannelFromStr(s: string): (r: Result<Channel, string>)
    ensures r.Ok? <==> exists c: Channel :: ToLower(s) == AsStr(c)
    ensures r.Ok? ==> AsStr(r.value) == ToLower(s)
    ensures r.Err? ==> r.error == UnsupportedChannel(s)
  {
    var l := ToLower(s);
    if l == "vivo" then assert l == AsStr(Vivo); Ok(Vivo)
    else if l == "oppo" then assert l == AsStr(Oppo); Ok(Oppo)
    else if l == "huawei" then assert l == AsStr(Huawei); Ok(Huawei)
    else if l == "xiaomi" then assert l == AsStr(Xiaomi); Ok(Xiaomi)
    else
      assert forall c: Channel :: l != AsStr(c);
      Err(UnsupportedChannel(s))
  }

  /** Lower-casing leaves a lower-case name alone. */
  lemma ToLowerOfLower(s: string)
    requires IsLowerAscii(s)
    ensures ToLower(s) == s
  {
  }

  /** Every channel's name reads back as that channel. */
  lemma ChannelRoundTrip(c: Channel)
    ensures ChannelFromStr(AsStr(c)) == Ok(c)
  {
    ToLowerOfLower(AsStr(c));
    var r := ChannelFromStr(AsStr(c));
    assert AsStr(r.value) == AsStr(c);
  }

  /** The channel test of `oss.rs`. */
  lemma ChannelExamples()
    ensures ChannelFromStr("vivo") == Ok(Vivo)
    ensures ChannelFromStr("OPPO") == Ok(Oppo)
    ensures ChannelFromStr("invalid").Err?
  {
    var upper, bad := "OPPO", "invalid";
    ChannelRoundTrip(Vivo);
    assert ToLower(upper) == "oppo";
    assert ToLower(bad)[0] == 'i';
  }

  // ---------------------------------------------------------------------
  // Content validation

  /** The pieces between '\n' characters, empty ones included. */
  function SplitNewlines(s: string): (pieces: seq<string>)
    ensures |pieces| >= 1
    ensures forall i :: 0 <= i < |pieces| ==> '\n' !in pieces[i]
  {
    if s == [] then [""]
    else
      var rest := SplitNewlines(s[1..]);
      if s[0] == '\n' then [""] + rest
      else [[s[0]] + rest[0]] + rest[1..]
  }

  lemma {:induction false} SplitNewlinesNone(a: string)
    requires '\n' !in a
    ensures SplitNewlines(a) == [a]
  {
    if a != [] {
      SplitNewlinesNone(a[1..]);
      assert [a[0]] + a[1..] == a;
    }
  }

  /** A '\n' ends the first piece. */
  lemma {:induction false} SplitNewlinesAt(a: string, b: string)
    requires '\n' !in a
    ensures SplitNewlines(a + "\n" + b) == [a] + SplitNewlines(b)
  {
    if a == [] {
      assert a + "\n" + b == "\n" + b;
      assert ("\n" + b)[1..] == b;
    } else {
      assert (a + "\n" + b)[1..] == a[1..] + "\n" + b;
      SplitNewlinesAt(a[1..], b);
      assert [a[0]] + a[1..] == a;
    }
  }

  /** A line that was ended by "\r\n" loses the '\r'. */
  function StripCr(line: string): string {
    if |line| > 0 && line[|line| - 1] == '\r' then line[..|line| - 1] else line
  }

  /**
   * The lines of the pieces between '\n' characters: every piece that was
   * ended by '\n' loses a '\r' before it; the last piece, which no '\n'
   * ended, is kept as it is unless it is empty.
   */
  function PieceLines(pieces: seq<string>): (lines: seq<string>)
    requires |pieces| >= 1
    ensures |lines| == |pieces| || (|lines| == |pieces| - 1 && pieces[|pieces| - 1] == [])
  {
    if |pieces| == 1 then (if pieces[0] == [] then [] else pieces)
    else [StripCr(pieces[0])] + PieceLines(pieces[1..])
  }

  /** `str::lines`. The empty text has no lines. */
  function Lines(s: string): (lines: seq<string>)
    ensures s == [] ==> lines == []
  {
    if s == [] then [] else PieceLines(SplitNewlines(s))
  }

  /** A line that fails validation: something other than ASCII digits once trimmed. */
  predicate BadLine(line: string) {
    Trim(line) != [] && !AllDigits(Trim(line))
  }

  /** Why `validate_content` refused the content. */
  const EMPTY_CONTENT := "内容不能为空"

  datatype ContentError = EmptyContent | NotNumeric(lineNo: nat, line: string)

  /** The message `validate_content` gives for each refusal. */
  function ContentErrorMessage(e: ContentError): (m: string)
    ensures e.EmptyContent? <==> m == EMPTY_CONTENT
    ensures e.NotNumeric? ==> HasText(m, Decimal(e.lineNo)) && HasText(m, e.line)
  {
    match e
    case EmptyContent => EMPTY_CONTENT
    case NotNumeric(n, line) =>
      var m := "第 " + Decimal(n) + " 行不是有效的数字ID: '" + line + "'";
      assert m[0] != EMPTY_CONTENT[0];
      HasTextInside("第 ", Decimal(n), " 行不是有效的数字ID: '" + line + "'");
      HasTextInside("第 " + Decimal(n) + " 行不是有效的数字ID: '", line, "'");
      m
  }

  predicate AllNumeric(lines: seq<string>) {
    forall i :: 0 <= i < |lines| ==> !BadLine(lines[i])
  }

  /** Every line of the content is blank or all digits once trimmed. */
  predicate AllLinesNumeric(content: string) {
    AllNumeric(Lines(content))
  }

  /** `e` reports the first bad line of `lines`: its 1-based number and its trimmed text. */
  predicate FirstBadLine(lines: seq<string>, e: ContentError) {
    && e.NotNumeric?
    && 1 <= e.lineNo <= |lines|
    && BadLine(lines[e.lineNo - 1])
    && e.line == Trim(lines[e.lineNo - 1])
    && forall j :: 0 <= j < e.lineNo - 1 ==> !BadLine(lines[j])
  }

  /** A bad line after good ones is the first bad line, and the lines are not all numeric. */
  lemma FirstBadLineAt(lines: seq<string>, i: nat)
    requires i < |lines| && BadLine(lines[i]) && AllNumeric(lines[..i])
    ensures FirstBadLine(lines, NotNumeric(i + 1, Trim(lines[i])))
    ensures !AllNumeric(lines)
  {
    assert forall j :: 0 <= j < i ==> lines[..i][j] == lines[j];
  }

  /** A good line extends a run of good lines. */
  lemma AllNumericSnoc(lines: seq<string>, i: nat)
    requires i < |lines| && !BadLine(lines[i]) && AllNumeric(lines[..i])
    ensures AllNumeric(lines[..i + 1])
  {
    assert lines[..i + 1] == lines[..i] + [lines[i]];
  }

  /**
   * The loop of `validate_content` over the lines: the first line that is
   * neither blank nor all digits is reported.
   */
  method CheckLines(lines: seq<string>) returns (r: Result<(), ContentError>)
    ensures r.Ok? <==> AllNumeric(lines)
    ensures r.Err? ==> FirstBadLine(lines, r.error)
  {
    var i := 0;
    while i < |lines|
      invariant 0 <= i <= |lines|
      invariant AllNumeric(lines[..i])
    {
      if BadLine(lines[i]) {
        FirstBadLineAt(lines, i);
        return Err(NotNumeric(i + 1, Trim(lines[i])));
      }
      AllNumericSnoc(lines, i);
      i := i + 1;
    }
    assert lines[..i] == lines;
    r := Ok(());
  }

  /**
   * `validate_content`: blank content is refused; otherwise every line is
   * checked in order, as `CheckLines` states.
   */
  method ValidateContent(content: string) returns (r: Result<(), ContentError>)
    ensures Trim(content) == [] <==> r == Err(EmptyContent)
    ensures Trim(content) != [] ==> (r.Ok? <==> AllLinesNumeric(content))
    ensures Trim(content) != [] && r.Err? ==> FirstBadLine(Lines(content), r.error)
  {
    if Trim(content) == [] {
      return Err(EmptyContent);
    }
    var lines := Lines(content);
    r := CheckLines(lines);
  }

  /** Three pieces joined by '\n' split back into those pieces. */
  lemma ThreePieces(s: string, a: string, b: string, c: string)
    requires s == a + "\n" + b + "\n" + c
    requires '\n' !in a && '\n' !in b && '\n' !in c
    ensures SplitNewlines(s) == [a, b, c]
  {
    var t := b + "\n" + c;
    SplitNewlinesNone(c);
    SplitNewlinesAt(b, c);
    assert SplitNewlines(t) == [b, c];
    assert s == a + "\n" + t;
    SplitNewlinesAt(a, t);
    assert [a] + [b, c] == [a, b, c];
  }

  /** Three pieces, the last non-empty and the others not ending in '\r', are three lines. */
  lemma ThreePieceLines(a: string, b: string, c: string)
    requires c != []
    requires StripCr(a) == a && StripCr(b) == b
    ensures PieceLines([a, b, c]) == [a, b, c]
  {
    assert PieceLines([c]) == [c];
    assert [b, c][1..] == [c];
    assert PieceLines([b, c]) == [b, c];
    assert [a, b, c][1..] == [b, c];
  }

  /** Three pieces joined by '\n', none empty and none ending in '\r', are three lines. */
  lemma ThreeLines(s: string, a: string, b: string, c: string)
    requires s == a + "\n" + b + "\n" + c
    requires a != [] && b != [] && c != []
    requires '\n' !in a && '\n' !in b && '\n' !in c
    requires a[|a| - 1] != '\r' && b[|b| - 1] != '\r'
    ensures Lines(s) == [a, b, c]
  {
    ThreePieces(s, a, b, c);
    ThreePieceLines(a, b, c);
  }

  /** A line of digits passes. */
  lemma DigitLine(line: string)
    requires line != [] && AllDigits(line)
    ensures !BadLine(line)
  {
    assert Trimmed(line);
  }

  /** A line of small letters fails, and is reported as it is. */
  lemma LetterLine(line: string)
    requires line != [] && forall i :: 0 <= i < |line| ==> 'a' <= line[i] <= 'z'
    ensures BadLine(line) && Trim(line) == line
  {
    assert Trimmed(line);
    assert !IsAsciiDigit(line[0]);
  }

  /** Content that starts with a digit is not blank. */
  lemma NotBlank(content: string)
    requires content != [] && IsAsciiDigit(content[0])
    ensures Trim(content) != []
  {
    assert !IsWhitespace(content[0]);
  }

  /**
   * Three non-empty lines of digits joined by '\n' pass `validate_content`.
   */
  lemma ThreeDigitLines(s: string, a: string, b: string, c: string)
    requires s == a + "\n" + b + "\n" + c
    requires a != [] && b != [] && c != []
    requires AllDigits(a) && AllDigits(b) && AllDigits(c)
    ensures Trim(s) != [] && AllLinesNumeric(s)
  {
    DigitsNoNewline(a);
    DigitsNoNewline(b);
    DigitsNoNewline(c);
    ThreeLines(s, a, b, c);
    NotBlank(s);
    DigitLine(a);
    DigitLine(b);
    DigitLine(c);
    ThreeNumeric(a, b, c);
  }

  lemma ThreeNumeric(a: string, b: string, c: string)
    requires !BadLine(a) && !BadLine(b) && !BadLine(c)
    ensures AllNumeric([a, b, c])
  {
    var lines := [a, b, c];
    forall i | 0 <= i < |lines| ensures !BadLine(lines[i]) {
      assert lines[i] == a || lines[i] == b || lines[i] == c;
    }
  }

  /**
   * A digit line, then a line of small letters, then a digit line: the
   * content is not blank and its second line is the first bad one, reported
   * as written.
   */
  lemma SecondLineLetters(s: string, a: string, b: string, c: string)
    requires s == a + "\n" + b + "\n" + c
    requires a != [] && b != [] && c != []
    requires AllDigits(a) && AllDigits(c)
    requires forall i :: 0 <= i < |b| ==> 'a' <= b[i] <= 'z'
    ensures Trim(s) != [] && |Lines(s)| == 3
    ensures !BadLine(Lines(s)[0]) && BadLine(Lines(s)[1]) && Trim(Lines(s)[1]) == b
  {
    DigitsNoNewline(a);
    DigitsNoNewline(c);
    assert '\n' !in b && b[|b| - 1] != '\r' by {
      forall i | 0 <= i < |b| ensures b[i] != '\n' && b[i] != '\r' { }
    }
    ThreeLines(s, a, b, c);
    NotBlank(s);
    DigitLine(a);
    LetterLine(b);
  }

  /** A digit string holds no '\n' and does not end in '\r'. */
  lemma DigitsNoNewline(a: string)
    requires a != [] && AllDigits(a)
    ensures '\n' !in a && a[|a| - 1] != '\r'
  {
    assert IsAsciiDigit(a[|a| - 1]);
    forall i | 0 <= i < |a| ensures a[i] != '\n' {
      assert IsAsciiDigit(a[i]);
    }
  }

  /**
   * The accepting test of `oss.rs`: "123\n456\n789" passes.
   */
  lemma ValidContentExample()
    ensures Trim("123\n456\n789") != [] && AllLinesNumeric("123\n456\n789")
  {
    var a, b, c := "123", "456", "789";
    ThreeDigitLines("123\n456\n789", a, b, c);
  }

  /**
   * The refusing test of `oss.rs`: "123\nabc\n789" fails on its second line.
   */
  lemma InvalidContentExample()
    ensures Trim("123\nabc\n789") != [] && |Lines("123\nabc\n789")| == 3
    ensures !BadLine(Lines("123\nabc\n789")[0]) && BadLine(Lines("123\nabc\n789")[1])
    ensures Trim(Lines("123\nabc\n789")[1]) == "abc"
  {
    var a, b, c := "123", "abc", "789";
    SecondLineLetters("123\nabc\n789", a, b, c);
  }

  // ---------------------------------------------------------------------
  // Upload pre-checks

  const BLANK_CREDENTIALS := "OSS Access ID或Access Key不能为空"

  /** Where the IDs of a channel are stored: "hive2/dim/tmp_{ch}_ids/{ch}.txt". */
  function ObjectPath(c: Channel): (p: string)
    ensures StartsWith(p, "hive2/dim/tmp_") && EndsWith(p, ".txt")
  {
    var folder := "hive2/dim/tmp_" + AsStr(c) + "_ids";
    var file := AsStr(c) + ".txt";
    folder + "/" + file
  }

  /** Different channels are stored in different objects. */
  lemma ObjectPathInjective(a: Channel, b: Channel)
    requires ObjectPath(a) == ObjectPath(b)
    ensures a == b
  {
    var p := ObjectPath(a);
    assert p[14] == AsStr(a)[0] && ObjectPath(b)[14] == AsStr(b)[0];
  }

  /**
   * The checks `upload_ids_to_oss` makes before any network traffic: blank
   * credentials, then the content; if both pass, the object path it writes.
   */
  method UploadPrecheck(accessId: string, accessKey: string, content: string, channel: Channel)
    returns (r: Result<string, string>)
    ensures Trim(accessId) == [] || Trim(accessKey) == [] ==> r == Err(BLANK_CREDENTIALS)
    ensures Trim(accessId) != [] && Trim(accessKey) != [] ==>
      (r.Ok? <==> Trim(content) != [] && AllLinesNumeric(content))
    ensures Trim(accessId) != [] && Trim(accessKey) != [] && Trim(content) == [] ==>
      r == Err(ContentErrorMessage(EmptyContent))
    ensures Trim(accessId) != [] && Trim(accessKey) != [] && Trim(content) != [] && r.Err? ==>
      exists e :: FirstBadLine(Lines(content), e) && r == Err(ContentErrorMessage(e))
    ensures r.Ok? ==> r.value == ObjectPath(channel)
  {
    if Trim(accessId) == [] || Trim(accessKey) == [] {
      return Err(BLANK_CREDENTIALS);
    }
    var valid := ValidateContent(content);
    if valid.Err? {
      if Trim(content) != [] {
        assert FirstBadLine(Lines(content), valid.error);
      }
      return Err(ContentErrorMessage(valid.error));
    }
    r := Ok(ObjectPath(channel));
  }

  // ---------------------------------------------------------------------
  // The upload request

  /** The bucket's host, "Bucket.endpoint". */
  const HOST := "Bucket" + "." + "endpoint"
  const UPLOADED := "成功上传到 OSS 路径: "
  const SEND_FAILED := "发送请求失败: "
  const INVALID_HEADER := "failed to parse header value"
  const NO_ERROR_DETAIL := "无法获取错误详情"
  const BAD_ACCESS_ID := "Access ID无效，请检查配置"
  const BAD_ACCESS_KEY := "Access Key无效，请检查配置或签名错误"
  const NETWORK_ERROR := "网络连接错误，请检查网络并确认使用了正确的OSS接入点"
  const UPLOAD_FAILED := "上传到OSS失败: HTTP "

  /**
   * What the PUT request gave back. The request is network I/O, so this is
   * a parameter. Either sending failed, with reqwest's reason, or the server
   * answered with a status code, the status as reqwest prints it, and the
   * body text when it could be read.
   */
  datatype PutResponse =
    | SendFailed(reason: string)
    | Answered(code: nat, status: string, body: Option<string>)

  /** `StatusCode::is_success`: a 2xx code. */
  predicate IsSuccess(code: nat) {
    200 <= code <= 299
  }

  /** `str::contains` for a text: `part` starts at some position of `s`. */
  predicate HasText(s: string, part: string) {
    StartsWith(s, part) || (s != [] && HasText(s[1..], part))
  }

  /**
   * `HeaderValue::from_str` accepts tab and every character from space on,
   * except DEL. Of the request's headers only `Authorization`, which holds
   * the access ID, can contain anything else.
   */
  predicate HeaderSafe(s: string) {
    forall i :: 0 <= i < |s| ==> s[i] == '\t' || (' ' <= s[i] && s[i] != '\U{007F}')
  }

  /** The body text of a failed answer, or the stand-in when it could not be read. */
  function ErrorDetail(body: Option<string>): (d: string)
    ensures body.Some? ==> d == body.value
    ensures body.None? ==> d == NO_ERROR_DETAIL
  {
    match body
    case Some(text) => text
    case None => NO_ERROR_DETAIL
  }

  /**
   * How `upload_ids_to_oss` turns the answer to its request for `path` into
   * its result: the success message naming the host and path, or the error
   * text for the first known error found in the body.
   */
  function ResponseResult(path: string, response: PutResponse): (r: Result<string, string>)
    ensures r.Ok? <==> response.Answered? && IsSuccess(response.code)
    ensures r.Ok? ==> r.value == UPLOADED + HOST + "/" + path
    ensures response.SendFailed? ==> r == Err(SEND_FAILED + response.reason)
    ensures response.Answered? && !IsSuccess(response.code) ==>
      var detail := ErrorDetail(response.body);
      && (HasText(detail, "InvalidAccessKeyId") ==> r == Err(BAD_ACCESS_ID))
      && (!HasText(detail, "InvalidAccessKeyId") && HasText(detail, "SignatureDoesNotMatch") ==>
            r == Err(BAD_ACCESS_KEY))
      && (!HasText(detail, "InvalidAccessKeyId") && !HasText(detail, "SignatureDoesNotMatch") &&
          (HasText(detail, "NetworkingError") || HasText(detail, "Connection refused")) ==>
            r == Err(NETWORK_ERROR))
      && (!HasText(detail, "InvalidAccessKeyId") && !HasText(detail, "SignatureDoesNotMatch") &&
          !HasText(detail, "NetworkingError") && !HasText(detail, "Connection refused") ==>
            r == Err(UPLOAD_FAILED + response.status + ", 错误: " + detail))
  {
    match response
    case SendFailed(reason) => Err(SEND_FAILED + reason)
    case Answered(code, status, body) =>
      if IsSuccess(code) then Ok(UPLOADED + HOST + "/" + path)
      else
        var detail := ErrorDetail(body);
        if HasText(detail, "InvalidAccessKeyId") then Err(BAD_ACCESS_ID)
        else if HasText(detail, "SignatureDoesNotMatch") then Err(BAD_ACCESS_KEY)
        else if HasText(detail, "NetworkingError") || HasText(detail, "Connection refused") then Err(NETWORK_ERROR)
        else Err(UPLOAD_FAILED + status + ", 错误: " + detail)
  }

  /**
   * `upload_ids_to_oss`: the pre-checks, then the `Authorization` header,
   * which refuses an access ID with a control character, then the request.
   */
  method UploadIdsToOss(accessId: string, accessKey: string, content: string, channel: Channel, response: PutResponse)
    returns (r: Result<string, string>)
    ensures Trim(accessId) == [] || Trim(accessKey) == [] ==> r == Err(BLANK_CREDENTIALS)
    ensures Trim(accessId) != [] && Trim(accessKey) != [] && Trim(content) == [] ==>
      r == Err(ContentErrorMessage(EmptyContent))
    ensures Trim(accessId) != [] && Trim(accessKey) != [] && Trim(content) != [] && !AllLinesNumeric(content) ==>
      exists e :: FirstBadLine(Lines(content), e) && r == Err(ContentErrorMessage(e))
    ensures Trim(accessId) != [] && Trim(accessKey) != [] && Trim(content) != [] && AllLinesNumeric(content) ==>
      r == if HeaderSafe(accessId) then ResponseResult(ObjectPath(channel), response) else Err(INVALID_HEADER)
    ensures r.Ok? <==>
      && Trim(accessId) != [] && Trim(accessKey) != [] && Trim(content) != [] && AllLinesNumeric(content)
      && HeaderSafe(accessId) && response.Answered? && IsSuccess(response.code)
    ensures r.Ok? ==> r.value == UPLOADED + HOST + "/" + ObjectPath(channel)
  {
    var checked := UploadPrecheck(accessId, accessKey, content, channel);
    if checked.Err? {
      return checked;
    }
    if !HeaderSafe(accessId) {
      return Err(INVALID_HEADER);
    }
    r := ResponseResult(checked.value, response);
  }

  /** A text contains every text that is written inside it. */
  lemma {:induction false} HasTextInside(pre: string, part: string, post: string)
    ensures HasText(pre + part + post, part)
  {
    var s := pre + part + post;
    if pre == [] {
      assert s[..|part|] == part;
    } else {
      HasTextInside(pre[1..], part, post);
      assert s[1..] == pre[1..] + part + post;
    }
  }

  /** An error body that names "InvalidAccessKeyId" anywhere is reported as a bad access ID. */
  lemma InvalidAccessKeyIdReported(path: string, code: nat, status: string, pre: string, post: string)
    requires !IsSuccess(code)
    ensures ResponseResult(path, Answered(code, status, Some(pre + "InvalidAccessKeyId" + post))) == Err(BAD_ACCESS_ID)
  {
    HasTextInside(pre, "InvalidAccessKeyId", post);
  }

  /** The success message names the channel: different channels give different messages. */
  lemma UploadedMessageInjective(a: Channel, b: Channel)
    requires UPLOADED + HOST + "/" + ObjectPath(a) == UPLOADED + HOST + "/" + ObjectPath(b)
    ensures a == b
  {
    var n := |UPLOADED + HOST + "/"|;
    assert ObjectPath(a) == (UPLOADED + HOST + "/" + ObjectPath(a))[n..];
    assert ObjectPath(b) == (UPLOADED + HOST + "/" + ObjectPath(b))[n..];
    ObjectPathInjective(a, b);
  }
}

/** The application's error values (`AppError`) and the text `to_string` gives them. */
module Errors {

  datatype AppError =
    | EncryptError(msg: string)
    | DecryptError(msg: string)
    | FormatError(msg: string)
    | InvalidInput(msg: string)

  /** The `#[error(..)]` display format of each variant. */
  function Display(e: AppError): string {
    match e
    case EncryptError(m) => "加密错误: " + m
    case DecryptError(m) => "解密错误: " + m
    case FormatError(m) => "格式转换错误: " + m
    case InvalidInput(m) => "参数错误: " + m
  }

  /** The four prefixes start with four different characters, so the text tells the error apart. */
  lemma DisplayInjective(a: AppError, b: AppError)
    requires Display(a) == Display(b)
    ensures a == b
  {
    assert Display(a)[0] == Display(b)[0];
    var n := |Display(a)| - |a.msg|;
    assert n == |Display(b)| - |b.msg|;
    assert a.msg == Display(a)[n..] && b.msg == Display(b)[n..];
  }

  /** The message every operation gives for an empty input. */
  const EMPTY_INPUT := "输入不能为空"
}

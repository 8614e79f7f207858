/** The result every fallible client operation returns, and its diagnostics. */
module PipeStatus {
  import opened Text
  import opened Win32

  /**
   * `PipeStatusResponse`: a success flag with the payload or a diagnostic.
   * Payloads are narrow strings; the diagnostics are kept as plain strings.
   */
  datatype Status = Status(ok: bool, message: string)

  /**
   * `GetLastErrorAsString`: empty when no error is recorded, otherwise the
   * system's text for the code followed by the code in parentheses.  The
   * system's text is not part of this model; the code suffix is.
   */
  function ErrorDescription(code: uint32): (s: NarrowString)
    ensures code == 0 <==> s == []
    ensures code != 0 ==> |s| >= 3 && s[..2] == " (" && s[2..|s| - 1] == Decimal(code) && s[|s| - 1] == ')'
  {
    if code == 0 then [] else " (" + Decimal(code) + ")"
  }
}

/** Errors raised along the signal pipeline and the catch-all that every
    HTTP endpoint of the service wraps around its body. */
module Outcomes {

  /** HTTP status codes are three decimal digits. */
  type StatusCode = s: nat | 100 <= s <= 999 witness 500

  /** The exceptions the modelled code can raise. */
  datatype Error =
    | ZeroDivision                                      // ZeroDivisionError of an average over nothing
    | IndexOutOfRange                                   // IndexError: empty series, missing column, empty dict
    | HttpException(status: StatusCode, detail: string) // FastAPI's HTTPException

  datatype Option<+T> = None | Some(value: T)

  datatype Result<+T> = Ok(value: T) | Err(error: Error) {
    predicate IsFailure() { Err? }

    function PropagateFailure<U>(): Result<U>
      requires Err?
    {
      Err(error)
    }

    function Extract(): T
      requires Ok?
    {
      value
    }
  }

  function DigitChar(d: nat): (c: char)
    requires d < 10
    ensures '0' <= c <= '9'
  {
    "0123456789"[d]
  }

  /** The three-digit decimal text of a status code. */
  function StatusText(s: StatusCode): (t: string)
    ensures |t| == 3
    ensures forall i :: 0 <= i < 3 ==> '0' <= t[i] <= '9'
  {
    [DigitChar(s / 100), DigitChar(s / 10 % 10), DigitChar(s % 10)]
  }

  /** `str(e)` for an exception: an HTTPException prints as "<status>: <detail>";
      the library messages of the other two are represented by fixed texts.
      The status can be read back from the first three characters, and the
      detail follows the separator unchanged. */
  function Str(e: Error): (s: string)
    ensures e.HttpException? ==> |s| >= 5 && s[..3] == StatusText(e.status) && s[3..5] == ": " && s[5..] == e.detail
  {
    match e
    case ZeroDivision => "division by zero"
    case IndexOutOfRange => "index out of range"
    case HttpException(status, detail) => StatusText(status) + ": " + detail
  }

  /** The `except Exception as e: raise HTTPException(status_code=500, detail=str(e))`
      wrapper of every endpoint: whatever was raised, the caller sees a 500 whose
      detail is the printed exception. */
  function CatchAll(e: Error): (r: Error)
    ensures r.HttpException? && r.status == 500
    ensures e.HttpException? ==> r.detail == StatusText(e.status) + ": " + e.detail
  {
    HttpException(500, Str(e))
  }

  /** A client error raised inside an endpoint reaches the caller as a server
      error whose detail begins with the original status. */
  lemma CatchAllMasksClientError(detail: string)
    ensures CatchAll(HttpException(400, detail)) == HttpException(500, "400: " + detail)
  {
    assert StatusText(400) == "400";
  }
}

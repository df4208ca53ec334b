/**
 * The errors the frontend raises or catches, and the message text each one
 * carries. A failed search shows this text to the user.
 */
module Faults {
  import opened JsValue

  datatype Fault =
    | HttpStatus(status: int, base: string)     // a response whose status is not ok
    | UnexpectedShape(base: string)             // a parsed body the frontend does not accept
    | Thrown(message: string)                   // fetch rejected, timed out, or the body is not JSON
    | TypeFault                                 // a TypeError raised by the JavaScript engine
    | NoUsableResponse(base: string)            // no request URL could be built for an instance
    | AllInstancesFailed(tried: seq<string>)    // every configured instance failed

  datatype Result<T> = Ok(value: T) | Err(fault: Fault)

  const AllFailedPrefix := "All instances failed: "

  /** `err.message` for each kind of fault. */
  function Message(f: Fault): string {
    match f
    case HttpStatus(status, base) => "HTTP " + IntToString(status) + " from " + base
    case UnexpectedShape(base) => "Unexpected JSON shape from " + base
    case Thrown(message) => message
    case TypeFault => "TypeError"
    case NoUsableResponse(base) => "No usable response from " + base
    case AllInstancesFailed(tried) => AllFailedPrefix + Join(tried, ", ")
  }

  /**
   * The exhaustion message names every instance that was tried, in the
   * order they were tried, separated by ", ".
   */
  lemma AllFailedMessageNamesEach(tried: seq<string>, k: nat)
    requires k < |tried|
    ensures Message(AllInstancesFailed(tried))
         == AllFailedPrefix
          + (if k == 0 then "" else Join(tried[..k], ", ") + ", ")
          + tried[k]
          + (if k == |tried| - 1 then "" else ", " + Join(tried[k + 1..], ", "))
  {
    var m := Message(AllInstancesFailed(tried));
    assert m == AllFailedPrefix + Join(tried, ", ");
    JoinAt(tried, ", ", k);
  }
}

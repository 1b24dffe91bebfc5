/** Failed requests as the screens see them, and the banner text they derive from one. */
module Errors {
  import opened Wrappers

  /** A rejected request: the HTTP error body's `message` (`e.response.data.message`)
      and the thrown error's own `message` (`e.message`), either of which may be absent. */
  datatype Failure = Failure(serverMessage: Option<string>, message: Option<string>)

  /** The outcome of one awaited call. */
  datatype Reply<+T> = Ok(value: T) | Err(failure: Failure)

  /** The value a call resolves to when it carries nothing. */
  datatype Unit = Unit

  /** `e?.response?.data?.message || e?.message || fallback`: the server's message when
      non-empty, else the error's message when non-empty, else the screen's fallback. */
  function ErrorText(f: Failure, fallback: string): (r: string)
    ensures r == TruthyOr([f.serverMessage, f.message], fallback)
    ensures fallback != "" ==> r != ""
  {
    var xs := [f.serverMessage, f.message];
    assert xs[1..] == [f.message] && [f.message][1..] == [];
    assert !Truthy(f.serverMessage) ==> FirstTruthy(xs) == FirstTruthy([f.message]);
    if Truthy(f.serverMessage) then f.serverMessage.value
    else if Truthy(f.message) then f.message.value
    else fallback
  }
}

/**
 * The two small pure helpers of app/utils/misc.tsx: turning an unknown
 * thrown value into a message, and the 400-response invariant.
 */
module Misc {
  import opened Http

  /** The JavaScript values a caller may hand to these helpers. */
  datatype JsValue =
    | JsUndefined
    | JsNull
    | JsBool(b: bool)
    | JsNumber(n: int)
    | JsString(s: string)
    | JsObject(props: map<string, JsValue>)
    | JsFunction

  /** JavaScript truthiness (NaN is not modelled; numbers are integers). */
  predicate JsTruthy(v: JsValue) {
    match v
    case JsUndefined => false
    case JsNull => false
    case JsBool(b) => b
    case JsNumber(n) => n != 0
    case JsString(s) => s != ""
    case JsObject(_) => true
    case JsFunction => true
  }

  /** One `console.error` call: its text and the value it was given. */
  datatype LogEntry = LogEntry(text: string, value: JsValue)

  datatype ErrorMessage = ErrorMessage(message: string, log: seq<LogEntry>)

  const UnknownError := "Unknown Error"
  const UnknownErrorLog := "Unable to get error message for error"

  /** A string, or an object with a string `message`, gives its text; anything else is logged once. */
  function GetErrorMessage(error: JsValue): (r: ErrorMessage)
    ensures error.JsString? ==> r == ErrorMessage(error.s, [])
    ensures error.JsObject? && "message" in error.props && error.props["message"].JsString? ==>
              r == ErrorMessage(error.props["message"].s, [])
    ensures !error.JsString? && !(error.JsObject? && "message" in error.props && error.props["message"].JsString?) ==>
              r.message == UnknownError && r.log == [LogEntry(UnknownErrorLog, error)]
    ensures |r.log| <= 1
  {
    match error
    case JsString(s) => ErrorMessage(s, [])
    case JsObject(props) =>
      if "message" in props && props["message"].JsString? then ErrorMessage(props["message"].s, [])
      else ErrorMessage(UnknownError, [LogEntry(UnknownErrorLog, error)])
    case _ => ErrorMessage(UnknownError, [LogEntry(UnknownErrorLog, error)])
  }

  /** The `message` argument: absent, a string, or a function producing one. */
  datatype InvariantMessage = NoMessage | MessageText(text: string) | MessageThunk(produce: () -> string)

  /** The `responseInit` argument, reduced to whether it carries a `status`. */
  datatype ResponseInit = ResponseInit(status: Option<int>)

  const DefaultInvariantText := "An invariant failed, please provide a message to explain why."

  /**
   * A truthy condition lets the caller go on; a falsy one throws a text
   * response, status 400 unless the init overrides it.
   */
  function InvariantResponse(condition: JsValue, message: InvariantMessage, init: Option<ResponseInit>): (r: Outcome<()>)
    ensures JsTruthy(condition) <==> r == Continue(())
    ensures !JsTruthy(condition) ==> r.Thrown? && r.response.Text?
    ensures !JsTruthy(condition) && (init.None? || init.value.status.None?) ==> r.response.status == 400
    ensures !JsTruthy(condition) && init.Some? && init.value.status.Some? ==> r.response.status == init.value.status.value
    ensures !JsTruthy(condition) && message.MessageThunk? ==> r.response.text == message.produce()
    ensures !JsTruthy(condition) && message.MessageText? && message.text != "" ==> r.response.text == message.text
    ensures !JsTruthy(condition) && (message.NoMessage? || message == MessageText("")) ==> r.response.text == DefaultInvariantText
  {
    if JsTruthy(condition) then Continue(())
    else
      var text := match message
        case MessageThunk(produce) => produce()
        case MessageText(t) => if t != "" then t else DefaultInvariantText
        case NoMessage => DefaultInvariantText;
      var status := if init.Some? && init.value.status.Some? then init.value.status.value else 400;
      Thrown(Text(status, text))
  }
}

/**
 * The click handler of the report's decorative toggle buttons. A row's state
 * is whether its `tr` carries the `row--decorative` class. A click sends the
 * negated state to the `convert_decorative` endpoint and flips the class only
 * when the parsed reply's `message` is exactly `"success"`.
 * The DOM lookup and `fetch` are abstract: the button carries its `data-id`
 * attribute and its row, and the reply is a parameter of the click.
 */
module DecorativeToggle {
  import opened Wrappers

  /** The class that marks a decorative row. */
  const DecorativeClass: string := "row--decorative"
  /** The endpoint's action name. */
  const ToggleAction: string := "convert_decorative"
  /** The reply message that confirms the change. */
  const SuccessMessage: string := "success"

  /** The form fields sent to the endpoint; `action` is always `ToggleAction`. */
  datatype Request = Request(id: string, value: string)

  /**
   * What the `fetch` yields: a reply parsed as JSON, whose `message` field is
   * `None` when it is absent or not a string; a body that fails to parse (or
   * to destructure); or a failed request.
   */
  datatype Response = Received(message: Option<string>) | ParseError | NetworkError

  /** The outcome of one click: the request sent, if any, and the row's classes afterwards. */
  datatype ClickOutcome = ClickOutcome(request: Option<Request>, classes: set<string>)

  predicate IsDecorative(classes: set<string>) {
    DecorativeClass in classes
  }

  /** JavaScript truthiness of `getAttribute("data-id")`: present and not empty. */
  predicate HasId(dataId: Option<string>) {
    dataId.Some? && dataId.value != ""
  }

  /** `String(b)` for a boolean: `"true"` for true and `"false"` for false. */
  function BoolString(b: bool): (r: string)
    ensures (r == "true") == b && (r == "false") == !b
  {
    if b then "true" else "false"
  }

  /**
   * The boolean a value string stands for: the inverse of `BoolString`, used
   * to state what `Click` sends.
   */
  function ParseBool(s: string): (r: Option<bool>)
    ensures r.Some? <==> s == "true" || s == "false"
  {
    if s == "true" then Some(true) else if s == "false" then Some(false) else None
  }

  lemma BoolStringRoundTrip(b: bool)
    ensures ParseBool(BoolString(b)) == Some(b)
  {
  }

  /** The url-encoded fields in the order `URLSearchParams` receives them. */
  function Payload(req: Request): (fields: seq<(string, string)>)
    ensures |fields| == 3
    ensures fields[0] == ("action", ToggleAction)
    ensures fields[1] == ("id", req.id) && fields[2] == ("value", req.value)
  {
    [("action", ToggleAction), ("id", req.id), ("value", req.value)]
  }

  predicate Succeeded(response: Response) {
    response == Received(Some(SuccessMessage))
  }

  /** `classList.toggle(token)`. */
  function Toggled(classes: set<string>, token: string): (r: set<string>)
    ensures (token in r) <==> (token !in classes)
    ensures r - {token} == classes - {token}
  {
    if token in classes then classes - {token} else classes + {token}
  }

  /**
   * One click, as a function of the row's classes before it, the button's
   * `data-id` and the reply the request would get.
   */
  function Click(classes: set<string>, dataId: Option<string>, response: Response): (o: ClickOutcome)
    // no id: nothing is sent and the row stays as it was
    ensures o.request.None? <==> !HasId(dataId)
    ensures !HasId(dataId) ==> o.classes == classes
    // the request asks for the negation of the current state, for the button's id
    ensures o.request.Some? ==> o.request.value.id == dataId.value
    ensures o.request.Some? ==> o.request.value.value == (if IsDecorative(classes) then "false" else "true")
    ensures o.request.Some? ==> ParseBool(o.request.value.value) == Some(!IsDecorative(classes))
    // the form sent is the action name, the id and the negated value, in that order
    ensures o.request.Some? ==>
      Payload(o.request.value) == [("action", ToggleAction), ("id", dataId.value), ("value", BoolString(!IsDecorative(classes)))]
    // the state flips exactly when a request was sent and the reply is "success"
    ensures IsDecorative(o.classes) != IsDecorative(classes) <==> o.request.Some? && Succeeded(response)
    // after a success the row shows the value that was sent
    ensures o.request.Some? && Succeeded(response) ==>
      ParseBool(o.request.value.value) == Some(IsDecorative(o.classes))
    // no other class of the row changes
    ensures o.classes - {DecorativeClass} == classes - {DecorativeClass}
  {
    if !HasId(dataId) then ClickOutcome(None, classes)
    else
      var request := Request(dataId.value, BoolString(!IsDecorative(classes)));
      var after := if Succeeded(response) then Toggled(classes, DecorativeClass) else classes;
      ClickOutcome(Some(request), after)
  }

  /** A parse or network failure never changes the row, whatever was sent. */
  lemma FailureLeavesRow(classes: set<string>, dataId: Option<string>, response: Response)
    requires response.ParseError? || response.NetworkError?
    ensures Click(classes, dataId, response).classes == classes
  {
  }

  /** Two confirmed clicks on the same row bring it back to the classes it started with. */
  lemma TwoConfirmedClicksRestore(classes: set<string>, dataId: Option<string>, response: Response)
    requires HasId(dataId) && Succeeded(response)
    ensures Click(Click(classes, dataId, response).classes, dataId, response).classes == classes
  {
  }

  /** The table row around a button (`button.closest("tr")`) and its class list. */
  class Row {
    var classList: set<string>

    constructor (classes: set<string>)
      ensures classList == classes
    {
      classList := classes;
    }

    /** `classList.toggle(token)` on this row. */
    method Toggle(token: string)
      modifies this
      ensures classList == Toggled(old(classList), token)
    {
      if token in classList {
        classList := classList - {token};
      } else {
        classList := classList + {token};
      }
    }
  }

  /** A toggle button: its `data-id` attribute and its row. */
  class Button {
    const dataId: Option<string>
    const row: Row

    constructor (dataId: Option<string>, row: Row)
      ensures this.dataId == dataId && this.row == row
    {
      this.dataId := dataId;
      this.row := row;
    }
  }

  /**
   * The click listener: read the row's state, return early without an id,
   * otherwise send the request and toggle the row's class on success. It
   * sends at most one request and changes only the button's row.
   */
  method HandleClick(button: Button, response: Response) returns (sent: Option<Request>)
    modifies button.row
    ensures sent == Click(old(button.row.classList), button.dataId, response).request
    ensures button.row.classList == Click(old(button.row.classList), button.dataId, response).classes
  {
    var parentRow := button.row;
    var isDecorative := DecorativeClass in parentRow.classList;
    var id := button.dataId;
    if id.None? || id.value == "" {
      return None;
    }
    var value := !isDecorative;
    sent := Some(Request(id.value, BoolString(value)));
    match response {
      case Received(message) =>
        var success := message == Some(SuccessMessage);
        if success {
          parentRow.Toggle(DecorativeClass);
        }
      case ParseError =>
      case NetworkError =>
    }
  }
}

/**
 * The `Home` page: an append-only chat log, a loading flag, the map markers
 * and the selected primary filter. A submission appends the user's message,
 * waits for the agent, then appends exactly one reply.
 */
module ChatPage {
  import opened Wrappers

  datatype Sender = User | Ai

  /**
   * A message id: a literal, or the decimal text of a millisecond clock
   * reading (`Date.now().toString()`), standing for that text.
   */
  datatype MessageId = Literal(text: string) | Clock(ms: int)

  datatype Message = Message(id: MessageId, sender: Sender, content: string)

  datatype Marker = Marker(lat: real, lng: real, title: Option<string>)

  /** `coordinate.lat.toFixed(4)` and `coordinate.lng.toFixed(4)` as rendered. */
  datatype CoordinateText = CoordinateText(lat: string, lng: string)

  /** The part of `data.result` the page reads. */
  datatype ResultView = ResultView(locationQuery: string, coordinate: Option<CoordinateText>)

  /** The parsed body `data`: its `result` (when truthy) and its `message` (when not null or undefined). */
  datatype ReplyData = ReplyData(result: Option<ResultView>, message: Option<string>)

  /** What became of `fetch('/api/agent')` and `res.json()`. */
  datatype FetchOutcome =
    | Threw                              // the fetch rejects or the body is not JSON
    | Answered(ok: bool, data: ReplyData)

  const PrimaryFilters := ["solar", "wind", "hydro"]
  const SorryText := "Sorry, I could not process that request."
  const NetworkErrorText := "There was a network error contacting the agent."
  const DoneText := "Done."

  /** The two messages the log starts with. */
  const InitialMessages := [
    Message(Literal("1"), User, "Where is a good place to make a 100MW solar-powered data centre in Australia under $500M"),
    Message(Literal("2"), Ai, "Top site: Dubbo, NSW — 123MW solar, ~$254M. Near grid, flat land, high UV year-round.")
  ]

  /** A template slot: a missing coordinate prints as `undefined`. */
  function Slot(text: Option<string>): string {
    text.GetOr("undefined")
  }

  /** The success sentence for a result. */
  function FoundText(view: ResultView): string {
    var lat := Slot(if view.coordinate.Some? then Some(view.coordinate.value.lat) else None);
    var lng := Slot(if view.coordinate.Some? then Some(view.coordinate.value.lng) else None);
    FoundPrefix + view.locationQuery + ": (" + lat + ", " + lng + ")."
  }

  const FoundPrefix := "Using Google Maps, I found coordinates for "

  /** The success sentence starts with the fixed prefix followed by the result's place. */
  lemma FoundTextNamesPlace(view: ResultView)
    ensures var text := FoundText(view); var q := view.locationQuery;
      |FoundPrefix| + |q| <= |text|
      && text[..|FoundPrefix|] == FoundPrefix
      && text[|FoundPrefix|..|FoundPrefix| + |q|] == q
  {
    var rest := ": (" + Slot(if view.coordinate.Some? then Some(view.coordinate.value.lat) else None) + ", "
      + Slot(if view.coordinate.Some? then Some(view.coordinate.value.lng) else None) + ").";
    assert FoundText(view) == FoundPrefix + view.locationQuery + rest;
  }

  /**
   * The content of the AI message appended for an outcome: the network-error
   * text on a throw, the apology on a non-OK response, the sentence naming the
   * place when an OK response has a result, and otherwise `data.message`
   * (even when empty) or `'Done.'`.
   */
  function ReplyText(outcome: FetchOutcome): (r: string)
    ensures outcome.Threw? ==> r == NetworkErrorText
    ensures outcome.Answered? && !outcome.ok ==> r == SorryText
    ensures outcome.Answered? && outcome.ok && outcome.data.result.Some? ==>
      var q := outcome.data.result.value.locationQuery;
      |FoundPrefix| + |q| <= |r| && r[..|FoundPrefix|] == FoundPrefix && r[|FoundPrefix|..|FoundPrefix| + |q|] == q
    ensures outcome.Answered? && outcome.ok && outcome.data.result.None? ==>
      r == if outcome.data.message.Some? then outcome.data.message.value else DoneText
  {
    match outcome
    case Threw => NetworkErrorText
    case Answered(ok, data) =>
      if !ok then SorryText
      else if data.result.Some? then
        FoundTextNamesPlace(data.result.value);
        FoundText(data.result.value)
      else data.message.GetOr(DoneText)
  }

  class Home {
    var selectedFilter: string
    var messages: seq<Message>
    var loading: bool
    /** Declared with `useState([])` and never set. */
    var mapMarkers: seq<Marker>

    /** The log still starts with the two initial messages, no marker was ever set, and the filter is a primary one. */
    ghost predicate Valid()
      reads this
    {
      && selectedFilter in PrimaryFilters
      && |messages| >= |InitialMessages|
      && messages[..|InitialMessages|] == InitialMessages
      && mapMarkers == []
    }

    /** The page's initial state. */
    constructor ()
      ensures Valid()
      ensures selectedFilter == "solar" && messages == InitialMessages && !loading && mapMarkers == []
    {
      selectedFilter := "solar";
      messages := InitialMessages;
      loading := false;
      mapMarkers := [];
    }

    /** One of the solar/wind/hydro buttons is clicked. */
    method SelectFilter(filter: string)
      requires Valid() && filter in PrimaryFilters
      modifies this`selectedFilter
      ensures Valid() && selectedFilter == filter
    {
      selectedFilter := filter;
    }

    /** The synchronous start of `handleSubmitMessage`, up to the `await`: log the user's text and start loading. */
    method BeginSubmit(text: string, now: int)
      requires Valid()
      modifies this`messages, this`loading
      ensures Valid()
      ensures messages == old(messages) + [Message(Clock(now), User, text)]
      ensures loading
    {
      messages := messages + [Message(Clock(now), User, text)];
      loading := true;
    }

    /** The rest of `handleSubmitMessage`, once the fetch has settled: append the reply and stop loading. */
    method FinishSubmit(outcome: FetchOutcome, now: int)
      requires Valid()
      modifies this`messages, this`loading
      ensures Valid()
      ensures messages == old(messages) + [Message(Clock(now + 1), Ai, ReplyText(outcome))]
      ensures !loading
    {
      var content := ReplyText(outcome);
      messages := messages + [Message(Clock(now + 1), Ai, content)];
      loading := false;
    }

    /**
     * A whole submission with no other in flight: exactly one user message
     * and then exactly one AI message are appended, and loading ends off.
     * `sentAt` and `settledAt` are the clock readings taken before and after
     * the `await`.
     */
    method HandleSubmitMessage(text: string, outcome: FetchOutcome, sentAt: int, settledAt: int)
      requires Valid()
      modifies this`messages, this`loading
      ensures Valid()
      ensures messages == old(messages) + [Message(Clock(sentAt), User, text), Message(Clock(settledAt + 1), Ai, ReplyText(outcome))]
      ensures !loading
    {
      BeginSubmit(text, sentAt);
      FinishSubmit(outcome, settledAt);
    }
  }
}

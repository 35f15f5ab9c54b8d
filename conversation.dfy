/**
 * The page reading the agent's response: what a `Response` of the agent
 * handler becomes once `res.ok` and `res.json()` are taken on the page,
 * and which chat reply each kind of response produces.
 */
module Conversation {
  import opened Wrappers
  import AgentRoute
  import ChatPage

  /**
   * The page's view of an agent response. `res.ok` means a 2xx status; an
   * error payload has neither `result` nor `message`; `fixed4` stands for
   * `Number.prototype.toFixed(4)`.
   */
  function Delivered(response: AgentRoute.Response, fixed4: real -> string): (r: ChatPage.FetchOutcome)
    ensures r.Answered? && (r.ok <==> 200 <= response.status < 300)
    ensures r.data.message.None?
    ensures response.payload.ErrorPayload? ==> r.data.result.None?
    ensures response.payload.ResultPayload? ==>
      && r.data.result.Some?
      && r.data.result.value.locationQuery == response.payload.result.locationQuery
      && (r.data.result.value.coordinate.Some? <==> response.payload.result.Located?)
      && (response.payload.result.Located? ==>
            r.data.result.value.coordinate.value
              == ChatPage.CoordinateText(fixed4(response.payload.result.coordinate.lat), fixed4(response.payload.result.coordinate.lng)))
  {
    var data := match response.payload
      case ErrorPayload(_) => ChatPage.ReplyData(None, None)
      case ResultPayload(r) =>
        var coordinate := if r.Located? then Some(ChatPage.CoordinateText(fixed4(r.coordinate.lat), fixed4(r.coordinate.lng))) else None;
        ChatPage.ReplyData(Some(ChatPage.ResultView(r.locationQuery, coordinate)), None);
    ChatPage.Answered(200 <= response.status < 300, data)
  }

  /** Every 400 or 500 of the agent, whatever its error text, is shown as the apology. */
  lemma ErrorResponsesReadAsApology(response: AgentRoute.Response, fixed4: real -> string)
    requires response.status == 400 || response.status == 500
    ensures ChatPage.ReplyText(Delivered(response, fixed4)) == ChatPage.SorryText
  {
  }

  /**
   * A 200 whose geocoding failed still reads as a success on the page: the
   * sentence claims coordinates were found and prints both as `undefined`.
   */
  lemma GeocodeFailureReadsAsFound(technology: string, query: string, fixed4: real -> string)
    ensures var response := AgentRoute.Response(200, AgentRoute.ResultPayload(AgentRoute.GeocodeFailed(technology, query, "Geocoding failed")));
      ChatPage.ReplyText(Delivered(response, fixed4))
        == ChatPage.FoundPrefix + query + ": (undefined, undefined)."
  {
  }

  /** A located 200 reads as the place and its two rendered coordinates. */
  lemma LocatedResultReadsCoordinates(result: AgentRoute.AgentResult, fixed4: real -> string)
    requires result.Located?
    ensures ChatPage.ReplyText(Delivered(AgentRoute.Response(200, AgentRoute.ResultPayload(result)), fixed4))
      == ChatPage.FoundPrefix + result.locationQuery
        + ": (" + fixed4(result.coordinate.lat) + ", " + fixed4(result.coordinate.lng) + ")."
  {
  }
}

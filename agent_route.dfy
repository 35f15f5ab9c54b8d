/**
 * The `POST /api/agent` handler: validate the prompt, turn the language
 * model's reply into a place and a technology, bias the place towards
 * Australia, geocode it and build the response.
 *
 * The two outbound calls are inputs: `reply` is what became of the
 * chat-completion call and of `JSON.parse` on its content, `geocode` what
 * became of the geocoding fetch and of reading its first result. The API
 * key's presence is a `bool`.
 */
module AgentRoute {
  import opened Wrappers
  import opened Text

  /** What `await req.json()` and the destructuring of `{ prompt }` produced. */
  datatype RequestBody =
    | Malformed                       // the body is not JSON: `req.json()` throws
    | NullBody                        // the body is `null`: destructuring it throws
    | Fields(prompt: Option<string>)  // None: `prompt` absent, null or not a string

  /** `JSON.parse` applied to the model's message content (`'{}'` when there is none). */
  datatype ModelReply =
    | Unparseable   // the parse throws; the catch keeps the default record
    | NonObject     // `null` or a primitive: reading or setting `.locationQuery` throws
    | Parsed(locationQuery: Option<string>, technology: Option<string>)

  /** The `ExtractResult` record once extraction is done. */
  datatype ExtractResult = ExtractResult(locationQuery: string, technology: Option<string>)

  datatype Coordinate = Coordinate(lat: real, lng: real)

  /** `geo.results[0]`: its `geometry.location`, `formatted_address` and `place_id`. */
  datatype GeocodeHit = GeocodeHit(location: Option<Coordinate>, formattedAddress: Option<string>, placeId: Option<string>)

  /** What became of the geocoding fetch. */
  datatype GeocodeAnswer =
    | GeocodeThrew                     // the fetch or `geoRes.json()` throws
    | Geocoded(best: Option<GeocodeHit>)  // None: no first result

  /** The `result` object of a 200 response. */
  datatype AgentResult =
    | GeocodeFailed(technology: string, locationQuery: string, error: string)
    | Located(technology: string, locationQuery: string, coordinate: Coordinate,
              fullAddress: Option<string>, placeId: Option<string>, source: string)

  datatype Payload = ErrorPayload(error: string) | ResultPayload(result: AgentResult)

  datatype Response = Response(status: int, payload: Payload)

  const FallbackQuery := "Australia"
  const CountrySuffix := ", Australia"

  const Pattern := "australia"

  /** `/australia/i.test(q)`: the query mentions Australia in any letter case. */
  predicate MentionsAustralia(q: string) {
    Contains(Lower(q), Pattern)
  }

  /**
   * The regular expression's own rule at index `i`: without the `u` flag,
   * `i` compares characters after upper-casing both (a non-ASCII character is
   * never canonicalised onto an ASCII one, so ASCII upper-casing gives the
   * same comparisons against this pattern).
   */
  predicate MatchesAt(q: string, i: int) {
    0 <= i <= |q| - |Pattern|
    && forall j :: 0 <= j < |Pattern| ==> UpperChar(q[i + j]) == UpperChar(Pattern[j])
  }

  /** Folding the query down and searching equals the regular expression's matching at the same index. */
  lemma OccursIffMatchesAt(q: string, i: int)
    requires 0 <= i <= |q|
    ensures OccursAt(Lower(q), Pattern, i) <==> MatchesAt(q, i)
  {
    if 0 <= i <= |q| - |Pattern| {
      var l := Lower(q);
      forall j | 0 <= j < |Pattern|
        ensures l[i + j] == Pattern[j] <==> UpperChar(q[i + j]) == UpperChar(Pattern[j])
      {
        FoldAgrees(q[i + j], Pattern[j]);
      }
      assert l[i..i + |Pattern|] == Pattern <==> forall j :: 0 <= j < |Pattern| ==> l[i + j] == Pattern[j] by {
        if forall j :: 0 <= j < |Pattern| ==> l[i + j] == Pattern[j] {
          assert l[i..i + |Pattern|] == Pattern;
        }
      }
    }
  }

  /** `MentionsAustralia` is exactly `/australia/i.test`: some index matches under the regular expression's rule. */
  lemma MentionsIsRegexTest(q: string)
    ensures MentionsAustralia(q) <==> exists i :: 0 <= i <= |q| && MatchesAt(q, i)
  {
    if MentionsAustralia(q) {
      var i :| 0 <= i <= |Lower(q)| && OccursAt(Lower(q), Pattern, i);
      OccursIffMatchesAt(q, i);
    }
    if exists i :: 0 <= i <= |q| && MatchesAt(q, i) {
      var i :| 0 <= i <= |q| && MatchesAt(q, i);
      OccursIffMatchesAt(q, i);
    }
  }

  /** Two queries that differ only in the letter case of ASCII letters get the same answer. */
  lemma MentionIgnoresCase(s: string, t: string)
    requires |s| == |t| && forall i :: 0 <= i < |s| ==> LowerChar(s[i]) == LowerChar(t[i])
    ensures MentionsAustralia(s) <==> MentionsAustralia(t)
  {
    assert Lower(s) == Lower(t);
  }

  /** A query with `", Australia"` appended mentions Australia, whatever came before. */
  lemma SuffixMentionsAustralia(q: string)
    ensures MentionsAustralia(q + CountrySuffix)
  {
    LowerAppend(q, CountrySuffix);
    var tail := Lower(CountrySuffix);
    assert tail[2..] == Pattern;
    assert OccursAt(tail, Pattern, 2);
    ContainsAfterPrefix(Lower(q), tail, Pattern);
  }

  /**
   * The Australia bias: a query that does not mention Australia gets
   * `", Australia"` appended. The result always mentions Australia, keeps
   * `q` as its prefix, and equals `q` exactly when `q` already mentioned it.
   */
  function Normalize(q: string): (r: string)
    ensures MentionsAustralia(r)
    ensures r == q <==> MentionsAustralia(q)
    ensures |q| <= |r| && r[..|q|] == q
    ensures !MentionsAustralia(q) ==> r == q + CountrySuffix
  {
    if MentionsAustralia(q) then q
    else
      SuffixMentionsAustralia(q);
      assert |q + CountrySuffix| == |q| + |CountrySuffix|;
      q + CountrySuffix
  }

  /** The fallback query itself mentions Australia. */
  lemma FallbackMentionsAustralia()
    ensures MentionsAustralia(FallbackQuery)
  {
    var l := Lower(FallbackQuery);
    assert l == Pattern;
    assert OccursAt(l, Pattern, 0);
  }

  /** Normalising twice is normalising once. */
  lemma NormalizeIdempotent(q: string)
    ensures Normalize(Normalize(q)) == Normalize(q)
  {
    var r := Normalize(q);
    assert MentionsAustralia(r);
  }

  /** `locationQuery` after the empty-query default: the parsed one when present and non-empty, else the fallback. */
  function QueryOrFallback(q: Option<string>): string {
    if q.Some? && q.value != "" then q.value else FallbackQuery
  }

  /**
   * Extraction as a value: None when reading the parsed reply
   * throws, otherwise the defaulted, normalised query and the parsed technology.
   */
  function Extraction(reply: ModelReply): (r: Option<ExtractResult>)
    ensures r.None? <==> reply.NonObject?
    ensures r.Some? ==> MentionsAustralia(r.value.locationQuery)
    ensures reply.Unparseable? ==> r == Some(ExtractResult(FallbackQuery, None))
    ensures reply.Parsed? && (reply.locationQuery.None? || reply.locationQuery == Some(""))
      ==> r == Some(ExtractResult(FallbackQuery, reply.technology))
    ensures reply.Parsed? && reply.locationQuery.Some? && MentionsAustralia(reply.locationQuery.value)
      ==> r == Some(ExtractResult(reply.locationQuery.value, reply.technology))
    ensures reply.Parsed? && reply.locationQuery.Some? && !MentionsAustralia(reply.locationQuery.value)
      && reply.locationQuery.value != ""
      ==> r == Some(ExtractResult(reply.locationQuery.value + CountrySuffix, reply.technology))
  {
    FallbackMentionsAustralia();
    match reply
    case Unparseable => Some(ExtractResult(Normalize(FallbackQuery), None))
    case NonObject => None
    case Parsed(q, t) =>
      Some(ExtractResult(Normalize(QueryOrFallback(q)), t))
  }

  /**
   * The extraction step by step, as `route.ts` mutates `extracted`: start from the default record, replace it by
   * the parsed reply, default an empty query, then append the country.
   */
  method Extract(reply: ModelReply) returns (extracted: Option<ExtractResult>)
    ensures extracted == Extraction(reply)
  {
    var query: Option<string> := Some(FallbackQuery);
    var technology: Option<string> := None;
    match reply {
      case Unparseable =>
      case NonObject =>
        return None;
      case Parsed(q, t) =>
        query, technology := q, t;
    }
    if query.None? || query.value == "" {
      query := Some(FallbackQuery);
    }
    if !MentionsAustralia(query.value) {
      query := Some(query.value + CountrySuffix);
    }
    extracted := Some(ExtractResult(query.value, technology));
  }

  /** `extracted.technology ?? 'wind'`. */
  function TechnologyOrWind(t: Option<string>): string {
    t.GetOr("wind")
  }

  /**
   * The `result` object of a 200, built from the extraction and the first
   * geocoding result: it carries a coordinate exactly when that result has a
   * location, copied with its address and place id; otherwise it carries the
   * `'Geocoding failed'` error. The query is the extracted one and the
   * technology the extracted one or `'wind'`.
   */
  function BuildResult(extracted: ExtractResult, best: Option<GeocodeHit>): (r: AgentResult)
    ensures r.locationQuery == extracted.locationQuery
    ensures extracted.technology.Some? ==> r.technology == extracted.technology.value
    ensures extracted.technology.None? ==> r.technology == "wind"
    ensures r.Located? <==> best.Some? && best.value.location.Some?
    ensures r.GeocodeFailed? ==> r.error == "Geocoding failed"
    ensures r.Located? ==>
      && r.coordinate == best.value.location.value
      && r.fullAddress == best.value.formattedAddress
      && r.placeId == best.value.placeId
      && r.source == "google-geocoding"
  {
    var technology := TechnologyOrWind(extracted.technology);
    if best.None? || best.value.location.None? then
      GeocodeFailed(technology, extracted.locationQuery, "Geocoding failed")
    else
      Located(technology, extracted.locationQuery, best.value.location.value,
              best.value.formattedAddress, best.value.placeId, "google-geocoding")
  }

  /** `!prompt || typeof prompt !== 'string'` fails. */
  predicate PromptAccepted(body: RequestBody) {
    body.Fields? && body.prompt.Some? && body.prompt.value != ""
  }

  /** The handler gets past extraction: the prompt is accepted, the model answered and its reply could be read. */
  predicate ExtractionSucceeds(body: RequestBody, reply: Option<ModelReply>) {
    PromptAccepted(body) && reply.Some? && !reply.value.NonObject?
  }

  /**
   * The handler. `reply` is None when the chat-completion call throws.
   * Besides the response it reports whether the model was asked and for
   * which address geocoding was requested.
   */
  method Post(body: RequestBody, reply: Option<ModelReply>, hasApiKey: bool, geocode: GeocodeAnswer)
    returns (response: Response, askedModel: bool, geocodedAddress: Option<string>)
    ensures response.status in {200, 400, 500}
    // a missing, empty or non-string prompt is a 400 and nothing is called
    ensures response.status == 400 <==> body.Fields? && !PromptAccepted(body)
    ensures response.status == 400 ==> response.payload == ErrorPayload("Missing prompt")
    ensures askedModel <==> PromptAccepted(body)
    // the key is looked at only once extraction has succeeded
    ensures response == Response(500, ErrorPayload("Missing Google Maps API key"))
      <==> ExtractionSucceeds(body, reply) && !hasApiKey
    // every thrown failure is the generic 500
    ensures response == Response(500, ErrorPayload("Agent failed"))
      <==> (|| body.Malformed? || body.NullBody?
            || (PromptAccepted(body) && (reply.None? || reply.value.NonObject?))
            || (ExtractionSucceeds(body, reply) && hasApiKey && geocode.GeocodeThrew?))
    ensures geocodedAddress.Some? <==> ExtractionSucceeds(body, reply) && hasApiKey
    ensures geocodedAddress.Some? ==>
      geocodedAddress.value == Extraction(reply.value).value.locationQuery
      && MentionsAustralia(geocodedAddress.value)
    // a 200 always carries a result; it has a coordinate exactly when geocoding found one
    ensures response.status == 200 <==> ExtractionSucceeds(body, reply) && hasApiKey && geocode.Geocoded?
    ensures response.status == 200 ==>
      && response.payload.ResultPayload?
      && var r := response.payload.result;
      && var e := Extraction(reply.value).value;
      && r.locationQuery == e.locationQuery
      && MentionsAustralia(r.locationQuery)
      && r.technology == TechnologyOrWind(e.technology)
      && (r.Located? <==> geocode.best.Some? && geocode.best.value.location.Some?)
      && (r.GeocodeFailed? ==> r.error == "Geocoding failed")
      && (r.Located? ==>
            && r.coordinate == geocode.best.value.location.value
            && r.fullAddress == geocode.best.value.formattedAddress
            && r.placeId == geocode.best.value.placeId
            && r.source == "google-geocoding")
  {
    askedModel, geocodedAddress := false, None;
    var agentFailed := Response(500, ErrorPayload("Agent failed"));
    if !body.Fields? {
      return agentFailed, askedModel, geocodedAddress;
    }
    if body.prompt.None? || body.prompt.value == "" {
      return Response(400, ErrorPayload("Missing prompt")), askedModel, geocodedAddress;
    }
    askedModel := true;
    if reply.None? {
      return agentFailed, askedModel, geocodedAddress;
    }
    var extracted := Extract(reply.value);
    if extracted.None? {
      return agentFailed, askedModel, geocodedAddress;
    }
    if !hasApiKey {
      return Response(500, ErrorPayload("Missing Google Maps API key")), askedModel, geocodedAddress;
    }
    geocodedAddress := Some(extracted.value.locationQuery);
    match geocode {
      case GeocodeThrew =>
        response := agentFailed;
      case Geocoded(best) =>
        response := Response(200, ResultPayload(BuildResult(extracted.value, best)));
    }
  }

  /** The worked example: "Dubbo" with technology "solar" is geocoded as "Dubbo, Australia". */
  lemma DubboIsBiasedToAustralia()
    ensures Extraction(Parsed(Some("Dubbo"), Some("solar")))
      == Some(ExtractResult("Dubbo, Australia", Some("solar")))
  {
    assert !MentionsAustralia("Dubbo");
    assert "Dubbo" + CountrySuffix == "Dubbo, Australia";
  }

  /** A query that already names Australia, in any letter case, is kept as it is. */
  lemma AustralianQueryIsKept()
    ensures Extraction(Parsed(Some("Western Australian outback"), None))
      == Some(ExtractResult("Western Australian outback", None))
  {
    var l := Lower("Western Australian outback");
    assert l[8..17] == "australia";
    assert OccursAt(l, "australia", 8);
  }
}

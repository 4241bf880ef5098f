/**
 * The chat proxy: the POST handler of the `/api/chat` route. It validates the
 * request's `messages` field, prefixes the caller's turns with a fixed persona
 * turn, calls the completion provider once and maps every outcome to one of
 * four responses. The provider and JSON parsing are collaborators: their
 * outcomes are parameters, and the calls the handler makes are returned as
 * data so that their number and content can be stated.
 */
module ChatProxy {
  import opened Wrappers

  /**
   * One element of the caller's `messages` array. Elements are not checked:
   * besides a `{role, content}` turn, any other JSON value (a bare string, an
   * object without `content`, ...) is forwarded as its serialized text.
   */
  datatype Turn = Turn(role: string, content: string) | Other(raw: string)

  /** The request body, as far as the handler looks into it. */
  datatype Body =
    | Unparsable              // `request.json()` throws, or yields `null` so that reading `messages` throws
    | Missing                 // `messages` is absent or falsy
    | NotArray                // `messages` is truthy but not an array
    | Array(turns: seq<Turn>) // `messages` is an array, possibly empty

  /** One candidate returned by the provider: its `message?.content`, when there is one. */
  datatype Choice = Choice(content: Option<string>)

  /** What the one provider call does: throw (network, quota, malformed reply) or return candidates. */
  datatype ProviderOutcome = Throws(reason: string) | Returns(choices: seq<Choice>)

  /** The outbound completion request (the fixed temperature is not modelled). */
  datatype CompletionRequest = CompletionRequest(model: string, messages: seq<Turn>, maxTokens: nat)

  datatype Payload = MessagePayload(message: string) | ErrorPayload(error: string)
  datatype Response = Response(status: nat, payload: Payload)

  /** The handler's whole effect: the provider calls it made, in order, and its response. */
  datatype Exchange = Exchange(calls: seq<CompletionRequest>, response: Response)

  const Model: string := "gpt-3.5-turbo"
  const MaxTokens: nat := 300

  /** Stands in for the fixed persona instructions; only their being fixed matters here. */
  const PersonaPrompt: string := "<coffee consultant persona>"
  const PersonaTurn: Turn := Turn("system", PersonaPrompt)

  const MessagesRequired: string := "Messages array is required"
  const NoResponseGenerated: string := "No response generated"
  const FailedToProcess: string := "Failed to process request"

  const BadRequest: Response := Response(400, ErrorPayload(MessagesRequired))
  const EmptyOutput: Response := Response(500, ErrorPayload(NoResponseGenerated))
  const ProviderFailure: Response := Response(500, ErrorPayload(FailedToProcess))

  /** The four response shapes the handler can produce. */
  predicate IsHandlerResponse(r: Response) {
    || (r.status == 200 && r.payload.MessagePayload? && r.payload.message != "")
    || r == BadRequest
    || r == EmptyOutput
    || r == ProviderFailure
  }

  /** The turns sent to the provider: the persona turn, then the caller's turns verbatim. */
  function Outbound(turns: seq<Turn>): (r: seq<Turn>)
    ensures |r| == |turns| + 1
    ensures r[0] == PersonaTurn
    ensures forall i :: 0 <= i < |turns| ==> r[i + 1] == turns[i]
  {
    [PersonaTurn] + turns
  }

  /** `response.choices[0]?.message?.content`: nothing when there is no first candidate. */
  function FirstContent(choices: seq<Choice>): (c: Option<string>)
    ensures choices == [] ==> c == None
    ensures choices != [] ==> c == choices[0].content
  {
    if |choices| == 0 then None else choices[0].content
  }

  /** The POST handler. */
  function Handle(body: Body, provider: ProviderOutcome): (x: Exchange)
    // Exactly one provider call per valid request, none otherwise, with the fixed settings.
    ensures |x.calls| == (if body.Array? then 1 else 0)
    ensures body.Array? ==> x.calls[0] == CompletionRequest(Model, Outbound(body.turns), MaxTokens)
    // A missing or non-array field, and only that, is the client's fault.
    ensures x.response == BadRequest <==> body.Missing? || body.NotArray?
    // A reply with no usable first candidate is an empty-output failure.
    ensures x.response == EmptyOutput <==>
      body.Array? && provider.Returns? && !Truthy(FirstContent(provider.choices))
    // Any thrown error, including an unparsable body, is a generic failure.
    ensures x.response == ProviderFailure <==> body.Unparsable? || (body.Array? && provider.Throws?)
    // Success hands back the first candidate's text unchanged.
    ensures x.response.status == 200 <==>
      body.Array? && provider.Returns? && Truthy(FirstContent(provider.choices))
    ensures x.response.status == 200 ==>
      x.response.payload == MessagePayload(FirstContent(provider.choices).value)
    ensures IsHandlerResponse(x.response)
  {
    match body
    case Unparsable => Exchange([], ProviderFailure)
    case Missing => Exchange([], BadRequest)
    case NotArray => Exchange([], BadRequest)
    case Array(turns) =>
      var call := CompletionRequest(Model, Outbound(turns), MaxTokens);
      match provider
      case Throws(_) => Exchange([call], ProviderFailure)
      case Returns(choices) =>
        var aiMessage := FirstContent(choices);
        if !Truthy(aiMessage) then Exchange([call], EmptyOutput)
        else Exchange([call], Response(200, MessagePayload(aiMessage.value)))
  }

  /** The provider's error text never reaches the caller: any two failures answer alike. */
  lemma FailureHidesReason(body: Body, reason1: string, reason2: string)
    ensures Handle(body, Throws(reason1)).response == Handle(body, Throws(reason2)).response
    ensures body.Array? ==> Handle(body, Throws(reason1)).response == ProviderFailure
  {
  }

  /** An empty array is accepted and sends the persona turn alone. */
  lemma EmptyHistoryAccepted(provider: ProviderOutcome)
    ensures Handle(Array([]), provider).calls == [CompletionRequest(Model, [PersonaTurn], MaxTokens)]
    ensures Handle(Array([]), provider).response != BadRequest
  {
    assert Outbound([]) == [PersonaTurn];
  }

  /** Element shapes are not validated: an array of arbitrary values is forwarded after the persona turn. */
  lemma UncheckedElementsForwarded(raws: seq<string>, provider: ProviderOutcome)
    ensures
      var turns := seq(|raws|, i requires 0 <= i < |raws| => Other(raws[i]));
      var x := Handle(Array(turns), provider);
      && x.response != BadRequest
      && x.calls == [CompletionRequest(Model, [PersonaTurn] + turns, MaxTokens)]
  {
  }

  /** A provider reply whose first candidate is the empty string is an empty-output failure. */
  lemma EmptyStringIsNoResponse(turns: seq<Turn>, rest: seq<Choice>)
    ensures Handle(Array(turns), Returns([Choice(Some(""))] + rest)).response == EmptyOutput
  {
  }

  /** A one-turn conversation answered by the provider yields that answer with status 200. */
  lemma SingleTurnScenario()
    ensures
      var body := Array([Turn("user", "I like fruity coffee")]);
      var reply := Returns([Choice(Some("Try an Ethiopian pour-over!"))]);
      Handle(body, reply).response == Response(200, MessagePayload("Try an Ethiopian pour-over!"))
  {
  }
}

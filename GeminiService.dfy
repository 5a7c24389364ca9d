/** The service layer around the hosted model, reduced to what the panels can
    observe: each call either yields a value or throws an `Error` with a fixed
    message. The model's reply itself is an input (`SdkReply`); prompts,
    schemas and the SDK are not modelled. */
module GeminiService {
  import opened Types

  /** What the code inside a service function's `try` block produces: the
      parsed reply, or anything it throws (an SDK error, a bad JSON text). */
  datatype SdkReply<T> = Replied(value: T) | Raised

  /** A web-grounded text reply: the text and the grounding chunks of its
      first candidate, which may be missing. */
  datatype GroundedText = GroundedText(text: string, groundingChunks: Option<seq<MarketSource>>)

  const DiagnosisFailed := "Failed to get a diagnosis from the AI. Please try again."
  const MarketFailed := "Failed to retrieve market trends. The AI may be busy, please try again later."

  /** `diagnoseCrop`: the parsed report, or an `Error` carrying the fixed
      diagnosis failure message whatever went wrong. */
  function DiagnoseCrop(reply: SdkReply<DiagnosisResult>): (r: Outcome<DiagnosisResult>)
    ensures r.Success? <==> reply.Replied?
    ensures r.Success? ==> r.value == reply.value
    ensures r.Failure? ==> r.thrown == ErrorObject(DiagnosisFailed)
  {
    match reply
    case Replied(value) => Success(value)
    case Raised => Failure(ErrorObject(DiagnosisFailed))
  }

  /** `getMarketTrend`: the reply text as summary and its grounding chunks as
      sources, an empty list when there are none; or an `Error` carrying the
      fixed market failure message. */
  function GetMarketTrend(reply: SdkReply<GroundedText>): (r: Outcome<MarketTrend>)
    ensures r.Success? <==> reply.Replied?
    ensures r.Success? ==> r.value.summary == reply.value.text
    ensures r.Success? && reply.value.groundingChunks.Some? ==> r.value.sources == reply.value.groundingChunks.value
    ensures r.Success? && reply.value.groundingChunks.None? ==> r.value.sources == []
    ensures r.Failure? ==> r.thrown == ErrorObject(MarketFailed)
  {
    match reply
    case Replied(g) =>
      var sources := match g.groundingChunks case Some(cs) => cs case None => [];
      Success(MarketTrend(g.text, sources))
    case Raised => Failure(ErrorObject(MarketFailed))
  }
}

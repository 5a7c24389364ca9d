/** The records the panels hold in their state, as declared in types.ts, and
    the abstract outcome of a call into the hosted model. */
module Types {

  /** A value that may be absent: the `T | null` of a React state slot. */
  datatype Option<T> = None | Some(value: T)

  /** `ChatMessage.role`: either the farmer or the model. */
  datatype Role = User | Model

  datatype ChatMessage = ChatMessage(role: Role, text: string)

  /** The structured report the diagnosis call returns. */
  datatype DiagnosisResult = DiagnosisResult(
    isHealthy: bool,
    disease: string,
    description: string,
    causes: seq<string>,
    organicTreatments: seq<string>,
    chemicalTreatments: seq<string>)

  /** The `web` part of a market source citation. */
  datatype WebRef = WebRef(uri: string, title: string)

  datatype MarketSource = MarketSource(web: WebRef)

  datatype MarketTrend = MarketTrend(summary: string, sources: seq<MarketSource>)

  /** What a `catch (e)` clause receives: an `Error` object with its message,
      or some other thrown value. */
  datatype Thrown = ErrorObject(message: string) | NonError

  /** How an awaited call ends: it resolves with a value or it throws. */
  datatype Outcome<T> = Success(value: T) | Failure(thrown: Thrown)
}

/** The records exchanged between the analysis service, the orchestrator and
    the dashboard (types.ts). Fields that the source types as string-literal
    unions arrive at run time as plain strings from an unchecked JSON cast, so
    they are kept as strings here and the literal constraint is a predicate. */
module Types {
  import opened Wrappers

  /** The closing-probability literals 'Low' | 'Medium' | 'High'. */
  datatype Probability = Low | Medium | High

  /** The resistance literals 'Red' | 'Yellow' | 'Green'. */
  datatype Resistance = Red | Yellow | Green

  function ProbabilityName(p: Probability): string {
    match p
    case Low => "Low"
    case Medium => "Medium"
    case High => "High"
  }

  function ResistanceName(x: Resistance): string {
    match x
    case Red => "Red"
    case Yellow => "Yellow"
    case Green => "Green"
  }

  /** Reads a probability literal; exactly the three names are accepted. */
  function ParseProbability(s: string): (r: Option<Probability>)
    ensures forall p :: r == Some(p) <==> ProbabilityName(p) == s
  {
    if s == "Low" then Some(Low)
    else if s == "Medium" then Some(Medium)
    else if s == "High" then Some(High)
    else None
  }

  /** Reads a resistance literal; exactly the three names are accepted. */
  function ParseResistance(s: string): (r: Option<Resistance>)
    ensures forall x :: r == Some(x) <==> ResistanceName(x) == s
  {
    if s == "Red" then Some(Red)
    else if s == "Yellow" then Some(Yellow)
    else if s == "Green" then Some(Green)
    else None
  }

  datatype TrustMetrics = TrustMetrics(score: int, probability: string, resistance: string) {
    /** What types.ts documents: a score in 0..100 and both enums within their literals. */
    predicate Valid() {
      0 <= score <= 100 && ParseProbability(probability).Some? && ParseResistance(resistance).Some?
    }
  }

  datatype DecodingItem = DecodingItem(surface: string, deep: string)

  datatype Emotions = Emotions(start: string, middle: string, end: string, turningPoint: string)

  datatype Advice = Advice(script: string, materials: string, timing: string)

  datatype AnalysisResult = AnalysisResult(
    trust: TrustMetrics,
    decoding: seq<DecodingItem>,
    emotions: Emotions,
    advice: Advice)

  datatype Role = User | Neo

  datatype ChatMessage = ChatMessage(id: string, role: Role, content: string)

  /** The four analysis states; the enum's string values are their names. */
  datatype LoadingState = Idle | Analyzing | Success | Error

  function LoadingStateName(s: LoadingState): string {
    match s
    case Idle => "IDLE"
    case Analyzing => "ANALYZING"
    case Success => "SUCCESS"
    case Error => "ERROR"
  }

  /** The enum's string values tell its four states apart. */
  lemma LoadingStateNamesDistinct(a: LoadingState, b: LoadingState)
    ensures LoadingStateName(a) == LoadingStateName(b) <==> a == b
  {
  }
}

/**
 * The shapes of the search/answer/research API's responses as the command
 * layer reads them, and the foreign conversions it relies on.
 */
module Api {
  import opened Js

  /** A JSON value, as `JSON.stringify` receives it. */
  datatype Json = JNull | JBool(b: bool) | JNum(n: Number) | JStr(s: string) | JArray(items: seq<Json>) | JObject(fields: seq<(string, Json)>)

  /** ToBoolean of a JSON value: null, false, zero, NaN and the empty string are falsy; arrays and objects are truthy. */
  predicate JsonTruthy(j: Json) {
    match j
    case JNull => false
    case JBool(b) => b
    case JNum(n) => NumberTruthy(n)
    case JStr(s) => s != ""
    case JArray(_) => true
    case JObject(_) => true
  }

  /** A cited source. The url is its identity; the title is for display only. */
  datatype Citation = Citation(url: string, title: Option<string>)

  /** One unit of a streamed answer; either field may be missing, and a citation may be null. */
  datatype Chunk = Chunk(content: Option<string>, citations: Option<seq<Option<Citation>>>)

  datatype CostDollars = CostDollars(total: Option<Number>)

  datatype SearchResult = SearchResult(
    title: Option<string>,
    url: string,
    id: string,
    publishedDate: Option<string>,
    author: Option<string>,
    score: Option<Number>,
    text: Option<string>,
    highlights: Option<seq<string>>,
    highlightScores: Option<seq<Number>>,
    summary: Option<string>)

  datatype SearchResponse = SearchResponse(
    requestId: Option<string>,
    costDollars: Option<CostDollars>,
    results: Option<seq<Option<SearchResult>>>)

  /** The answer is either text or a structured object. */
  datatype AnswerBody = AnswerText(text: string) | AnswerObject(obj: Json)

  datatype AnswerResponse = AnswerResponse(
    requestId: Option<string>,
    costDollars: Option<CostDollars>,
    answer: AnswerBody,
    citations: Option<seq<Option<Citation>>>)

  datatype ResearchOutput = ResearchOutput(parsed: Option<Json>, content: Option<string>)

  datatype ResearchEvent = ResearchEvent(createdAt: Number, eventType: string, message: Option<string>)

  datatype ResearchTask = ResearchTask(
    researchId: string,
    status: string,
    instructions: Option<string>,
    output: Option<ResearchOutput>,
    events: Option<seq<ResearchEvent>>)

  /** One page of the research task listing. */
  datatype ResearchPage = ResearchPage(data: Option<seq<ResearchTask>>, hasMore: bool, nextCursor: Option<string>)

  /** What a `catch` block receives: an `Error` object, or any other thrown value. */
  datatype Thrown = ErrorObject(message: string) | ThrownValue(value: Value)

  /**
   * The conversions the command layer takes from the JavaScript runtime:
   * `Number(string)`, `String(number)`, `n.toFixed(digits)`,
   * `new Date(ms).toISOString()`, `JSON.stringify(value, null, 2)`, and the
   * protocol of `new URL(string)` (None where the constructor throws).
   */
  datatype Host = Host(
    toNumber: string -> Number,
    numberToString: Number -> string,
    toFixed: (Number, nat) -> string,
    isoString: Number -> string,
    stringify: Json -> string,
    urlProtocol: string -> Option<string>)

  /** `String(value)` for the values a command can throw. */
  function ValueToString(v: Value, host: Host): string {
    match v
    case Absent => "undefined"
    case Null => "null"
    case Bool(b) => if b then "true" else "false"
    case Str(s) => s
    case Num(n) => host.numberToString(n)
    case StrList(items) => JoinWith(items, ",")
  }
}

/**
 * The `similar` command: the options it builds from its arguments, and the
 * choice between finding similar pages and finding them with contents.
 */
module Similar {
  import opened Js
  import opened Api
  import opened Options
  import opened Validation
  import opened Cli
  import Markdown

  const SimilarKeys: set<string> := {"numResults", "excludeSourceDomain", "category", "text", "highlights", "summary"}

  /** The options `buildSimilarOptions(args)` returns. */
  function SimilarOptions(args: Dict, toNumber: string -> Number): Dict {
    SimilarOptionsFrom(args, ParseNumber(Get(args, "num-results"), toNumber))
  }

  /** The writes of `buildSimilarOptions`, in order, given what `parseNumber` made of the result count. */
  function SimilarOptionsFrom(args: Dict, num: Option<Number>): Dict {
    var o := map[];
    var o := Put(o, num.Some?, "numResults", NumValue(num));
    var o := Put(o, IsTrue(Get(args, "exclude-source-domain")), "excludeSourceDomain", Bool(true));
    var o := Put(o, IsNonEmptyString(Get(args, "category")), "category", Get(args, "category"));
    var o := Put(o, IsTrue(Get(args, "text")), "text", Bool(true));
    var o := Put(o, IsTrue(Get(args, "highlights")), "highlights", Bool(true));
    var o := Put(o, IsTrue(Get(args, "summary")), "summary", Bool(true));
    o
  }

  /** Which options `buildSimilarOptions` stores, under which conditions, with which values, and no others. */
  predicate SimilarOptionsSpec(args: Dict, toNumber: string -> Number, o: Dict) {
    var num := ParseNumber(Get(args, "num-results"), toNumber);
    o.Keys <= SimilarKeys
    && SetExactlyWhen(o, "numResults", num.Some?, NumValue(num))
    && SetExactlyWhen(o, "excludeSourceDomain", IsTrue(Get(args, "exclude-source-domain")), Bool(true))
    && SetExactlyWhen(o, "category", IsNonEmptyString(Get(args, "category")), Get(args, "category"))
    && ContentFlagsSpec(args, o)
  }

  lemma SimilarFilters(args: Dict, num: Option<Number>)
    ensures SetExactlyWhen(SimilarOptionsFrom(args, num), "numResults", num.Some?, NumValue(num))
    ensures SetExactlyWhen(SimilarOptionsFrom(args, num), "excludeSourceDomain", IsTrue(Get(args, "exclude-source-domain")), Bool(true))
    ensures SetExactlyWhen(SimilarOptionsFrom(args, num), "category", IsNonEmptyString(Get(args, "category")), Get(args, "category"))
  {
  }

  lemma SimilarContentAndKeys(args: Dict, num: Option<Number>)
    ensures ContentFlagsSpec(args, SimilarOptionsFrom(args, num))
    ensures SimilarOptionsFrom(args, num).Keys <= SimilarKeys
  {
  }

  /** Key by key, the options `buildSimilarOptions` returns are the ones described above. */
  lemma SimilarOptionsMeaning(args: Dict, toNumber: string -> Number)
    ensures SimilarOptionsSpec(args, toNumber, SimilarOptions(args, toNumber))
  {
    var num := ParseNumber(Get(args, "num-results"), toNumber);
    SimilarFilters(args, num);
    SimilarContentAndKeys(args, num);
  }

  /** `buildSimilarOptions(args)` */
  method BuildSimilarOptions(args: Dict, toNumber: string -> Number) returns (options: Dict)
    ensures options == SimilarOptions(args, toNumber)
    ensures SimilarOptionsSpec(args, toNumber, options)
  {
    options := map[];
    var numResults := ParseNumber(Get(args, "num-results"), toNumber);
    options := PutIf(options, numResults.Some?, "numResults", NumValue(numResults));
    options := PutIf(options, IsTrue(Get(args, "exclude-source-domain")), "excludeSourceDomain", Bool(true));
    options := PutIf(options, IsNonEmptyString(Get(args, "category")), "category", Get(args, "category"));
    options := PutIf(options, IsTrue(Get(args, "text")), "text", Bool(true));
    options := PutIf(options, IsTrue(Get(args, "highlights")), "highlights", Bool(true));
    options := PutIf(options, IsTrue(Get(args, "summary")), "summary", Bool(true));
    SimilarOptionsMeaning(args, toNumber);
  }

  /** The SDK call `similar` makes for a url. */
  datatype SimilarCall = FindSimilar(url: string, options: Dict) | FindSimilarAndContents(url: string, options: Dict)

  /**
   * `similar(client, url, args)`: the call it makes, and what it prints for
   * the reply of that call (`responseJson` is the response as
   * `JSON.stringify` renders it).
   */
  method RunSimilar(url: string, args: Dict, reply: Reply<SearchResponse>, responseJson: string, host: Host) returns (call: SimilarCall, exit: Exit)
    ensures call.url == url
    ensures call.options == SimilarOptions(args, host.toNumber)
    ensures SimilarOptionsSpec(args, host.toNumber, call.options)
    ensures call.FindSimilarAndContents? <==> HasContentOptions(args)
    ensures call.FindSimilarAndContents? <==> ("text" in call.options || "highlights" in call.options || "summary" in call.options)
    ensures reply.Failed? ==> exit == Crashed(reply.error, host)
    ensures reply.Replied? && IsTrue(Get(args, "json")) ==> exit == Exit([Line(responseJson)], [], 0)
    ensures reply.Replied? && !IsTrue(Get(args, "json")) ==> exit == Exit([Line(Markdown.SearchResultsText(reply.value, host))], [], 0)
  {
    var options := BuildSimilarOptions(args, host.toNumber);
    var hasContentOptions := IsTrue(Get(args, "text")) || IsTrue(Get(args, "highlights")) || IsTrue(Get(args, "summary"));
    call := if hasContentOptions then FindSimilarAndContents(url, options) else FindSimilar(url, options);
    ContentKeysIffFlags(args, options);
    exit := ReportResults(reply, IsTrue(Get(args, "json")), responseJson, host);
  }
}

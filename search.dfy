/**
 * The `search` command: the options it builds from its arguments, and the
 * choice between a plain search and a search that also fetches contents.
 */
module Search {
  import opened Js
  import opened Api
  import opened Options
  import opened Validation
  import opened Cli
  import Markdown

  /** The keys of the filter writes, of the query-mode writes and of the content flags. */
  const FilterKeys: set<string> := {
    "numResults", "includeDomains", "excludeDomains", "category", "startPublishedDate", "endPublishedDate"}

  const ModeKeys: set<string> := {"useAutoprompt", "type"}

  const ContentKeys: set<string> := {"text", "highlights", "summary"}

  /** The eleven keys `buildSearchOptions` writes. */
  const SearchKeys: set<string> := FilterKeys + ModeKeys + ContentKeys

  /** A domain list is stored only when it parses to a non-empty list, and then as that list. */
  predicate NonEmptyList(r: Option<seq<string>>) {
    r.Some? && |r.value| > 0
  }

  /** The options `buildSearchOptions(args)` returns. */
  function SearchOptions(args: Dict, toNumber: string -> Number): Dict {
    var num := ParseNumber(Get(args, "num-results"), toNumber);
    SearchOptionsFrom(args, num, ParseStringList(Get(args, "include-domains")), ParseStringList(Get(args, "exclude-domains")))
  }

  /**
   * The writes of `buildSearchOptions`, in the order it performs them, given
   * what `parseNumber` and `parseStringList` made of the three arguments it
   * parses: first the filters, then the query mode, then the content flags.
   */
  function SearchOptionsFrom(args: Dict, num: Option<Number>, incl: Option<seq<string>>, exclude: Option<seq<string>>): Dict {
    SearchContentWrites(SearchModeWrites(SearchFilterWrites(args, num, incl, exclude), args), args)
  }

  /** The first six writes: result count, domain lists, category and date range. */
  function SearchFilterWrites(args: Dict, num: Option<Number>, incl: Option<seq<string>>, exclude: Option<seq<string>>): Dict {
    var o := map[];
    var o := Put(o, num.Some?, "numResults", NumValue(num));
    var o := Put(o, NonEmptyList(incl), "includeDomains", ListValue(incl));
    var o := Put(o, NonEmptyList(exclude), "excludeDomains", ListValue(exclude));
    var o := Put(o, IsNonEmptyString(Get(args, "category")), "category", Get(args, "category"));
    var o := Put(o, IsNonEmptyString(Get(args, "start-date")), "startPublishedDate", Get(args, "start-date"));
    var o := Put(o, IsNonEmptyString(Get(args, "end-date")), "endPublishedDate", Get(args, "end-date"));
    o
  }

  /** The next two writes, on the options written so far: autoprompt and search type. */
  function SearchModeWrites(o: Dict, args: Dict): Dict {
    var o := Put(o, IsTrue(Get(args, "autoprompt")), "useAutoprompt", Bool(true));
    Put(o, IsNonEmptyString(Get(args, "type")), "type", Get(args, "type"))
  }

  /** The last three writes, on the options written so far: the content flags. */
  function SearchContentWrites(o: Dict, args: Dict): Dict {
    var o := Put(o, IsTrue(Get(args, "text")), "text", Bool(true));
    var o := Put(o, IsTrue(Get(args, "highlights")), "highlights", Bool(true));
    Put(o, IsTrue(Get(args, "summary")), "summary", Bool(true))
  }

  /** The number of results and the domain lists, each stored exactly when it was parsed (to a non-empty list). */
  lemma SearchResultCountAndDomains(args: Dict, num: Option<Number>, incl: Option<seq<string>>, exclude: Option<seq<string>>)
    ensures SetExactlyWhen(SearchFilterWrites(args, num, incl, exclude), "numResults", num.Some?, NumValue(num))
    ensures SetExactlyWhen(SearchFilterWrites(args, num, incl, exclude), "includeDomains", NonEmptyList(incl), ListValue(incl))
    ensures SetExactlyWhen(SearchFilterWrites(args, num, incl, exclude), "excludeDomains", NonEmptyList(exclude), ListValue(exclude))
  {
  }

  /** Category and date range, each copied, under its new name, exactly when it is a non-empty string. */
  lemma SearchCategoryAndDates(args: Dict, num: Option<Number>, incl: Option<seq<string>>, exclude: Option<seq<string>>)
    ensures SetExactlyWhen(SearchFilterWrites(args, num, incl, exclude), "category", IsNonEmptyString(Get(args, "category")), Get(args, "category"))
    ensures SetExactlyWhen(SearchFilterWrites(args, num, incl, exclude), "startPublishedDate", IsNonEmptyString(Get(args, "start-date")), Get(args, "start-date"))
    ensures SetExactlyWhen(SearchFilterWrites(args, num, incl, exclude), "endPublishedDate", IsNonEmptyString(Get(args, "end-date")), Get(args, "end-date"))
    ensures SearchFilterWrites(args, num, incl, exclude).Keys <= FilterKeys
  {
  }

  /** Autoprompt and search type are written; every other key is left as it was. */
  lemma SearchModeOptions(o: Dict, args: Dict)
    requires o.Keys <= FilterKeys
    ensures SearchModeSpec(args, SearchModeWrites(o, args))
    ensures SearchModeWrites(o, args).Keys <= o.Keys + ModeKeys
    ensures forall k :: k in o ==> k in SearchModeWrites(o, args) && SearchModeWrites(o, args)[k] == o[k]
  {
  }

  /** The content flags are written last; every other key is left as it was. */
  lemma SearchContentFlags(o: Dict, args: Dict)
    requires o.Keys <= FilterKeys + ModeKeys
    ensures ContentFlagsSpec(args, SearchContentWrites(o, args))
    ensures SearchContentWrites(o, args).Keys <= o.Keys + ContentKeys
    ensures forall k :: k in o ==> k in SearchContentWrites(o, args) && SearchContentWrites(o, args)[k] == o[k]
  {
  }

  /** The result-count and filter options, given what `parseNumber` and `parseStringList` made of the arguments. */
  predicate SearchFilterSpecFrom(args: Dict, num: Option<Number>, incl: Option<seq<string>>, exclude: Option<seq<string>>, o: Dict) {
    SetExactlyWhen(o, "numResults", num.Some?, NumValue(num))
    && SetExactlyWhen(o, "includeDomains", NonEmptyList(incl), ListValue(incl))
    && SetExactlyWhen(o, "excludeDomains", NonEmptyList(exclude), ListValue(exclude))
    && SetExactlyWhen(o, "category", IsNonEmptyString(Get(args, "category")), Get(args, "category"))
    && SetExactlyWhen(o, "startPublishedDate", IsNonEmptyString(Get(args, "start-date")), Get(args, "start-date"))
    && SetExactlyWhen(o, "endPublishedDate", IsNonEmptyString(Get(args, "end-date")), Get(args, "end-date"))
  }

  /** The result-count and filter options: number of results, domain lists, category and date range. */
  predicate SearchFilterSpec(args: Dict, toNumber: string -> Number, o: Dict) {
    SearchFilterSpecFrom(args, ParseNumber(Get(args, "num-results"), toNumber),
      ParseStringList(Get(args, "include-domains")), ParseStringList(Get(args, "exclude-domains")), o)
  }

  /** The query-mode options: autoprompt and search type. */
  predicate SearchModeSpec(args: Dict, o: Dict) {
    SetExactlyWhen(o, "useAutoprompt", IsTrue(Get(args, "autoprompt")), Bool(true))
    && SetExactlyWhen(o, "type", IsNonEmptyString(Get(args, "type")), Get(args, "type"))
  }

  /** Which options `buildSearchOptions` stores, under which conditions, with which values, and no others. */
  predicate SearchOptionsSpec(args: Dict, toNumber: string -> Number, o: Dict) {
    o.Keys <= SearchKeys
    && SearchFilterSpec(args, toNumber, o)
    && SearchModeSpec(args, o)
    && ContentFlagsSpec(args, o)
  }

  /**
   * What the filter writes said of their keys still holds after the later
   * stages, which add only query-mode and content keys and keep every entry.
   */
  lemma FiltersKept(args: Dict, num: Option<Number>, incl: Option<seq<string>>, exclude: Option<seq<string>>, filters: Dict, all: Dict)
    requires SearchFilterSpecFrom(args, num, incl, exclude, filters)
    requires all.Keys <= filters.Keys + (ModeKeys + ContentKeys)
    requires forall k :: k in filters ==> k in all && all[k] == filters[k]
    ensures SearchFilterSpecFrom(args, num, incl, exclude, all)
  {
    var added := ModeKeys + ContentKeys;
    KeepsKey(filters, all, added, "numResults", num.Some?, NumValue(num));
    KeepsKey(filters, all, added, "includeDomains", NonEmptyList(incl), ListValue(incl));
    KeepsKey(filters, all, added, "excludeDomains", NonEmptyList(exclude), ListValue(exclude));
    KeepsKey(filters, all, added, "category", IsNonEmptyString(Get(args, "category")), Get(args, "category"));
    KeepsKey(filters, all, added, "startPublishedDate", IsNonEmptyString(Get(args, "start-date")), Get(args, "start-date"));
    KeepsKey(filters, all, added, "endPublishedDate", IsNonEmptyString(Get(args, "end-date")), Get(args, "end-date"));
  }

  /** What the query-mode writes said of their keys still holds after the content flags are written. */
  lemma ModeKept(args: Dict, mode: Dict, all: Dict)
    requires SearchModeSpec(args, mode)
    requires all.Keys <= mode.Keys + ContentKeys
    requires forall k :: k in mode ==> k in all && all[k] == mode[k]
    ensures SearchModeSpec(args, all)
  {
    KeepsKey(mode, all, ContentKeys, "useAutoprompt", IsTrue(Get(args, "autoprompt")), Bool(true));
    KeepsKey(mode, all, ContentKeys, "type", IsNonEmptyString(Get(args, "type")), Get(args, "type"));
  }

  /** Key by key, the options `buildSearchOptions` returns are the ones described above. */
  lemma SearchOptionsMeaning(args: Dict, toNumber: string -> Number)
    ensures SearchOptionsSpec(args, toNumber, SearchOptions(args, toNumber))
  {
    var num := ParseNumber(Get(args, "num-results"), toNumber);
    var incl := ParseStringList(Get(args, "include-domains"));
    var exclude := ParseStringList(Get(args, "exclude-domains"));
    var filters := SearchFilterWrites(args, num, incl, exclude);
    SearchResultCountAndDomains(args, num, incl, exclude);
    SearchCategoryAndDates(args, num, incl, exclude);
    var mode := SearchModeWrites(filters, args);
    SearchModeOptions(filters, args);
    var all := SearchContentWrites(mode, args);
    SearchContentFlags(mode, args);
    assert all.Keys <= filters.Keys + (ModeKeys + ContentKeys);
    FiltersKept(args, num, incl, exclude, filters, all);
    ModeKept(args, mode, all);
  }

  /** `buildSearchOptions(args)` */
  method BuildSearchOptions(args: Dict, toNumber: string -> Number) returns (options: Dict)
    ensures options == SearchOptions(args, toNumber)
  {
    options := map[];
    var numResults := ParseNumber(Get(args, "num-results"), toNumber);
    options := PutIf(options, numResults.Some?, "numResults", NumValue(numResults));
    var includeDomains := ParseStringList(Get(args, "include-domains"));
    options := PutIf(options, NonEmptyList(includeDomains), "includeDomains", ListValue(includeDomains));
    var excludeDomains := ParseStringList(Get(args, "exclude-domains"));
    options := PutIf(options, NonEmptyList(excludeDomains), "excludeDomains", ListValue(excludeDomains));
    options := PutIf(options, IsNonEmptyString(Get(args, "category")), "category", Get(args, "category"));
    options := PutIf(options, IsNonEmptyString(Get(args, "start-date")), "startPublishedDate", Get(args, "start-date"));
    options := PutIf(options, IsNonEmptyString(Get(args, "end-date")), "endPublishedDate", Get(args, "end-date"));
    ghost var filters := options;
    assert filters == SearchFilterWrites(args, numResults, includeDomains, excludeDomains);
    options := PutIf(options, IsTrue(Get(args, "autoprompt")), "useAutoprompt", Bool(true));
    options := PutIf(options, IsNonEmptyString(Get(args, "type")), "type", Get(args, "type"));
    ghost var mode := options;
    assert mode == SearchModeWrites(filters, args);
    options := PutIf(options, IsTrue(Get(args, "text")), "text", Bool(true));
    options := PutIf(options, IsTrue(Get(args, "highlights")), "highlights", Bool(true));
    options := PutIf(options, IsTrue(Get(args, "summary")), "summary", Bool(true));
    assert options == SearchContentWrites(mode, args);
  }

  /** A stored domain list is exactly what `parseStringList` made of the argument: non-empty, trimmed, comma-free entries. */
  lemma StoredDomainsAreParsed(args: Dict, toNumber: string -> Number, o: Dict)
    requires SearchOptionsSpec(args, toNumber, o)
    ensures "includeDomains" in o ==>
      Get(args, "include-domains").Str? && o["includeDomains"] == StrList(ParseStringList(Get(args, "include-domains")).value)
      && |o["includeDomains"].items| > 0
      && forall d :: d in o["includeDomains"].items ==> d != "" && IsTrimmed(d) && ',' !in d
    ensures "excludeDomains" in o ==>
      Get(args, "exclude-domains").Str? && o["excludeDomains"] == StrList(ParseStringList(Get(args, "exclude-domains")).value)
      && |o["excludeDomains"].items| > 0
  {
  }

  /** The SDK call `search` makes. */
  datatype SearchCall = PlainSearch(options: Dict) | SearchAndContents(options: Dict)

  /**
   * `search(client, query, args)`: the call it makes, and what it prints for
   * the reply of that call (`responseJson` is the response as
   * `JSON.stringify` renders it).
   */
  method RunSearch(args: Dict, reply: Reply<SearchResponse>, responseJson: string, host: Host) returns (call: SearchCall, exit: Exit)
    ensures call.options == SearchOptions(args, host.toNumber)
    ensures SearchOptionsSpec(args, host.toNumber, call.options)
    ensures call.SearchAndContents? <==> HasContentOptions(args)
    ensures call.SearchAndContents? <==> ("text" in call.options || "highlights" in call.options || "summary" in call.options)
    ensures reply.Failed? ==> exit == Crashed(reply.error, host)
    ensures reply.Replied? && IsTrue(Get(args, "json")) ==> exit == Exit([Line(responseJson)], [], 0)
    ensures reply.Replied? && !IsTrue(Get(args, "json")) ==> exit == Exit([Line(Markdown.SearchResultsText(reply.value, host))], [], 0)
  {
    var options := BuildSearchOptions(args, host.toNumber);
    SearchOptionsMeaning(args, host.toNumber);
    var hasContentOptions := IsTrue(Get(args, "text")) || IsTrue(Get(args, "highlights")) || IsTrue(Get(args, "summary"));
    call := if hasContentOptions then SearchAndContents(options) else PlainSearch(options);
    ContentKeysIffFlags(args, options);
    exit := ReportResults(reply, IsTrue(Get(args, "json")), responseJson, host);
  }
}

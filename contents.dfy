/**
 * The `contents` command: every URL is checked before any request is made,
 * and the first one that is not http(s) ends the command.
 */
module Contents {
  import opened Js
  import opened Api
  import opened Options
  import opened Validation
  import opened Cli
  import Markdown

  const ContentsKeys: set<string> := {"text", "highlights", "summary", "maxAgeHours"}

  /** The position of the first URL `isValidUrl` rejects, if any. */
  function FirstInvalid(urls: seq<string>, protocolOf: string -> Option<string>): (r: Option<nat>)
    ensures r.Some? ==> r.value < |urls| && !IsValidUrl(urls[r.value], protocolOf)
    ensures r.Some? ==> forall j :: 0 <= j < r.value ==> IsValidUrl(urls[j], protocolOf)
    ensures r.None? <==> forall j :: 0 <= j < |urls| ==> IsValidUrl(urls[j], protocolOf)
    decreases |urls|
  {
    if urls == [] then None
    else if !IsValidUrl(urls[0], protocolOf) then Some(0)
    else
      var rest := FirstInvalid(urls[1..], protocolOf);
      assert forall j :: 1 <= j < |urls| ==> urls[j] == urls[1..][j - 1];
      if rest.Some? then Some(rest.value + 1) else None
  }

  /** The message printed for a rejected URL. */
  function InvalidUrlMessage(url: string): (r: string)
    ensures |r| == 20 + |url| + 40
    ensures r[..20] == "Error: Invalid URL \"" && r[20..20 + |url|] == url
    ensures r[20 + |url|..] == "\". URLs must use HTTP or HTTPS protocol."
  {
    "Error: Invalid URL \"" + url + "\". URLs must use HTTP or HTTPS protocol."
  }

  /** The options `buildContentsOptions(args)` returns. */
  function ContentsOptions(args: Dict, toNumber: string -> Number): Dict {
    ContentsOptionsFrom(args, ParseNumber(Get(args, "max-age-hours"), toNumber))
  }

  /** The writes of `buildContentsOptions`, in order, given what `parseNumber` made of the maximum age. */
  function ContentsOptionsFrom(args: Dict, maxAge: Option<Number>): Dict {
    var o := map[];
    var o := Put(o, IsTrue(Get(args, "text")), "text", Bool(true));
    var o := Put(o, IsTrue(Get(args, "highlights")), "highlights", Bool(true));
    var o := Put(o, IsTrue(Get(args, "summary")), "summary", Bool(true));
    var o := Put(o, maxAge.Some?, "maxAgeHours", NumValue(maxAge));
    o
  }

  /** Which options `buildContentsOptions` stores, under which conditions, with which values, and no others. */
  predicate ContentsOptionsSpec(args: Dict, toNumber: string -> Number, o: Dict) {
    var maxAge := ParseNumber(Get(args, "max-age-hours"), toNumber);
    o.Keys <= ContentsKeys
    && ContentFlagsSpec(args, o)
    && SetExactlyWhen(o, "maxAgeHours", maxAge.Some?, NumValue(maxAge))
  }

  lemma ContentsOptionsWrites(args: Dict, maxAge: Option<Number>)
    ensures ContentFlagsSpec(args, ContentsOptionsFrom(args, maxAge))
    ensures SetExactlyWhen(ContentsOptionsFrom(args, maxAge), "maxAgeHours", maxAge.Some?, NumValue(maxAge))
    ensures ContentsOptionsFrom(args, maxAge).Keys <= ContentsKeys
  {
  }

  /** Key by key, the options `buildContentsOptions` returns are the ones described above. */
  lemma ContentsOptionsMeaning(args: Dict, toNumber: string -> Number)
    ensures ContentsOptionsSpec(args, toNumber, ContentsOptions(args, toNumber))
  {
    ContentsOptionsWrites(args, ParseNumber(Get(args, "max-age-hours"), toNumber));
  }

  /** `buildContentsOptions(args)` */
  method BuildContentsOptions(args: Dict, toNumber: string -> Number) returns (options: Dict)
    ensures options == ContentsOptions(args, toNumber)
    ensures ContentsOptionsSpec(args, toNumber, options)
  {
    options := map[];
    options := PutIf(options, IsTrue(Get(args, "text")), "text", Bool(true));
    options := PutIf(options, IsTrue(Get(args, "highlights")), "highlights", Bool(true));
    options := PutIf(options, IsTrue(Get(args, "summary")), "summary", Bool(true));
    var maxAgeHours := ParseNumber(Get(args, "max-age-hours"), toNumber);
    options := PutIf(options, maxAgeHours.Some?, "maxAgeHours", NumValue(maxAgeHours));
    ContentsOptionsMeaning(args, toNumber);
  }

  /** The SDK call `contents` makes: all the URLs, as given, in one request. */
  datatype ContentsCall = GetContents(urls: seq<string>, options: Dict)

  /**
   * `contents(client, urls, args)`: either the first invalid URL is reported
   * and no call is made, or one call carries every URL and its reply is
   * printed (`responseJson` is the response as `JSON.stringify` renders it).
   */
  method RunContents(urls: seq<string>, args: Dict, reply: Reply<SearchResponse>, responseJson: string, host: Host)
    returns (call: Option<ContentsCall>, exit: Exit)
    ensures call.None? <==> exists j :: 0 <= j < |urls| && !IsValidUrl(urls[j], host.urlProtocol)
    ensures call.None? ==> FirstInvalid(urls, host.urlProtocol).Some?
    ensures call.None? ==> exit == Exit([], [Line(InvalidUrlMessage(urls[FirstInvalid(urls, host.urlProtocol).value]))], 1)
    ensures call.Some? ==> call.value == GetContents(urls, ContentsOptions(args, host.toNumber))
    ensures call.Some? ==> ContentsOptionsSpec(args, host.toNumber, call.value.options)
    ensures call.Some? && reply.Failed? ==> exit == Crashed(reply.error, host)
    ensures call.Some? && reply.Replied? && IsTrue(Get(args, "json")) ==> exit == Exit([Line(responseJson)], [], 0)
    ensures call.Some? && reply.Replied? && !IsTrue(Get(args, "json")) ==>
      exit == Exit([Line(Markdown.SearchResultsText(reply.value, host))], [], 0)
  {
    for i := 0 to |urls|
      invariant forall j :: 0 <= j < i ==> IsValidUrl(urls[j], host.urlProtocol)
    {
      if !IsValidUrl(urls[i], host.urlProtocol) {
        assert FirstInvalid(urls, host.urlProtocol) == Some(i);
        return None, Exit([], [Line(InvalidUrlMessage(urls[i]))], 1);
      }
    }
    var options := BuildContentsOptions(args, host.toNumber);
    call := Some(GetContents(urls, options));
    exit := ReportResults(reply, IsTrue(Get(args, "json")), responseJson, host);
  }
}

/**
 * The markdown formatter: search results, answers and research tasks as
 * markdown text, and the one-line error and success messages. Each
 * formatter is a method that builds its output piece by piece, proved equal
 * to a template function; the lemmas state what the templates guarantee.
 */
module Markdown {
  import opened Js
  import opened Api

  /** `title || "Untitled"` */
  function DisplayTitle(t: Option<string>): (r: string)
    ensures r != ""
    ensures Present(t) ==> r == t.value
    ensures !Present(t) ==> r == "Untitled"
  {
    if Present(t) then t.value else "Untitled"
  }

  /** `${n}. [${title || "Untitled"}](${url})` */
  function CitationEntry(n: nat, c: Citation): string {
    Decimal(n) + ". [" + DisplayTitle(c.title) + "](" + c.url + ")"
  }

  /** `costDollars.total?.toFixed(4) || "0.0000"` */
  function CostText(c: CostDollars, host: Host): string {
    match c.total
    case None => "0.0000"
    case Some(n) => var s := host.toFixed(n, 4); if s == "" then "0.0000" else s
  }

  /** The title line, then the request id line and the cost line where the response has them. */
  function Preamble(title: string, requestId: Option<string>, cost: Option<CostDollars>, host: Host): string {
    title
    + (if Present(requestId) then "Request ID: " + requestId.value + "\n\n" else "")
    + (if cost.Some? then "Cost: $" + CostText(cost.value, host) + "\n\n" else "")
  }

  /** The request id line follows the title exactly when the response has a (non-empty) id; the cost line is the only other addition. */
  lemma PreambleRequestId(title: string, requestId: Option<string>, cost: Option<CostDollars>, host: Host)
    ensures Present(requestId) ==>
      var p, l := Preamble(title, requestId, cost, host), "Request ID: " + requestId.value + "\n\n";
      |title| + |l| <= |p| && p[..|title|] == title && p[|title|..|title| + |l|] == l
    ensures !Present(requestId) ==> Preamble(title, requestId, cost, host) == Preamble(title, None, cost, host)
    ensures Preamble(title, None, None, host) == title
  {
    if Present(requestId) {
      var l := "Request ID: " + requestId.value + "\n\n";
      var c := if cost.Some? then "Cost: $" + CostText(cost.value, host) + "\n\n" else "";
      assert Preamble(title, requestId, cost, host) == title + l + c;
      AppendAssoc(title, l, c);
    }
  }

  // ---------------------------------------------------------------- search results

  /** `tag${v}\n` when the optional field v is truthy, nothing otherwise. */
  function OptLine(tag: string, v: Option<string>): string {
    if Present(v) then tag + v.value + "\n" else ""
  }

  /** `heading${v}\n\n` when the optional field v is truthy, nothing otherwise. */
  function OptSection(heading: string, v: Option<string>): string {
    if Present(v) then heading + v.value + "\n\n" else ""
  }

  /** `highlightScores?.[j]` */
  function ScoreAt(scores: Option<seq<Number>>, j: nat): Option<Number> {
    if scores.Some? && j < |scores.value| then Some(scores.value[j]) else None
  }

  /** The score suffix of a highlight bullet: only for a truthy score. */
  function ScoreSuffix(score: Option<Number>, host: Host): string {
    if score.Some? && NumberTruthy(score.value) then " (score: " + host.toFixed(score.value, 2) + ")" else ""
  }

  function HighlightLine(h: string, score: Option<Number>, host: Host): string {
    "- " + h + ScoreSuffix(score, host) + "\n"
  }

  /**
   * One bullet per highlight, in order, each with the score of the same index:
   * the closed form the highlights loop is proved equal to. Its properties are
   * in HighlightsSectionShape.
   */
  function HighlightLines(hs: seq<string>, scores: Option<seq<Number>>, host: Host): (r: seq<string>)
    ensures |r| == |hs|
    ensures forall j :: 0 <= j < |hs| ==> r[j] == HighlightLine(hs[j], ScoreAt(scores, j), host)
  {
    seq(|hs|, j requires 0 <= j < |hs| => HighlightLine(hs[j], ScoreAt(scores, j), host))
  }

  function HighlightsSection(r: SearchResult, host: Host): string {
    if r.highlights.Some? && |r.highlights.value| > 0 then
      "### Highlights\n\n" + Concat(HighlightLines(r.highlights.value, r.highlightScores, host)) + "\n"
    else ""
  }

  function ResultHeading(i: nat, r: SearchResult): string {
    "## " + Decimal(i + 1) + ". " + DisplayTitle(r.title) + "\n\n"
  }

  /** The relevance score line: only for a truthy score. */
  function ScoreLine(score: Option<Number>, host: Host): string {
    if score.Some? && NumberTruthy(score.value) then "- **Relevance Score:** " + host.toFixed(score.value, 3) + "\n" else ""
  }

  /** The bullet list of a result and its content section. */
  function ResultDetails(r: SearchResult, host: Host): string {
    ("- **URL:** " + r.url + "\n")
    + ("- **ID:** " + r.id + "\n")
    + OptLine("- **Published:** ", r.publishedDate)
    + OptLine("- **Author:** ", r.author)
    + ScoreLine(r.score, host)
    + "\n"
    + OptSection("### Content\n\n", r.text)
  }

  function ResultTail(r: SearchResult): string {
    OptSection("### Summary\n\n", r.summary) + "---\n\n"
  }

  /** The block for the result at (0-based) position i. */
  function ResultBlock(i: nat, r: SearchResult, host: Host): string {
    ResultHeading(i, r) + ResultDetails(r, host) + HighlightsSection(r, host) + ResultTail(r)
  }

  /** What one position of the results array contributes: nothing for a null entry. */
  function ResultEntry(i: nat, r: Option<SearchResult>, host: Host): string {
    if r.Some? then ResultBlock(i, r.value, host) else ""
  }

  /**
   * The entry for each position, in order: the closed form the results loop is
   * proved equal to. What it promises is proved in ResultNumberedByPosition and
   * SkippedNullConsumesIndex.
   */
  function ResultEntries(rs: seq<Option<SearchResult>>, host: Host): (r: seq<string>)
    ensures |r| == |rs|
    ensures forall i :: 0 <= i < |rs| ==> r[i] == ResultEntry(i, rs[i], host)
  {
    seq(|rs|, i requires 0 <= i < |rs| => ResultEntry(i, rs[i], host))
  }

  predicate HasResults(data: SearchResponse) {
    data.results.Some? && |data.results.value| > 0
  }

  /** The markdown `formatSearchResults` produces. */
  function SearchResultsText(data: SearchResponse, host: Host): string {
    Preamble("# Search Results\n\n", data.requestId, data.costDollars, host)
    + (if HasResults(data) then Concat(ResultEntries(data.results.value, host)) else "No results found.\n")
  }

  /** The request id and cost lines of a response, appended where the response has them. */
  method AppendPreamble(title: string, requestId: Option<string>, cost: Option<CostDollars>, host: Host) returns (out: string)
    ensures out == Preamble(title, requestId, cost, host)
  {
    out := title;
    if Present(requestId) {
      out := out + ("Request ID: " + requestId.value + "\n\n");
    }
    assert out == title + (if Present(requestId) then "Request ID: " + requestId.value + "\n\n" else "");
    ghost var prev := out;
    if cost.Some? {
      out := out + ("Cost: $" + CostText(cost.value, host) + "\n\n");
    }
    assert out == prev + (if cost.Some? then "Cost: $" + CostText(cost.value, host) + "\n\n" else "");
  }

  /** Appends the highlights section of a result with highlights. */
  method AppendHighlights(output: string, hs: seq<string>, scores: Option<seq<Number>>, host: Host) returns (out: string)
    ensures out == output + ("### Highlights\n\n" + Concat(HighlightLines(hs, scores, host)) + "\n")
  {
    out := output + "### Highlights\n\n";
    ghost var lines := HighlightLines(hs, scores, host);
    var j := 0;
    while j < |hs|
      invariant 0 <= j <= |hs|
      invariant out == output + "### Highlights\n\n" + Concat(lines[..j])
    {
      ConcatPrefixStep(lines, j);
      AppendAssoc(output + "### Highlights\n\n", Concat(lines[..j]), lines[j]);
      var score := ScoreAt(scores, j);
      out := out + ("- " + hs[j] + (if score.Some? && NumberTruthy(score.value) then " (score: " + host.toFixed(score.value, 2) + ")" else "") + "\n");
      j := j + 1;
    }
    assert lines[..|hs|] == lines;
    out := out + "\n";
    AppendAssoc(output, "### Highlights\n\n", Concat(lines));
    AppendAssoc(output, "### Highlights\n\n" + Concat(lines), "\n");
  }

  /** Appends the bullet list and the content section of a result. */
  method AppendDetails(output: string, r: SearchResult, host: Host) returns (out: string)
    ensures out == output + ResultDetails(r, host)
  {
    out := output + ("- **URL:** " + r.url + "\n");
    ghost var t := "- **URL:** " + r.url + "\n";
    out := out + ("- **ID:** " + r.id + "\n");
    AppendAssoc(output, t, "- **ID:** " + r.id + "\n");
    t := t + ("- **ID:** " + r.id + "\n");
    ghost var prev := out;
    if Present(r.publishedDate) {
      out := out + ("- **Published:** " + r.publishedDate.value + "\n");
    }
    assert out == prev + OptLine("- **Published:** ", r.publishedDate);
    AppendAssoc(output, t, OptLine("- **Published:** ", r.publishedDate));
    t := t + OptLine("- **Published:** ", r.publishedDate);
    prev := out;
    if Present(r.author) {
      out := out + ("- **Author:** " + r.author.value + "\n");
    }
    assert out == prev + OptLine("- **Author:** ", r.author);
    AppendAssoc(output, t, OptLine("- **Author:** ", r.author));
    t := t + OptLine("- **Author:** ", r.author);
    prev := out;
    if r.score.Some? && NumberTruthy(r.score.value) {
      out := out + ("- **Relevance Score:** " + host.toFixed(r.score.value, 3) + "\n");
    }
    assert out == prev + ScoreLine(r.score, host);
    AppendAssoc(output, t, ScoreLine(r.score, host));
    t := t + ScoreLine(r.score, host);
    out := out + "\n";
    AppendAssoc(output, t, "\n");
    t := t + "\n";
    prev := out;
    if Present(r.text) {
      out := out + ("### Content\n\n" + r.text.value + "\n\n");
    }
    assert out == prev + OptSection("### Content\n\n", r.text);
    AppendAssoc(output, t, OptSection("### Content\n\n", r.text));
  }

  /** Appends the block of the result at position i. */
  method AppendResult(output: string, i: nat, r: SearchResult, host: Host) returns (out: string)
    ensures out == output + ResultBlock(i, r, host)
  {
    out := output + ("## " + Decimal(i + 1) + ". " + DisplayTitle(r.title) + "\n\n");
    ghost var t := ResultHeading(i, r);
    out := AppendDetails(out, r, host);
    AppendAssoc(output, t, ResultDetails(r, host));
    t := t + ResultDetails(r, host);
    ghost var prev := out;
    if r.highlights.Some? && |r.highlights.value| > 0 {
      out := AppendHighlights(out, r.highlights.value, r.highlightScores, host);
    }
    assert out == prev + HighlightsSection(r, host);
    AppendAssoc(output, t, HighlightsSection(r, host));
    t := t + HighlightsSection(r, host);
    prev := out;
    if Present(r.summary) {
      out := out + ("### Summary\n\n" + r.summary.value + "\n\n");
    }
    assert out == prev + OptSection("### Summary\n\n", r.summary);
    out := out + "---\n\n";
    AppendAssoc(prev, OptSection("### Summary\n\n", r.summary), "---\n\n");
    AppendAssoc(output, t, ResultTail(r));
  }

  /** One turn of the results loop: a null entry is skipped, any other is appended. */
  method AppendResultEntry(output: string, i: nat, r: Option<SearchResult>, host: Host) returns (out: string)
    ensures out == output + ResultEntry(i, r, host)
  {
    if r.None? {
      return output;
    }
    out := AppendResult(output, i, r.value, host);
  }

  /** The results loop: every position in order, numbered by its index. */
  method AppendResults(output: string, rs: seq<Option<SearchResult>>, host: Host) returns (out: string)
    ensures out == output + Concat(ResultEntries(rs, host))
  {
    out := output;
    ghost var entries := ResultEntries(rs, host);
    var i := 0;
    while i < |rs|
      invariant 0 <= i <= |rs|
      invariant out == output + Concat(entries[..i])
    {
      ConcatPrefixStep(entries, i);
      AppendAssoc(output, Concat(entries[..i]), entries[i]);
      out := AppendResultEntry(out, i, rs[i], host);
      i := i + 1;
    }
    assert entries[..|rs|] == entries;
  }

  /** `formatSearchResults(response)` in its markdown mode. */
  method FormatSearchResults(data: SearchResponse, host: Host) returns (output: string)
    ensures output == SearchResultsText(data, host)
  {
    output := AppendPreamble("# Search Results\n\n", data.requestId, data.costDollars, host);
    if !HasResults(data) {
      output := output + "No results found.\n";
      return;
    }
    output := AppendResults(output, data.results.value, host);
  }

  /** Without results the text is the preamble and the "No results found." line, and nothing else. */
  lemma NoResultsText(data: SearchResponse, host: Host)
    requires !HasResults(data)
    ensures SearchResultsText(data, host) == Preamble("# Search Results\n\n", data.requestId, data.costDollars, host) + "No results found.\n"
  {
  }

  /**
   * The result at position k is rendered as its block for position k,
   * between the entries before it and the entries after it, whatever nulls precede it.
   */
  lemma ResultNumberedByPosition(rs: seq<Option<SearchResult>>, k: nat, host: Host)
    requires k < |rs| && rs[k].Some?
    ensures Concat(ResultEntries(rs, host))
         == Concat(ResultEntries(rs, host)[..k]) + ResultBlock(k, rs[k].value, host) + Concat(ResultEntries(rs, host)[k + 1..])
  {
    var e := ResultEntries(rs, host);
    ConcatSplit(e, k);
    assert e[k] == ResultBlock(k, rs[k].value, host);
  }

  /**
   * The block for position i opens with the heading numbered i + 1 and titled
   * with the result's title (or "Untitled"), and that number reads back as i + 1.
   */
  lemma ResultHeadingNumber(i: nat, r: SearchResult, host: Host)
    ensures var h := "## " + Decimal(i + 1) + ". " + DisplayTitle(r.title) + "\n\n";
      |h| <= |ResultBlock(i, r, host)| && ResultBlock(i, r, host)[..|h|] == h
    ensures DigitsValue(Decimal(i + 1)) == i + 1
  {
    var hd := ResultHeading(i, r);
    assert hd == "## " + Decimal(i + 1) + ". " + DisplayTitle(r.title) + "\n\n";
    var d, hi, t := ResultDetails(r, host), HighlightsSection(r, host), ResultTail(r);
    AppendAssoc(hd, d, hi);
    AppendAssoc(hd, d + hi, t);
    PrefixOfAppend(hd, d + hi + t);
    DecimalRoundTrip(i + 1);
  }

  /** A null entry renders as nothing but still takes up its number: the next result is numbered after it. */
  lemma SkippedNullConsumesIndex(rs: seq<Option<SearchResult>>, r: SearchResult, host: Host)
    ensures Concat(ResultEntries(rs + [None, Some(r)], host))
         == Concat(ResultEntries(rs, host)) + ResultBlock(|rs| + 1, r, host)
  {
    var e := ResultEntries(rs + [None, Some(r)], host);
    assert e == ResultEntries(rs, host) + ["", ResultBlock(|rs| + 1, r, host)];
    ConcatAppend(ResultEntries(rs, host), ["", ResultBlock(|rs| + 1, r, host)]);
    assert Concat(["", ResultBlock(|rs| + 1, r, host)]) == ResultBlock(|rs| + 1, r, host) by {
      var two := ["", ResultBlock(|rs| + 1, r, host)];
      assert two[..1] == [""];
      assert [""][..0] == [];
    }
  }

  /** The highlights section exists exactly for a non-empty list, and then holds one bullet per highlight, in order. */
  lemma HighlightsSectionShape(r: SearchResult, host: Host)
    ensures (HighlightsSection(r, host) == "") <==> (r.highlights.None? || r.highlights.value == [])
    ensures r.highlights.Some? && r.highlights.value != [] ==>
      HighlightsSection(r, host) == "### Highlights\n\n" + Concat(HighlightLines(r.highlights.value, r.highlightScores, host)) + "\n"
  {
  }

  // ---------------------------------------------------------------- answers

  /** A string answer as a paragraph; a structured answer as a fenced JSON block. */
  function AnswerBodyText(a: AnswerBody, host: Host): string {
    match a
    case AnswerText(t) => t + "\n\n"
    case AnswerObject(o) => "```json\n" + host.stringify(o) + "\n```\n\n"
  }

  /** What one position of the citations array contributes: nothing for a null entry. */
  function CitationItem(i: nat, c: Option<Citation>): string {
    if c.Some? then Line(CitationEntry(i + 1, c.value)) else ""
  }

  /**
   * The item for each position, in order: the closed form the citations loop
   * is proved equal to. Its properties are in CitationsSectionShape.
   */
  function CitationEntries(cs: seq<Option<Citation>>): (r: seq<string>)
    ensures |r| == |cs|
    ensures forall i :: 0 <= i < |cs| ==> r[i] == CitationItem(i, cs[i])
  {
    seq(|cs|, i requires 0 <= i < |cs| => CitationItem(i, cs[i]))
  }

  function CitationsSection(cs: Option<seq<Option<Citation>>>): string {
    if cs.Some? && |cs.value| > 0 then "## Citations\n\n" + Concat(CitationEntries(cs.value)) + "\n" else ""
  }

  /** The markdown `formatAnswerResponse` produces. */
  function AnswerResponseText(data: AnswerResponse, host: Host): string {
    Preamble("# Answer\n\n", data.requestId, data.costDollars, host)
    + "## Response\n\n"
    + AnswerBodyText(data.answer, host)
    + CitationsSection(data.citations)
  }

  method AppendAnswerBody(output: string, a: AnswerBody, host: Host) returns (out: string)
    ensures out == output + AnswerBodyText(a, host)
  {
    match a {
      case AnswerText(t) =>
        out := output + (t + "\n\n");
      case AnswerObject(o) =>
        out := output + "```json\n";
        out := out + host.stringify(o);
        out := out + "\n```\n\n";
    }
  }

  /** One turn of the citations loop: a null entry is skipped, any other is listed with its position's number. */
  method AppendCitationItem(output: string, i: nat, c: Option<Citation>) returns (out: string)
    ensures out == output + CitationItem(i, c)
  {
    if c.None? {
      return output;
    }
    out := output + (Decimal(i + 1) + ". [" + DisplayTitle(c.value.title) + "](" + c.value.url + ")\n");
  }

  /** The citations section, for a non-empty list. */
  method AppendCitations(output: string, cs: seq<Option<Citation>>) returns (out: string)
    requires |cs| > 0
    ensures out == output + CitationsSection(Some(cs))
  {
    out := output + "## Citations\n\n";
    ghost var entries := CitationEntries(cs);
    var i := 0;
    while i < |cs|
      invariant 0 <= i <= |cs|
      invariant out == output + "## Citations\n\n" + Concat(entries[..i])
    {
      ConcatPrefixStep(entries, i);
      AppendAssoc(output + "## Citations\n\n", Concat(entries[..i]), entries[i]);
      out := AppendCitationItem(out, i, cs[i]);
      i := i + 1;
    }
    assert entries[..|cs|] == entries;
    out := out + "\n";
    AppendAssoc(output, "## Citations\n\n", Concat(entries));
    AppendAssoc(output, "## Citations\n\n" + Concat(entries), "\n");
  }

  /** `formatAnswerResponse(response)` in its markdown mode. */
  method FormatAnswerResponse(data: AnswerResponse, host: Host) returns (output: string)
    ensures output == AnswerResponseText(data, host)
  {
    output := AppendPreamble("# Answer\n\n", data.requestId, data.costDollars, host);
    output := output + "## Response\n\n";
    output := AppendAnswerBody(output, data.answer, host);
    ghost var prev := output;
    if data.citations.Some? && |data.citations.value| > 0 {
      output := AppendCitations(output, data.citations.value);
    }
    assert output == prev + CitationsSection(data.citations);
  }

  /** The citations section exists exactly for a non-empty list; its entry k is numbered k + 1, and a null entry adds nothing. */
  lemma CitationsSectionShape(cs: Option<seq<Option<Citation>>>)
    ensures (CitationsSection(cs) == "") <==> (cs.None? || cs.value == [])
    ensures forall k :: cs.Some? && 0 <= k < |cs.value| && cs.value[k].Some? ==>
      CitationEntries(cs.value)[k] == Decimal(k + 1) + ". [" + DisplayTitle(cs.value[k].value.title) + "](" + cs.value[k].value.url + ")\n"
    ensures forall k :: cs.Some? && 0 <= k < |cs.value| && cs.value[k].None? ==> CitationEntries(cs.value)[k] == ""
  {
  }

  // ---------------------------------------------------------------- research tasks

  function TaskHeader(task: ResearchTask): string {
    "# Research Task\n\n"
    + ("- **ID:** " + task.researchId + "\n")
    + ("- **Status:** " + task.status + "\n")
    + OptLine("- **Instructions:** ", task.instructions)
    + "\n"
  }

  /** The fenced JSON block of a parsed output: only for a truthy `parsed`. */
  function ParsedBlock(parsed: Option<Json>, host: Host): string {
    if parsed.Some? && JsonTruthy(parsed.value) then "```json\n" + host.stringify(parsed.value) + "\n```\n\n" else ""
  }

  function OutputSection(o: Option<ResearchOutput>, host: Host): string {
    if o.None? then ""
    else "## Output\n\n" + ParsedBlock(o.value.parsed, host) + OptSection("", o.value.content)
  }

  /** The suffix of an event line: only for a truthy message. */
  function MessageSuffix(m: Option<string>): string {
    if Present(m) then ": " + m.value else ""
  }

  function EventLine(e: ResearchEvent, host: Host): string {
    "- [" + host.isoString(e.createdAt) + "] " + e.eventType + MessageSuffix(e.message) + "\n"
  }

  /** One line per event, in order: the closed form the events loop is proved equal to. */
  function EventLines(evs: seq<ResearchEvent>, host: Host): (r: seq<string>)
    ensures |r| == |evs|
    ensures forall k :: 0 <= k < |evs| ==> r[k] == EventLine(evs[k], host)
  {
    seq(|evs|, k requires 0 <= k < |evs| => EventLine(evs[k], host))
  }

  function EventsSection(evs: Option<seq<ResearchEvent>>, host: Host): string {
    if evs.Some? && |evs.value| > 0 then "## Events\n\n" + Concat(EventLines(evs.value, host)) + "\n" else ""
  }

  /** The markdown `formatResearchTask` produces. */
  function ResearchTaskText(task: ResearchTask, host: Host): string {
    TaskHeader(task) + OutputSection(task.output, host) + EventsSection(task.events, host)
  }

  method AppendTaskHeader(task: ResearchTask) returns (out: string)
    ensures out == TaskHeader(task)
  {
    out := "# Research Task\n\n";
    out := out + ("- **ID:** " + task.researchId + "\n");
    out := out + ("- **Status:** " + task.status + "\n");
    ghost var prev := out;
    if Present(task.instructions) {
      out := out + ("- **Instructions:** " + task.instructions.value + "\n");
    }
    assert out == prev + OptLine("- **Instructions:** ", task.instructions);
    out := out + "\n";
  }

  method AppendOutput(output: string, o: ResearchOutput, host: Host) returns (out: string)
    ensures out == output + OutputSection(Some(o), host)
  {
    out := output + "## Output\n\n";
    ghost var prev := out;
    if o.parsed.Some? && JsonTruthy(o.parsed.value) {
      out := out + "```json\n";
      out := out + host.stringify(o.parsed.value);
      out := out + "\n```\n\n";
    }
    assert out == prev + ParsedBlock(o.parsed, host);
    AppendAssoc(output, "## Output\n\n", ParsedBlock(o.parsed, host));
    prev := out;
    if Present(o.content) {
      out := out + (o.content.value + "\n\n");
    }
    assert out == prev + OptSection("", o.content);
    AppendAssoc(output, "## Output\n\n" + ParsedBlock(o.parsed, host), OptSection("", o.content));
  }

  /** The events section, for a non-empty list: one line per event, in order. */
  method AppendEvents(output: string, evs: seq<ResearchEvent>, host: Host) returns (out: string)
    requires |evs| > 0
    ensures out == output + EventsSection(Some(evs), host)
  {
    out := output + "## Events\n\n";
    ghost var lines := EventLines(evs, host);
    var k := 0;
    while k < |evs|
      invariant 0 <= k <= |evs|
      invariant out == output + "## Events\n\n" + Concat(lines[..k])
    {
      ConcatPrefixStep(lines, k);
      AppendAssoc(output + "## Events\n\n", Concat(lines[..k]), lines[k]);
      var e := evs[k];
      var timestamp := host.isoString(e.createdAt);
      out := out + ("- [" + timestamp + "] " + e.eventType + (if Present(e.message) then ": " + e.message.value else "") + "\n");
      k := k + 1;
    }
    assert lines[..|evs|] == lines;
    out := out + "\n";
    AppendAssoc(output, "## Events\n\n", Concat(lines));
    AppendAssoc(output, "## Events\n\n" + Concat(lines), "\n");
  }

  /** `formatResearchTask(task)` in its markdown mode. */
  method FormatResearchTask(task: ResearchTask, host: Host) returns (output: string)
    ensures output == ResearchTaskText(task, host)
  {
    output := AppendTaskHeader(task);
    ghost var prev := output;
    if task.output.Some? {
      output := AppendOutput(output, task.output.value, host);
    }
    assert output == prev + OutputSection(task.output, host);
    prev := output;
    if task.events.Some? && |task.events.value| > 0 {
      output := AppendEvents(output, task.events.value, host);
    }
    assert output == prev + EventsSection(task.events, host);
  }

  /** A task without output has no output section; one without events (or with none) has no events section. */
  lemma ResearchTaskSections(task: ResearchTask, host: Host)
    ensures task.output.None? ==> OutputSection(task.output, host) == ""
    ensures task.output.Some? ==> |OutputSection(task.output, host)| >= 11 && OutputSection(task.output, host)[..11] == "## Output\n\n"
    ensures (EventsSection(task.events, host) == "") <==> (task.events.None? || task.events.value == [])
    ensures task.output.None? && (task.events.None? || task.events.value == []) ==> ResearchTaskText(task, host) == TaskHeader(task)
  {
  }

  /**
   * The output section always opens with its heading; the fenced JSON block
   * follows exactly for a truthy `parsed`, so a null, false, zero or empty
   * `parsed` leaves only the heading and the content.
   */
  lemma OutputParsedBlock(o: ResearchOutput, host: Host)
    ensures o.parsed.Some? && JsonTruthy(o.parsed.value) ==>
      OutputSection(Some(o), host) == "## Output\n\n" + ("```json\n" + host.stringify(o.parsed.value) + "\n```\n\n") + OptSection("", o.content)
    ensures o.parsed.None? || !JsonTruthy(o.parsed.value) ==>
      OutputSection(Some(o), host) == "## Output\n\n" + OptSection("", o.content)
  {
  }

  // ---------------------------------------------------------------- messages

  /** `formatError(error)`: "Error: " and then the message of an Error, or `String(value)` of anything else. */
  function FormatError(e: Thrown, host: Host): (r: string)
    ensures |r| >= 7 && r[..7] == "Error: "
    ensures e.ErrorObject? ==> r[7..] == e.message
    ensures e.ThrownValue? ==> r[7..] == ValueToString(e.value, host)
  {
    "Error: " + (match e case ErrorObject(m) => m case ThrownValue(v) => ValueToString(v, host))
  }

  /** The examples of the formatter tests: an Error object shows its message. */
  lemma FormatErrorOfError(host: Host)
    ensures FormatError(ErrorObject("Something went wrong"), host) == "Error: Something went wrong"
  {
  }

  /** A thrown string shows as itself. */
  lemma FormatErrorOfString(host: Host)
    ensures FormatError(ThrownValue(Str("string error")), host) == "Error: string error"
  {
  }

  /** null and undefined show under their names. */
  lemma FormatErrorOfNullish(host: Host)
    ensures FormatError(ThrownValue(Null), host) == "Error: null"
    ensures FormatError(ThrownValue(Absent), host) == "Error: undefined"
  {
  }

  /** `formatSuccess(message)`: the "[OK] " marker and then the message, unchanged. */
  function FormatSuccess(m: string): (r: string)
    ensures |r| == |m| + 5
    ensures r[..5] == "[OK] " && r[5..] == m
  {
    "[OK] " + m
  }
}

/**
 * The `answer` command: its option builder, the choice between a streamed
 * and a single answer, and the streamed answer's aggregation and printing.
 * The stream is the finite sequence of chunks the SDK delivers, optionally
 * followed by a fault it raises; what is printed is the sequence of strings
 * handed to the console, in order.
 */
module Answer {
  import opened Js
  import opened Api
  import opened Citations
  import opened Options
  import opened Cli
  import Markdown

  // ---------------------------------------------------------------- options

  /** The options `buildAnswerOptions(args)` returns, write by write. */
  function AnswerOptions(args: Dict): Dict {
    var o := map[];
    var o := Put(o, IsTrue(Get(args, "text")), "text", Bool(true));
    var o := Put(o, IsNonEmptyString(Get(args, "model")), "model", Get(args, "model"));
    var o := Put(o, IsNonEmptyString(Get(args, "system-prompt")), "systemPrompt", Get(args, "system-prompt"));
    o
  }

  /** Which options `buildAnswerOptions` stores, under which conditions, with which values, and no others. */
  predicate AnswerOptionsSpec(args: Dict, o: Dict) {
    o.Keys <= {"text", "model", "systemPrompt"}
    && SetExactlyWhen(o, "text", IsTrue(Get(args, "text")), Bool(true))
    && SetExactlyWhen(o, "model", IsNonEmptyString(Get(args, "model")), Get(args, "model"))
    && SetExactlyWhen(o, "systemPrompt", IsNonEmptyString(Get(args, "system-prompt")), Get(args, "system-prompt"))
  }

  /** Key by key, the options `buildAnswerOptions` returns are the ones described above. */
  lemma AnswerOptionsMeaning(args: Dict)
    ensures AnswerOptionsSpec(args, AnswerOptions(args))
  {
  }

  /** `buildAnswerOptions(args)` */
  method BuildAnswerOptions(args: Dict) returns (options: Dict)
    ensures options == AnswerOptions(args)
    ensures AnswerOptionsSpec(args, options)
  {
    options := map[];
    options := PutIf(options, IsTrue(Get(args, "text")), "text", Bool(true));
    options := PutIf(options, IsNonEmptyString(Get(args, "model")), "model", Get(args, "model"));
    options := PutIf(options, IsNonEmptyString(Get(args, "system-prompt")), "systemPrompt", Get(args, "system-prompt"));
    AnswerOptionsMeaning(args);
  }

  /** How `answer` calls the SDK. */
  datatype AnswerCall =
    | Streamed(options: Dict, json: bool)
    | Single(options: Dict, json: bool)

  /** The dispatch in `answer`: a stream exactly when `stream` is `true`, and JSON output exactly when `json` is `true`. */
  method PlanAnswer(args: Dict) returns (call: AnswerCall)
    ensures call.Streamed? <==> IsTrue(Get(args, "stream"))
    ensures call.json <==> IsTrue(Get(args, "json"))
    ensures call.options == AnswerOptions(args)
    ensures AnswerOptionsSpec(args, call.options)
  {
    var options := BuildAnswerOptions(args);
    if IsTrue(Get(args, "stream")) {
      call := Streamed(options, IsTrue(Get(args, "json")));
    } else {
      call := Single(options, IsTrue(Get(args, "json")));
    }
  }

  // ---------------------------------------------------------------- what a stream carries

  /** The non-null citations of a chunk's list, in order. */
  function NonNull(cs: seq<Option<Citation>>): (r: seq<Citation>)
    ensures |r| <= |cs|
    decreases |cs|
  {
    if cs == [] then []
    else NonNull(cs[..|cs| - 1]) + (if cs[|cs| - 1].Some? then [cs[|cs| - 1].value] else [])
  }

  function ChunkCitations(ch: Chunk): seq<Citation> {
    if ch.citations.Some? then NonNull(ch.citations.value) else []
  }

  /** Every non-null citation of every chunk, in arrival order. */
  function Offered(chunks: seq<Chunk>): seq<Citation>
    decreases |chunks|
  {
    if chunks == [] then [] else Offered(chunks[..|chunks| - 1]) + ChunkCitations(chunks[|chunks| - 1])
  }

  /** The contents that are written: each chunk's content, when it is a non-empty string. */
  function Pieces(chunks: seq<Chunk>): seq<string>
    decreases |chunks|
  {
    if chunks == [] then []
    else
      var last := chunks[|chunks| - 1];
      Pieces(chunks[..|chunks| - 1]) + (if Present(last.content) then [last.content.value] else [])
  }

  /** The answer text: the contents of the chunks, in order, a chunk without content adding nothing. */
  function Text(chunks: seq<Chunk>): string
    decreases |chunks|
  {
    if chunks == [] then ""
    else
      var last := chunks[|chunks| - 1];
      Text(chunks[..|chunks| - 1]) + (if Present(last.content) then last.content.value else "")
  }

  /** The citation list a stream ends with. */
  function CitationList(chunks: seq<Chunk>): seq<Citation> {
    Dedup(Offered(chunks))
  }

  /** One more chunk, for the three recursions above. */
  lemma ChunkStep(chunks: seq<Chunk>, i: nat)
    requires i < |chunks|
    ensures Offered(chunks[..i + 1]) == Offered(chunks[..i]) + ChunkCitations(chunks[i])
    ensures Pieces(chunks[..i + 1]) == Pieces(chunks[..i]) + (if Present(chunks[i].content) then [chunks[i].content.value] else [])
    ensures Text(chunks[..i + 1]) == Text(chunks[..i]) + (if Present(chunks[i].content) then chunks[i].content.value else "")
  {
    assert chunks[..i + 1][..i] == chunks[..i];
  }

  /** What is written is what is accumulated: the text is the concatenation of the written contents. */
  lemma {:induction false} TextIsWrittenPieces(chunks: seq<Chunk>)
    ensures Text(chunks) == Concat(Pieces(chunks))
    decreases |chunks|
  {
    if chunks != [] {
      var init, last := chunks[..|chunks| - 1], chunks[|chunks| - 1];
      TextIsWrittenPieces(init);
      var p := if Present(last.content) then [last.content.value] else [];
      ConcatAppend(Pieces(init), p);
      if p != [] {
        assert [last.content.value][..0] == [];
      }
    }
  }

  /** The text of two stretches of a stream is the text of the first followed by that of the second. */
  lemma {:induction false} TextAppend(a: seq<Chunk>, b: seq<Chunk>)
    ensures Text(a + b) == Text(a) + Text(b)
    decreases |b|
  {
    if b == [] {
      assert a + b == a;
    } else {
      var b', last := b[..|b| - 1], b[|b| - 1];
      assert (a + b)[..|a + b| - 1] == a + b';
      assert (a + b)[|a + b| - 1] == last;
      TextAppend(a, b');
      AppendAssoc(Text(a), Text(b'), if Present(last.content) then last.content.value else "");
    }
  }

  /** A chunk without (or with empty) content leaves the text as it was; one without citations leaves the list as it was. */
  lemma QuietChunk(chunks: seq<Chunk>, ch: Chunk)
    ensures !Present(ch.content) ==> Text(chunks + [ch]) == Text(chunks) && Pieces(chunks + [ch]) == Pieces(chunks)
    ensures ch.citations.None? ==> CitationList(chunks + [ch]) == CitationList(chunks)
  {
    var all := chunks + [ch];
    assert all[..|chunks|] == chunks;
    assert Offered(all) == Offered(chunks) + ChunkCitations(ch);
    if ch.citations.None? {
      assert Offered(chunks) + [] == Offered(chunks);
    }
  }

  lemma {:induction false} NonNullKeeps(cs: seq<Option<Citation>>, j: nat)
    requires j < |cs| && cs[j].Some?
    ensures cs[j].value in NonNull(cs)
    decreases |cs|
  {
    if j < |cs| - 1 {
      NonNullKeeps(cs[..|cs| - 1], j);
    }
  }

  lemma {:induction false} OfferedKeeps(chunks: seq<Chunk>, k: nat, j: nat)
    requires k < |chunks| && chunks[k].citations.Some?
    requires j < |chunks[k].citations.value| && chunks[k].citations.value[j].Some?
    ensures chunks[k].citations.value[j].value in Offered(chunks)
    decreases |chunks|
  {
    if k < |chunks| - 1 {
      OfferedKeeps(chunks[..|chunks| - 1], k, j);
    } else {
      NonNullKeeps(chunks[k].citations.value, j);
    }
  }

  /** Every non-null citation of every chunk has its url in the final list. */
  lemma EveryCitationListed(chunks: seq<Chunk>, k: nat, j: nat)
    requires k < |chunks| && chunks[k].citations.Some?
    requires j < |chunks[k].citations.value| && chunks[k].citations.value[j].Some?
    ensures HasUrl(CitationList(chunks), chunks[k].citations.value[j].value.url)
  {
    var c := chunks[k].citations.value[j].value;
    OfferedKeeps(chunks, k, j);
    var n :| 0 <= n < |Offered(chunks)| && Offered(chunks)[n] == c;
    assert Offered(chunks)[n].url == c.url;
    DedupSameUrls(Offered(chunks), c.url);
  }

  /** The final list has no duplicate url, keeps the first citation seen for each url, and keeps first-appearance order. */
  lemma CitationListFacts(chunks: seq<Chunk>)
    ensures UniqueUrls(CitationList(chunks))
    ensures forall k :: 0 <= k < |CitationList(chunks)| ==>
      HasUrl(Offered(chunks), CitationList(chunks)[k].url) &&
      CitationList(chunks)[k] == Offered(chunks)[FirstIndex(Offered(chunks), CitationList(chunks)[k].url)]
    ensures forall i, j :: 0 <= i < j < |CitationList(chunks)| ==>
      FirstIndex(Offered(chunks), CitationList(chunks)[i].url) < FirstIndex(Offered(chunks), CitationList(chunks)[j].url)
  {
    DedupUnique(Offered(chunks));
    DedupFirstSeen(Offered(chunks));
    var list := CitationList(chunks);
    forall i, j | 0 <= i < j < |list|
      ensures FirstIndex(Offered(chunks), list[i].url) < FirstIndex(Offered(chunks), list[j].url)
    {
      DedupOrder(Offered(chunks), i, j);
    }
  }

  // ---------------------------------------------------------------- the streaming loop

  /** `citations.some((c) => c.url === url)` */
  method ContainsUrl(list: seq<Citation>, url: string) returns (found: bool)
    ensures found <==> HasUrl(list, url)
  {
    var k := 0;
    while k < |list|
      invariant 0 <= k <= |list|
      invariant !HasUrl(list[..k], url)
    {
      if list[k].url == url {
        assert list[k].url == url;
        return true;
      }
      assert list[..k + 1] == list[..k] + [list[k]];
      HasUrlSnoc(list[..k], list[k], url);
      k := k + 1;
    }
    assert list[..k] == list;
    found := false;
  }

  /** The inner loop: each non-null citation of a chunk is pushed unless its url is already listed. */
  method AddCitations(list: seq<Citation>, cs: seq<Option<Citation>>) returns (r: seq<Citation>)
    ensures r == OfferAll(list, NonNull(cs))
  {
    r := list;
    var j := 0;
    while j < |cs|
      invariant 0 <= j <= |cs|
      invariant r == OfferAll(list, NonNull(cs[..j]))
    {
      assert cs[..j + 1][..j] == cs[..j];
      var citation := cs[j];
      if citation.Some? {
        var seen := ContainsUrl(r, citation.value.url);
        if !seen {
          r := r + [citation.value];
        }
        assert NonNull(cs[..j + 1]) == NonNull(cs[..j]) + [citation.value];
        OfferAllSnoc(list, NonNull(cs[..j]), citation.value);
        assert r == OfferAll(list, NonNull(cs[..j + 1]));
      } else {
        assert NonNull(cs[..j + 1]) == NonNull(cs[..j]) + [];
        assert NonNull(cs[..j + 1]) == NonNull(cs[..j]);
        assert r == OfferAll(list, NonNull(cs[..j + 1]));
      }
      j := j + 1;
    }
    assert cs[..j] == cs;
  }

  /** Consuming one chunk adds its citations to the list. */
  lemma CitationListStep(chunks: seq<Chunk>, i: nat)
    requires i < |chunks|
    ensures Dedup(Offered(chunks[..i + 1])) == OfferAll(Dedup(Offered(chunks[..i])), ChunkCitations(chunks[i]))
  {
    ChunkStep(chunks, i);
    OfferAllAppend([], Offered(chunks[..i]), ChunkCitations(chunks[i]));
  }

  /** The list of citations as the JSON object `{ citations }`; a missing title is left out. */
  function CitationJson(c: Citation): Json {
    JObject((if c.title.Some? then [("title", JStr(c.title.value))] else []) + [("url", JStr(c.url))])
  }

  function CitationsJson(cs: seq<Citation>): Json {
    JObject([("citations", JArray(seq(|cs|, k requires 0 <= k < |cs| => CitationJson(cs[k]))))])
  }

  /**
   * The numbered lines of the display mode's citations section: the closed form
   * the display loop is proved equal to. Its properties are in CitationsBlockShape.
   */
  function CitationLines(cs: seq<Citation>): (r: seq<string>)
    ensures |r| == |cs|
    ensures forall k :: 0 <= k < |cs| ==> r[k] == Line(Markdown.CitationEntry(k + 1, cs[k]))
  {
    seq(|cs|, k requires 0 <= k < |cs| => Line(Markdown.CitationEntry(k + 1, cs[k])))
  }

  /** The display mode's closing citations section: nothing at all for an empty list. */
  function CitationsBlock(cs: seq<Citation>): seq<string> {
    if |cs| > 0 then [Line("## Citations\n")] + CitationLines(cs) + [Line("")] else []
  }

  /** The header of the display mode. */
  function DisplayHeader(): seq<string> {
    [Line("# Answer (streaming)\n"), Line("## Response\n")]
  }

  /** The JSON mode's closing output: a blank line, then the citations object when there are citations. */
  function JsonTail(cs: seq<Citation>, host: Host): seq<string> {
    [Line("\n")] + (if |cs| > 0 then [Line(host.stringify(CitationsJson(cs)))] else [])
  }

  /** How a stream ends: after the last chunk, or with the fault the SDK raises after the chunks. */
  datatype StreamEnd = Completed | Raised(error: Thrown)

  /** What `streamAnswer` leaves behind: the strings written, the accumulated text and list, and whether it threw. */
  datatype StreamOutcome = StreamOutcome(written: seq<string>, response: string, citations: seq<Citation>, thrown: Option<Thrown>)

  /** One turn of the loop over the chunks: the content is accumulated and written, the citations offered to the list. */
  method ConsumeChunk(chunk: Chunk, accumulate: bool, written: seq<string>, response: string, citations: seq<Citation>)
    returns (written': seq<string>, response': string, citations': seq<Citation>)
    ensures written' == written + (if Present(chunk.content) then [chunk.content.value] else [])
    ensures response' == (if accumulate && Present(chunk.content) then response + chunk.content.value else response)
    ensures citations' == OfferAll(citations, ChunkCitations(chunk))
  {
    written', response', citations' := written, response, citations;
    if chunk.content.Some? && chunk.content.value != "" {
      if accumulate {
        response' := response' + chunk.content.value;
      }
      written' := written' + [chunk.content.value];
    }
    if chunk.citations.Some? {
      citations' := AddCitations(citations', chunk.citations.value);
    }
  }

  /**
   * The loop over the chunks. Each content is accumulated and written as it
   * arrives; each chunk's citations are offered to the list.
   */
  method Consume(chunks: seq<Chunk>, accumulate: bool) returns (written: seq<string>, response: string, citations: seq<Citation>)
    ensures written == Pieces(chunks)
    ensures response == (if accumulate then Text(chunks) else "")
    ensures citations == CitationList(chunks)
  {
    written, response, citations := [], "", [];
    var i := 0;
    while i < |chunks|
      invariant 0 <= i <= |chunks|
      invariant written == Pieces(chunks[..i])
      invariant response == (if accumulate then Text(chunks[..i]) else "")
      invariant citations == Dedup(Offered(chunks[..i]))
    {
      ChunkStep(chunks, i);
      CitationListStep(chunks, i);
      written, response, citations := ConsumeChunk(chunks[i], accumulate, written, response, citations);
      i := i + 1;
    }
    assert chunks[..i] == chunks;
  }

  /** The display mode's citations section, printed by a loop over the list. */
  method PrintCitations(cs: seq<Citation>) returns (out: seq<string>)
    ensures out == CitationsBlock(cs)
  {
    out := [];
    if |cs| > 0 {
      out := out + [Line("## Citations\n")];
      var i := 0;
      while i < |cs|
        invariant 0 <= i <= |cs|
        invariant out == [Line("## Citations\n")] + CitationLines(cs)[..i]
      {
        var citation := cs[i];
        out := out + [Line(Decimal(i + 1) + ". [" + Markdown.DisplayTitle(citation.title) + "](" + citation.url + ")")];
        assert CitationLines(cs)[..i + 1] == CitationLines(cs)[..i] + [CitationLines(cs)[i]];
        i := i + 1;
      }
      assert CitationLines(cs)[..i] == CitationLines(cs);
      out := out + [Line("")];
    }
  }

  /**
   * `streamAnswer(client, query, options, useJson)` over the chunks the SDK
   * delivers, and the way the stream ends. A fault raised by the stream leaves
   * the loop and everything after it; what was written stays written.
   */
  method StreamAnswer(chunks: seq<Chunk>, end: StreamEnd, useJson: bool, host: Host) returns (o: StreamOutcome)
    ensures o.response == (if useJson then Text(chunks) else "")
    ensures o.citations == CitationList(chunks)
    ensures o.thrown.Some? <==> end.Raised?
    ensures end.Raised? ==> o.thrown.value == end.error
    ensures useJson && end.Completed? ==> o.written == Pieces(chunks) + JsonTail(o.citations, host)
    ensures !useJson && end.Completed? ==> o.written == DisplayHeader() + Pieces(chunks) + [Line("\n")] + CitationsBlock(o.citations)
    ensures end.Raised? ==> o.written == (if useJson then [] else DisplayHeader()) + Pieces(chunks)
  {
    var out: seq<string> := [];
    if !useJson {
      out := out + [Line("# Answer (streaming)\n")];
      out := out + [Line("## Response\n")];
    }
    var written, response, citations := Consume(chunks, useJson);
    out := out + written;
    if end.Raised? {
      return StreamOutcome(out, response, citations, Some(end.error));
    }
    out := out + [Line("\n")];
    if useJson {
      if |citations| > 0 {
        out := out + [Line(host.stringify(CitationsJson(citations)))];
      }
    } else {
      var tail := PrintCitations(citations);
      out := out + tail;
    }
    o := StreamOutcome(out, response, citations, None);
  }

  /** The display mode prints a citations header exactly for a non-empty list, and numbers the entries 1..n in list order. */
  lemma CitationsBlockShape(cs: seq<Citation>)
    ensures CitationsBlock(cs) == [] <==> cs == []
    ensures cs != [] ==> CitationsBlock(cs)[0] == Line("## Citations\n") && |CitationsBlock(cs)| == |cs| + 2
    ensures forall k :: 0 <= k < |cs| ==> CitationsBlock(cs)[k + 1] == Line(Markdown.CitationEntry(k + 1, cs[k]))
  {
    if cs != [] {
      var lines := CitationLines(cs);
      var b := [Line("## Citations\n")] + lines + [Line("")];
      assert CitationsBlock(cs) == b;
      forall k | 0 <= k < |cs|
        ensures b[k + 1] == Line(Markdown.CitationEntry(k + 1, cs[k]))
      {
        assert b[k + 1] == lines[k];
      }
    }
  }

  /** The JSON mode prints the citations object exactly for a non-empty list. */
  lemma JsonTailShape(cs: seq<Citation>, host: Host)
    ensures |JsonTail(cs, host)| == (if cs == [] then 1 else 2)
    ensures cs != [] ==> JsonTail(cs, host)[1] == Line(host.stringify(CitationsJson(cs)))
  {
  }

  // ---------------------------------------------------------------- the command

  /**
   * `answer(client, query, args)`. A streamed answer is consumed from
   * `chunks` up to `end`; a single answer is the reply `single`
   * (`responseJson` is it as `JSON.stringify` renders it). A fault of either
   * is reported by the `catch` block after whatever was already written.
   */
  method RunAnswer(args: Dict, chunks: seq<Chunk>, end: StreamEnd, single: Reply<AnswerResponse>, responseJson: string, host: Host)
    returns (call: AnswerCall, exit: Exit)
    ensures call.Streamed? <==> IsTrue(Get(args, "stream"))
    ensures call.json <==> IsTrue(Get(args, "json"))
    ensures call.options == AnswerOptions(args) && AnswerOptionsSpec(args, call.options)
    ensures call.Streamed? && end.Completed? ==> exit.stderr == [] && exit.code == 0
    ensures call.Streamed? && end.Completed? && call.json ==> exit.stdout == Pieces(chunks) + JsonTail(CitationList(chunks), host)
    ensures call.Streamed? && end.Completed? && !call.json ==>
      exit.stdout == DisplayHeader() + Pieces(chunks) + [Line("\n")] + CitationsBlock(CitationList(chunks))
    ensures call.Streamed? && end.Raised? ==>
      exit == Exit((if call.json then [] else DisplayHeader()) + Pieces(chunks), [Line(Markdown.FormatError(end.error, host))], 1)
    ensures call.Single? && single.Failed? ==> exit == Crashed(single.error, host)
    ensures call.Single? && single.Replied? && call.json ==> exit == Exit([Line(responseJson)], [], 0)
    ensures call.Single? && single.Replied? && !call.json ==> exit == Exit([Line(Markdown.AnswerResponseText(single.value, host))], [], 0)
  {
    call := PlanAnswer(args);
    if call.Streamed? {
      var o := StreamAnswer(chunks, end, call.json, host);
      if o.thrown.Some? {
        exit := Exit(o.written, [Line(Markdown.FormatError(o.thrown.value, host))], 1);
      } else {
        exit := Exit(o.written, [], 0);
      }
    } else if single.Failed? {
      exit := Crashed(single.error, host);
    } else {
      var text: string;
      if call.json {
        text := responseJson;
      } else {
        text := Markdown.FormatAnswerResponse(single.value, host);
      }
      exit := Exit([Line(text)], [], 0);
    }
  }
}

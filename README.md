# exa-cli command layer, modelled in Dafny

exa-cli is a command-line front end to the Exa search and research API. Each
command (`search`, `similar`, `contents`, `answer`, `research create|status|list`)
turns its parsed flags into an options object by a series of conditional writes.
It then makes one SDK call and prints what comes back, either as JSON or as
markdown. The `catch` block prints `Error: …` on stderr and exits with status 1.
The streamed `answer` command consumes the answer chunk by chunk. As it goes it
writes the text and keeps a list of citations with duplicate URLs removed.

The model has one module per source file, plus three shared modules:

- `Js` holds JavaScript values and helpers: the argument values, numbers with
  NaN and the infinities, `console.log`'s line, and the decimal rendering of
  `${n}`.
- `Api` holds the SDK's response shapes and the runtime conversions the
  commands rely on (`Host`).
- `Options` holds the conditional write `if (c) options[k] = v` and the content
  flags.
- `Cli` holds a command's outcome: stdout, stderr and exit status.
- `Validation`, `Markdown`, `Citations`, `Answer`, `Search`, `Similar`,
  `Contents` and `Research` follow the source files.

How the source's forms are modelled:

- Option builders are methods. They perform the source's writes in order and
  are proved equal to a specification function. Lemmas then state, key by key,
  when each key is present, what value it holds, and that no other key appears.
- Formatters are methods that append to `output` as the source does. Each is
  proved equal to a template function, and lemmas are proved about the
  template.
- The stream loop is a method over a `seq<Chunk>`. It is proved to write every
  non-empty content in order, and to end with the de-duplicated citation list.
  That list is unique by URL and keeps first-appearance order, as lemmas in
  `Citations` show.
- Each command is a method from its arguments and the SDK's reply (or thrown
  error) to the call it makes and the `Exit` it leaves behind (stdout lines,
  stderr lines, exit code).

## Model

| member | source | states |
|---|---|---|
| Validation.TrimStart | src/utils/validation.ts:30 | the result is a suffix of the input; everything dropped is whitespace; the result starts with non-whitespace |
| Validation.TrimEnd | src/utils/validation.ts:30 | the result is a prefix of the input; everything dropped is whitespace; the result ends with non-whitespace |
| Validation.Trim | src/utils/validation.ts:30 | the result is trimmed and is a contiguous slice of the input, with only whitespace dropped on each side |
| Validation.ValidNumberCases | src/utils/validation.ts:5-12 | `isValidNumber` accepts a number exactly when it is not NaN, refuses a blank string whatever `Number` makes of it, accepts any other string exactly when `Number(string)` is not NaN, and refuses every other kind of value |
| Validation.ParseNumber | src/utils/validation.ts:5-17 | undefined exactly when `isValidNumber` fails; a result is never NaN; a number is returned unchanged; a string is returned as `Number(string)` |
| Validation.SplitCommas | src/utils/validation.ts:30 | `split(",")` gives one segment more than there are commas, and no segment holds a comma |
| Validation.SplitCommasJoin | src/utils/validation.ts:30 | joining the segments with commas gives back the string |
| Validation.JoinSplitCommas | src/utils/validation.ts:30 | splitting a comma-join of comma-free segments gives back the segments |
| Validation.SplitCommaFree | src/utils/validation.ts:30 | a string without commas is one segment |
| Validation.TrimAll | src/utils/validation.ts:30 | `.map(trim)`: same length, element i is the trim of element i, every element is trimmed, and it adds no commas |
| Validation.DropEmpty | src/utils/validation.ts:30 | `.filter(length > 0)`: no empty element; keeps exactly the non-empty elements |
| Validation.DropEmptyKeepsOrder | src/utils/validation.ts:30 | the filter's result is an order-preserving subsequence, as long as the count of non-empty elements |
| Validation.ParseStringList | src/utils/validation.ts:28-31 | undefined exactly for non-strings; every element is non-empty, trimmed and comma-free; at most commas + 1 elements |
| Validation.ParseStringListOrder | src/utils/validation.ts:30 | the elements keep the order of their segments, and every non-empty trimmed segment is kept |
| Validation.TrimPadded | src/utils/validation.ts:30 | trim removes exactly the whitespace padding around a trimmed core |
| Validation.ValidUrlCases | src/utils/validation.ts:19-26 | `isValidUrl` holds exactly when the string parses with protocol `http:` or `https:`; a string the URL parser refuses gives false |
| Validation.ParseStringListPadded | test/validation.test.ts:74 | a comma-join of comma-free cores, each with its own whitespace padding on either side, parses to the cores |
| Validation.ParseStringListPlain | test/validation.test.ts:73 | `"a,b,c"` parses to `["a","b","c"]` |
| Validation.ParseStringListSingle | test/validation.test.ts:78 | `"single"` parses to `["single"]` |
| Validation.ParseStringListEmptySegments | test/validation.test.ts:82 | `"a,,b,,c"` parses to `["a","b","c"]` |
| Validation.ParseStringListCommasOnly | test/validation.test.ts:83 | `",,,"` parses to the empty list |
| Validation.ParseStringListNonStrings | test/validation.test.ts:86-90 | a number, null, undefined and an array all give undefined |
| Validation.ValidatorsExact | src/utils/validation.ts:33-46 | each validator holds exactly for the strings of its list, and never for a non-string |
| Js.DecimalRoundTrip | src/formatters/markdown.ts:46 | the decimal rendering of `${i + 1}` reads back as the number, so distinct positions get distinct labels |
| Citations.Offer | src/commands/answer.ts:31-32 | a citation is pushed exactly when no listed citation has its URL; otherwise the list is unchanged |
| Citations.FirstIndex | src/commands/answer.ts:29-35 | the first position of a URL among the offered citations |
| Citations.OfferAllAppend | src/commands/answer.ts:29-35 | offering two stretches of citations is offering the first, then the second |
| Citations.DedupUnique | src/commands/answer.ts:31-32 | the final list has no two entries with the same URL |
| Citations.DedupSameUrls | src/commands/answer.ts:31-32 | a URL is listed exactly when some offered citation has it |
| Citations.DedupFrom | src/commands/answer.ts:31-32 | every listed citation is one of the offered ones |
| Citations.DedupFirstSeen | src/commands/answer.ts:31-32 | each listed entry is the first citation offered with its URL, so a later duplicate never overwrites it |
| Citations.DedupOrder | src/commands/answer.ts:29-35 | entries are in the order of their URLs' first appearance |
| Citations.DedupSeenIsNoop | src/commands/answer.ts:31-32 | a citation whose URL was already offered changes neither an entry nor a position |
| Citations.DedupExtends | src/commands/answer.ts:32 | the list only grows at its end |
| Answer.AnswerOptionsMeaning | src/commands/answer.ts:76-92 | `text` only for `text === true`; `model` and `systemPrompt` only for non-empty strings, copied; no other key |
| Answer.BuildAnswerOptions | src/commands/answer.ts:76-92 | the writes of `buildAnswerOptions` give the options described by `AnswerOptionsSpec` |
| Answer.PlanAnswer | src/commands/answer.ts:6-9 | the answer is streamed exactly when `stream === true`; JSON output exactly when `json === true` |
| Answer.TextIsWrittenPieces | src/commands/answer.ts:25-27 | the accumulated response is the concatenation of the written contents |
| Answer.TextAppend | src/commands/answer.ts:24-28 | the text of two stretches of the stream is that of the first followed by that of the second |
| Answer.QuietChunk | src/commands/answer.ts:25-29 | a chunk without content leaves the text and output as they were; one without citations leaves the list as it was |
| Answer.EveryCitationListed | src/commands/answer.ts:30-33 | every non-null citation of every chunk has its URL in the final list |
| Answer.CitationListFacts | src/commands/answer.ts:29-35 | the final list is unique by URL, keeps the first citation seen per URL, and is in first-appearance order |
| Answer.ContainsUrl | src/commands/answer.ts:31 | the `.some` scan finds exactly the URLs already listed |
| Answer.AddCitations | src/commands/answer.ts:30-34 | the inner loop offers the chunk's non-null citations in order, skipping nulls |
| Answer.CitationLines | src/commands/answer.ts:65-70 | entry k is printed as `${k + 1}. [title or "Untitled"](url)`, one line per citation |
| Answer.ConsumeChunk | src/commands/answer.ts:25-35 | one chunk: a non-empty content is written (and accumulated in JSON mode); the chunk's citations are offered to the list |
| Answer.Consume | src/commands/answer.ts:24-36 | the stream loop writes each non-empty content in order, accumulates their concatenation (JSON mode) and ends with the de-duplicated list |
| Answer.PrintCitations | src/commands/answer.ts:63-72 | the display loop prints exactly the citations block |
| Answer.StreamAnswer | src/commands/answer.ts:20-74 | JSON mode: contents, a blank line, then the `{citations}` object; display mode: header, contents, blank line, citations block; a thrown fault stops after the contents written so far |
| Answer.CitationsBlockShape | src/commands/answer.ts:63-71 | the `## Citations` header is printed exactly for a non-empty list; entries are numbered 1..n in list order |
| Answer.JsonTailShape | src/commands/answer.ts:38-41 | JSON mode prints the `{citations}` object exactly for a non-empty list |
| Answer.RunAnswer | src/commands/answer.ts:4-18 | the call (streamed or not, JSON or not, with its options) and what it prints and the exit status, for each way the stream or reply ends |
| Search.SearchResultCountAndDomains | src/commands/search.ts:25-38 | `numResults` is present exactly when `parseNumber` gives a number; each domain list exactly when it parses to a non-empty list; each holds the parsed value |
| Search.SearchCategoryAndDates | src/commands/search.ts:40-50 | `category`, and `start-date` / `end-date` renamed `startPublishedDate` / `endPublishedDate`, are copied exactly for non-empty strings; the first six writes use no other key |
| Search.SearchModeOptions | src/commands/search.ts:52-58 | `useAutoprompt` is `true` exactly for `autoprompt === true`; `type` is copied exactly for a non-empty string; nothing earlier is changed and no other key is added |
| Search.SearchContentFlags | src/commands/search.ts:60-70 | `text`, `highlights`, `summary` are `true` exactly when their argument is exactly `true`; nothing earlier is changed and no other key is added |
| Search.FiltersKept | src/commands/search.ts:22-73 | what the filter writes store survives the later writes, which touch only query-mode and content keys |
| Search.ModeKept | src/commands/search.ts:52-70 | what the query-mode writes store survives the content-flag writes |
| Search.SearchOptionsMeaning | src/commands/search.ts:22-73 | the options satisfy all of the per-key statements above, and have no key beyond the eleven the builder writes |
| Search.BuildSearchOptions | src/commands/search.ts:22-73 | the builder's writes, in order, produce the specified options |
| Search.StoredDomainsAreParsed | src/commands/search.ts:30-38 | a stored domain list equals `parseStringList` of its argument: non-empty, trimmed, comma-free entries |
| Search.RunSearch | src/commands/search.ts:5-20 | `searchAndContents` is called exactly when a content flag is exactly `true` (equivalently, when a content key is set); what is printed for each reply |
| Similar.SimilarFilters | src/commands/similar.ts:25-36 | `numResults` exactly when parsed; `excludeSourceDomain` exactly for `true`; `category` exactly for a non-empty string |
| Similar.SimilarContentAndKeys | src/commands/similar.ts:38-51 | the content flags as in search, and no key beyond the six |
| Similar.SimilarOptionsMeaning | src/commands/similar.ts:22-51 | the options satisfy all of the per-key statements above |
| Similar.BuildSimilarOptions | src/commands/similar.ts:22-51 | the builder's writes, in order, produce the specified options |
| Similar.RunSimilar | src/commands/similar.ts:5-20 | the URL is passed unchanged; `findSimilarAndContents` exactly when a content flag is `true`; what is printed for each reply |
| Contents.FirstInvalid | src/commands/contents.ts:7-12 | the position of the first URL that fails validation, all earlier ones valid; none exactly when all are valid |
| Contents.InvalidUrlMessage | src/commands/contents.ts:9 | the message is `Error: Invalid URL "`, the URL, and `". URLs must use HTTP or HTTPS protocol.` |
| Contents.ContentsOptionsWrites | src/commands/contents.ts:26-41 | the content flags exactly for `true`; `maxAgeHours` exactly when parsed; no other key |
| Contents.ContentsOptionsMeaning | src/commands/contents.ts:23-44 | the options satisfy the statements above for the parsed maximum age |
| Contents.BuildContentsOptions | src/commands/contents.ts:23-44 | the builder's writes, in order, produce the specified options |
| Contents.RunContents | src/commands/contents.ts:5-21 | `getContents` is not called exactly when some URL is invalid, and then the first invalid one is reported with exit status 1; otherwise the URLs go to `getContents` unchanged |
| Research.MapResearchModelAsWritten | src/commands/research.ts:5-12 | a falsy model finds nothing; anything found other than the three entries is an inherited member of an object literal |
| Research.ConstructorIsMappedAsWritten | src/commands/research.ts:6-11 | `constructor` is no valid model, yet the lookup as written finds a truthy value for it |
| Research.MapResearchModel | src/commands/research.ts:5-12 | a model is mapped exactly when it is one of `fast`, `regular`, `pro` |
| Research.MapResearchModelTable | src/commands/research.ts:6-11 | `fast`, `regular` and `pro` map to `exa-research-fast`, `exa-research` and `exa-research-pro`; absent and empty map to nothing |
| Research.MappingsAgreeOnOwnNames | src/commands/research.ts:5-12 | away from the inherited names, the as-written lookup and the intended mapping agree |
| Research.ModelArg | src/commands/research.ts:18 | the model argument is taken exactly when it is a non-empty string |
| Research.GuardedCreateAgrees | src/index.ts:186-189 | when the `research` command's guard lets a call through, the lookup as written and the intended mapping give the same request and no warning |
| Research.InheritedNameDiverges | src/commands/research.ts:11-25 | on an inherited name the lookup as written finds a truthy member where the intended mapping sends no model and warns; such a name fails the guard of src/index.ts:186 |
| Research.CreateRequest | src/commands/research.ts:16-30 | the request is `{instructions}` plus `model` exactly for a valid model, holding its mapped name |
| Research.CreateWarnings | src/commands/research.ts:18-25 | one warning, exactly for a non-empty model name that does not map |
| Research.OrDefault | src/commands/research.ts:41-42 | `x \|\| d`: the default for undefined and for zero, the number for a truthy one |
| Research.PollFor | src/commands/research.ts:41-46 | the poll waits for the created task; interval and timeout are the parsed numbers when truthy, and 1000 and 600000 when undefined or zero |
| Research.BuildCreateOptions | src/commands/research.ts:16-25 | the model option and the warning printed instead of it |
| Research.ResearchCreate | src/commands/research.ts:14-54 | the request; polling exactly when not JSON and `poll === true`; which lines are printed, and the exit status, for each reply |
| Research.ReportCreated | src/commands/research.ts:32-49 | after creation: the JSON text, or the created lines, then, with `poll === true`, the polling notice and the polled task (or the poll's error and status 1) |
| Research.ResearchStatus | src/commands/research.ts:56-64 | the task asked for, and what is printed for each reply |
| Research.ListOptions | src/commands/research.ts:68-77 | `limit` exactly when `parseNumber` gives a number; `cursor` exactly for a non-empty string; no other key |
| Research.BuildListOptions | src/commands/research.ts:68-77 | the builder's writes produce the specified list options |
| Research.Preview | src/commands/research.ts:94 | `substring(0, 60)`: a prefix of at most 60 characters, the whole string when it is that short |
| Research.InstructionsPreview | src/commands/research.ts:92-96 | a task with instructions gets one line `  ` + at most the first 60 characters + `...`; one without gets none |
| Research.TaskListLinesShape | src/commands/research.ts:91-97 | every line printed for a task starts with `-`, a space, or is empty |
| Research.EveryTaskListed | src/commands/research.ts:91-92 | every task of the page gets its `- id: status` line |
| Research.NoTasksNotice | src/commands/research.ts:84-89 | "No research tasks found." is printed exactly when the page has no tasks, and then only after the header |
| Research.MoreResultsShown | src/commands/research.ts:99-101 | the "More results" hint is printed, last, exactly when there are tasks, `hasMore` and a cursor |
| Research.PrintTasks | src/commands/research.ts:91-97 | the task loop prints exactly the listing's task lines, in order |
| Research.ResearchList | src/commands/research.ts:66-107 | the list options, and what is printed for each reply |
| Markdown.DisplayTitle | src/formatters/markdown.ts:46 | `title \|\| "Untitled"`: never empty; the title when truthy, else `Untitled` |
| Markdown.PreambleRequestId | src/formatters/markdown.ts:29-35 | the Request ID line follows the title exactly when there is a request id |
| Markdown.HighlightLines | src/formatters/markdown.ts:70-73 | one bullet per highlight, in order, each with the score of its index |
| Markdown.ResultEntries | src/formatters/markdown.ts:42-82 | one entry per position, built for that position's index |
| Markdown.AppendPreamble | src/formatters/markdown.ts:27-35 | the title, request id and cost lines as specified |
| Markdown.AppendHighlights | src/formatters/markdown.ts:68-75 | the highlights loop appends the heading, the bullets and a blank line |
| Markdown.AppendDetails | src/formatters/markdown.ts:47-66 | the URL, ID, optional fields and content section of a result |
| Markdown.AppendResult | src/formatters/markdown.ts:46-81 | the block of the result at a position |
| Markdown.AppendResultEntry | src/formatters/markdown.ts:43-44 | a null entry is skipped, any other appended |
| Markdown.AppendResults | src/formatters/markdown.ts:42-82 | the results loop appends every position's entry in order |
| Markdown.FormatSearchResults | src/formatters/markdown.ts:5-85 | the markdown output equals the search results template |
| Markdown.NoResultsText | src/formatters/markdown.ts:37-40 | without results the output is the preamble and `No results found.`, with no result heading |
| Markdown.ResultNumberedByPosition | src/formatters/markdown.ts:42-46 | the result at position k is rendered as the block numbered k + 1 |
| Markdown.ResultHeadingNumber | src/formatters/markdown.ts:46 | the block opens with `## {i + 1}. {title or "Untitled"}`, and the number reads back as i + 1 |
| Markdown.SkippedNullConsumesIndex | src/formatters/markdown.ts:43-46 | a skipped null entry still consumes its number |
| Markdown.HighlightsSectionShape | src/formatters/markdown.ts:68-75 | the highlights section exists exactly for a non-empty list, with one bullet per highlight in order |
| Markdown.CitationEntries | src/formatters/markdown.ts:124-128 | one entry per position, numbered by that position |
| Markdown.AppendAnswerBody | src/formatters/markdown.ts:114-120 | a string answer as a paragraph, any other as a fenced JSON block |
| Markdown.AppendCitationItem | src/formatters/markdown.ts:125-127 | a null citation is skipped, any other listed with its position's number |
| Markdown.AppendCitations | src/formatters/markdown.ts:122-130 | the citations loop appends the heading, the entries and a blank line |
| Markdown.FormatAnswerResponse | src/formatters/markdown.ts:87-133 | the markdown output equals the answer template |
| Markdown.CitationsSectionShape | src/formatters/markdown.ts:122-130 | the citations section exists exactly for a non-empty list; entry k is numbered k + 1; a null adds nothing |
| Markdown.EventLines | src/formatters/markdown.ts:179-182 | one line per event, in order |
| Markdown.AppendTaskHeader | src/formatters/markdown.ts:155-163 | the title, ID, status and optional instructions lines |
| Markdown.AppendOutput | src/formatters/markdown.ts:165-175 | the output section with its parsed block (for a truthy `parsed`) and its content |
| Markdown.OutputParsedBlock | src/formatters/markdown.ts:165-171 | the fenced JSON block follows the heading exactly for a truthy `parsed`; a null, false, zero or empty `parsed` leaves the heading and the content alone |
| Markdown.AppendEvents | src/formatters/markdown.ts:177-184 | the events loop appends the heading, one line per event and a blank line |
| Markdown.FormatResearchTask | src/formatters/markdown.ts:135-187 | the markdown output equals the research task template |
| Markdown.ResearchTaskSections | src/formatters/markdown.ts:165-184 | no `## Output` without output; no `## Events` for absent or empty events |
| Markdown.FormatError | src/formatters/markdown.ts:189-194 | `Error: ` followed by an Error's message, or `String(value)` of any other value |
| Markdown.FormatErrorOfError | test/formatters.test.ts:159-161 | an Error's message is shown |
| Markdown.FormatErrorOfString | test/formatters.test.ts:165 | a thrown string is shown as itself |
| Markdown.FormatErrorOfNullish | test/formatters.test.ts:167-168 | null and undefined are shown by name |
| Markdown.FormatSuccess | src/formatters/markdown.ts:196-198 | exactly `[OK] ` followed by the message |
| Cli.Crashed | src/commands/search.ts:16-19 | the `catch` block: nothing on stdout, one `Error: ` line on stderr, exit status 1 |
| Cli.ReportResults | src/commands/search.ts:15 | the reply printed as JSON or as search results markdown, or the crash for a thrown error |

## Left out

- The SDK, the network and the `exa-js` client (`src/client.ts`) are not modelled. Each SDK call is an input: a `Reply` (a value or a thrown error), or a sequence of chunks plus how the stream ends.
- `src/index.ts` is not part of this model. That covers argument parsing, the API key, help and version output, and the entry-point guards, except that the guard on the research model name (src/index.ts:186) is stated as the requirement of Research.GuardedCreateAgrees. `process.exit(1)` is the exit code of a command's `Exit`.
- `JSON.stringify`, `Number(string)`, `String(number)`, `toFixed`, `toISOString` and the WHATWG URL parser are fields of the `Host` parameter and are not interpreted.
- Markdown.EventLines: `isoString` is total, but `new Date(createdAt).toISOString()` throws a RangeError for an invalid time, which sends the command to its `catch` block; the model always renders the event line. The JSON texts of whole responses are given as parameters (`responseJson`, `taskJson`, `pageJson`) rather than computed.
- Validation.IsValidNumber: `Number(string)` is the uninterpreted `toNumber`; the blank test uses the whitespace set of `Trim`.
- Validation.Trim: the whitespace set is ECMAScript's WhiteSpace and LineTerminator with the space separators (Zs) of the current Unicode standard, fixed in the model; a later Unicode version that adds a space separator is not followed.
- Research.Preview: counts Dafny characters, not UTF-16 code units, so a `substring` that splits a surrogate pair is not modelled.
- Research.OrDefault: only undefined, NaN and zero fall back to the default; negative zero is not distinguished from zero.
- `pollUntilFinished`'s timing, intervals and timeout are not modelled; the poll's result is an input.
- A null title and a missing title are both `None` in `Citation` and `SearchResult`; both display as `Untitled`, and the JSON output of a citation omits a null title, where the SDK's object would print `"title": null`. The SDK's key order is not modelled either: a citation is serialised as title, then url.
- `ResearchPage.hasMore` is a boolean, not an optional value.
- Citations carry only a URL and a title; other fields the SDK may attach are not modelled.
- The `if (citation)` test in the display loop of `streamAnswer` is always true for the de-duplicated list, which holds no nulls; it is not modelled separately.
- The JSON branch of `streamAnswer` accumulates `response` but prints only `{citations}`; the model does the same and prints no `{response, citations}` envelope.
- The `json: true` branches of the formatters are the `JSON.stringify` output and are not modelled beyond that.
- Research.LookupTruthy: an inherited member of `Object.prototype` counts as truthy, and its value is not modelled.
- Research.CreateRequest: uses the intended mapping. For a model name inherited from `Object.prototype` (such as `constructor`) the code as written sends the inherited member as `model`; the model sends no `model` (Research.InheritedNameDiverges). The guard of src/index.ts:186 refuses such names, and behind it the two agree (Research.GuardedCreateAgrees).
- Research.CreateWarnings: uses the intended mapping. For a model name inherited from `Object.prototype` the code as written prints no warning; the model prints it.
- Research.BuildCreateOptions: uses the intended mapping, so on an inherited model name it stores no `model` and warns, where the code as written stores the inherited member and does not warn.
- Research.ResearchCreate: its request and warnings follow the intended mapping, and so differ from the code as written on inherited model names as above; every call that passes the guard of src/index.ts:186 is unaffected.

## Findings

| source | as written | input that shows it | evidently intended | confidence | as-written member | corrected member |
|---|---|---|---|---|---|---|
| src/commands/research.ts:5-12 | `map[model]` on a plain object literal also reaches the members it inherits from `Object.prototype` | `mapResearchModel("constructor")` returns the `Object` function, which is truthy, so `researchCreate` would send it as the model | only the three own entries map; every other name gives undefined and the warning. The CLI entry point validates the model first (src/index.ts:186), so only direct callers are affected | not executed | Research.MapResearchModelAsWritten, Research.ConstructorIsMappedAsWritten | Research.MapResearchModel |

/**
 * The research commands: creating a task (with the model name mapping and
 * optional polling), showing one task, and listing tasks a page at a time.
 */
module Research {
  import opened Js
  import opened Api
  import opened Options
  import opened Validation
  import opened Cli
  import Markdown

  // ---------------------------------------------------------------- the model name table

  /** The property names every object literal inherits from `Object.prototype`. */
  const ObjectPrototypeNames: set<string> := {
    "constructor", "__proto__", "hasOwnProperty", "isPrototypeOf", "propertyIsEnumerable",
    "toString", "valueOf", "toLocaleString", "__defineGetter__", "__defineSetter__",
    "__lookupGetter__", "__lookupSetter__"}

  /** What reading a property of an object literal yields: one of its own values, an inherited member, or undefined. */
  datatype Lookup = Own(value: string) | Inherited(name: string) | Missing

  /** The truthiness of a property read: own values here are non-empty strings, inherited members are functions or objects. */
  predicate LookupTruthy(l: Lookup) {
    !l.Missing?
  }

  /**
   * `mapResearchModel(model)` as written: `model ? map[model] : undefined`
   * on an object literal, which also reaches the members it inherits.
   */
  function MapResearchModelAsWritten(model: Option<string>): (r: Lookup)
    ensures !Present(model) ==> r == Missing
    ensures r.Inherited? ==> Present(model) && r.name == model.value && model.value in ObjectPrototypeNames
  {
    if !Present(model) then Missing
    else if model.value == "fast" then Own("exa-research-fast")
    else if model.value == "regular" then Own("exa-research")
    else if model.value == "pro" then Own("exa-research-pro")
    else if model.value in ObjectPrototypeNames then Inherited(model.value)
    else Missing
  }

  /** `constructor` is no research model, yet the lookup as written finds something truthy for it (the `Object` function). */
  lemma ConstructorIsMappedAsWritten()
    ensures !IsValidResearchModel(Str("constructor"))
    ensures LookupTruthy(MapResearchModelAsWritten(Some("constructor")))
    ensures !MapResearchModelAsWritten(Some("constructor")).Own?
  {
  }

  /** The mapping as intended: the three own entries of the table, and nothing else. */
  function MapResearchModel(model: Option<string>): (r: Option<string>)
    ensures r.Some? <==> model.Some? && IsValidResearchModel(Str(model.value))
  {
    if !Present(model) then None
    else if model.value == "fast" then Some("exa-research-fast")
    else if model.value == "regular" then Some("exa-research")
    else if model.value == "pro" then Some("exa-research-pro")
    else None
  }

  /** The three entries of the table. */
  lemma MapResearchModelTable()
    ensures MapResearchModel(Some("fast")) == Some("exa-research-fast")
    ensures MapResearchModel(Some("regular")) == Some("exa-research")
    ensures MapResearchModel(Some("pro")) == Some("exa-research-pro")
    ensures MapResearchModel(None) == None && MapResearchModel(Some("")) == None
  {
  }

  /** Away from the inherited names the code as written and the intended mapping agree. */
  lemma MappingsAgreeOnOwnNames(model: Option<string>)
    requires !(model.Some? && model.value in ObjectPrototypeNames)
    ensures MapResearchModelAsWritten(model).Own? <==> MapResearchModel(model).Some?
    ensures MapResearchModel(model).Some? ==> MapResearchModelAsWritten(model).value == MapResearchModel(model).value
    ensures LookupTruthy(MapResearchModelAsWritten(model)) <==> MapResearchModel(model).Some?
  {
  }

  // ---------------------------------------------------------------- research create

  /** The warning printed for a model name the table does not know. */
  function InvalidModelWarning(model: string): string {
    "Warning: Invalid research model \"" + model + "\". Valid options are: fast, regular, pro. Using default model."
  }

  /** The model argument, when it is a non-empty string. */
  function ModelArg(args: Dict): (r: Option<string>)
    ensures r.Some? <==> IsNonEmptyString(Get(args, "model"))
    ensures r.Some? ==> r.value == Get(args, "model").s
  {
    if IsNonEmptyString(Get(args, "model")) then Some(Get(args, "model").s) else None
  }

  /** The local `options` of `researchCreate`: the mapped model, when there is one. */
  function CreateOptions(args: Dict): Dict {
    var mapped := MapResearchModel(ModelArg(args));
    if mapped.Some? then map["model" := Str(mapped.value)] else map[]
  }

  /** The request `{ instructions, ...options }` that `researchCreate` sends. */
  function CreateRequest(instructions: string, args: Dict): (r: Dict)
    ensures r.Keys <= {"instructions", "model"}
    ensures "instructions" in r && r["instructions"] == Str(instructions)
    ensures "model" in r <==> ModelArg(args).Some? && IsValidResearchModel(Get(args, "model"))
    ensures "model" in r ==> r["model"] == Str(MapResearchModel(ModelArg(args)).value)
  {
    map["instructions" := Str(instructions)] + CreateOptions(args)
  }

  /** The warnings `researchCreate` prints before its request: one, exactly for a non-empty model name the table does not know. */
  function CreateWarnings(args: Dict): (r: seq<string>)
    ensures |r| <= 1
    ensures |r| == 1 <==> ModelArg(args).Some? && !IsValidResearchModel(Get(args, "model"))
    ensures |r| == 1 ==> r[0] == Line(InvalidModelWarning(ModelArg(args).value))
  {
    var m := ModelArg(args);
    if m.Some? && MapResearchModel(m).None? then [Line(InvalidModelWarning(m.value))] else []
  }

  /**
   * The `research` command refuses a truthy `--model` that is no research
   * model before it calls `researchCreate` (src/index.ts:186). Every call
   * that gets past that guard sends the same request and prints the same
   * warnings under the lookup as written as under the intended mapping.
   */
  lemma GuardedCreateAgrees(instructions: string, args: Dict)
    requires !Truthy(Get(args, "model")) || IsValidResearchModel(Get(args, "model"))
    ensures LookupTruthy(MapResearchModelAsWritten(ModelArg(args))) <==> "model" in CreateRequest(instructions, args)
    ensures "model" in CreateRequest(instructions, args) ==>
      MapResearchModelAsWritten(ModelArg(args)).Own? &&
      CreateRequest(instructions, args)["model"] == Str(MapResearchModelAsWritten(ModelArg(args)).value)
    ensures CreateWarnings(args) == []
  {
    MappingsAgreeOnOwnNames(ModelArg(args));
  }

  /**
   * On an inherited name the two part: the code as written finds a truthy
   * member, stores it as `model` and prints no warning, where the intended
   * mapping sends no model and prints the warning. Such a name is truthy and
   * no research model, so the guard of the `research` command refuses it.
   */
  lemma InheritedNameDiverges(instructions: string, args: Dict)
    requires ModelArg(args).Some? && ModelArg(args).value in ObjectPrototypeNames
    ensures MapResearchModelAsWritten(ModelArg(args)) == Inherited(ModelArg(args).value)
    ensures "model" !in CreateRequest(instructions, args) && |CreateWarnings(args)| == 1
    ensures Truthy(Get(args, "model")) && !IsValidResearchModel(Get(args, "model"))
  {
  }

  /** `x || d` for a parsed number: the default when the number is undefined, zero or NaN. */
  function OrDefault(r: Option<Number>, d: Number): (n: Number)
    ensures r.None? ==> n == d
    ensures r == Some(Finite(0.0)) ==> n == d
    ensures r.Some? && NumberTruthy(r.value) ==> n == r.value
  {
    if r.Some? && NumberTruthy(r.value) then r.value else d
  }

  /** The poll request: the task to wait for, with its interval and timeout in milliseconds. */
  datatype PollRequest = PollRequest(researchId: string, pollInterval: Number, timeoutMs: Number)

  function PollFor(researchId: string, args: Dict, toNumber: string -> Number): (p: PollRequest)
    ensures p.researchId == researchId
    ensures var i := ParseNumber(Get(args, "poll-interval"), toNumber);
      (i.None? || i == Some(Finite(0.0)) ==> p.pollInterval == Finite(1000.0))
      && (i.Some? && NumberTruthy(i.value) ==> p.pollInterval == i.value)
    ensures var t := ParseNumber(Get(args, "timeout"), toNumber);
      (t.None? || t == Some(Finite(0.0)) ==> p.timeoutMs == Finite(600000.0))
      && (t.Some? && NumberTruthy(t.value) ==> p.timeoutMs == t.value)
  {
    PollRequest(researchId,
      OrDefault(ParseNumber(Get(args, "poll-interval"), toNumber), Finite(1000.0)),
      OrDefault(ParseNumber(Get(args, "timeout"), toNumber), Finite(600000.0)))
  }

  /** What the display mode prints for a created task. */
  function CreatedLines(task: ResearchTask): seq<string> {
    [Line(Markdown.FormatSuccess("Research task created")), Line("Task ID: " + task.researchId), Line("Status: " + task.status)]
  }

  /** The model option of `researchCreate` and the warning it prints instead of one. */
  method BuildCreateOptions(args: Dict) returns (options: Dict, stderr: seq<string>)
    ensures options == CreateOptions(args)
    ensures stderr == CreateWarnings(args)
  {
    options := map[];
    stderr := [];
    if IsNonEmptyString(Get(args, "model")) {
      var mappedModel := MapResearchModel(Some(Get(args, "model").s));
      if mappedModel.Some? {
        options := options["model" := Str(mappedModel.value)];
      } else {
        stderr := stderr + [Line(InvalidModelWarning(Get(args, "model").s))];
      }
    }
  }

  /**
   * `researchCreate(client, instructions, args)`: the request it sends, the
   * poll it makes, and what it prints. `created` is the reply of the create
   * call, `finished` the reply of the poll, `taskJson` the created task as
   * `JSON.stringify` renders it.
   */
  method ResearchCreate(instructions: string, args: Dict, created: Reply<ResearchTask>, finished: Reply<ResearchTask>, taskJson: string, host: Host)
    returns (request: Dict, poll: Option<PollRequest>, exit: Exit)
    ensures request == CreateRequest(instructions, args)
    ensures poll.Some? <==> created.Replied? && !IsTrue(Get(args, "json")) && IsTrue(Get(args, "poll"))
    ensures poll.Some? ==> poll.value == PollFor(created.value.researchId, args, host.toNumber)
    ensures created.Failed? ==> exit == Exit([], CreateWarnings(args) + [Line(Markdown.FormatError(created.error, host))], 1)
    ensures created.Replied? && IsTrue(Get(args, "json")) ==> exit == Exit([Line(taskJson)], CreateWarnings(args), 0)
    ensures created.Replied? && !IsTrue(Get(args, "json")) && !IsTrue(Get(args, "poll")) ==>
      exit == Exit(CreatedLines(created.value), CreateWarnings(args), 0)
    ensures poll.Some? && finished.Failed? ==>
      exit == Exit(CreatedLines(created.value) + [Line("\nPolling for results...\n")],
        CreateWarnings(args) + [Line(Markdown.FormatError(finished.error, host))], 1)
    ensures poll.Some? && finished.Replied? ==>
      exit == Exit(CreatedLines(created.value) + [Line("\nPolling for results...\n")] + [Line(Markdown.ResearchTaskText(finished.value, host))],
        CreateWarnings(args), 0)
  {
    var options, warnings := BuildCreateOptions(args);
    request := map["instructions" := Str(instructions)] + options;
    if created.Failed? {
      return request, None, Exit([], warnings + [Line(Markdown.FormatError(created.error, host))], 1);
    }
    var stdout, stderr, code;
    poll, stdout, stderr, code := ReportCreated(created.value, args, finished, taskJson, host);
    exit := Exit(stdout, warnings + stderr, code);
  }

  /** What `researchCreate` prints once the task is created, and the poll it makes for it. */
  method ReportCreated(task: ResearchTask, args: Dict, finished: Reply<ResearchTask>, taskJson: string, host: Host)
    returns (poll: Option<PollRequest>, stdout: seq<string>, stderr: seq<string>, code: int)
    ensures poll.Some? <==> !IsTrue(Get(args, "json")) && IsTrue(Get(args, "poll"))
    ensures poll.Some? ==> poll.value == PollFor(task.researchId, args, host.toNumber)
    ensures IsTrue(Get(args, "json")) ==> stdout == [Line(taskJson)] && stderr == [] && code == 0
    ensures !IsTrue(Get(args, "json")) && !IsTrue(Get(args, "poll")) ==> stdout == CreatedLines(task) && stderr == [] && code == 0
    ensures poll.Some? && finished.Failed? ==>
      stdout == CreatedLines(task) + [Line("\nPolling for results...\n")]
      && stderr == [Line(Markdown.FormatError(finished.error, host))] && code == 1
    ensures poll.Some? && finished.Replied? ==>
      stdout == CreatedLines(task) + [Line("\nPolling for results...\n")] + [Line(Markdown.ResearchTaskText(finished.value, host))]
      && stderr == [] && code == 0
  {
    poll, stdout, stderr, code := None, [], [], 0;
    if IsTrue(Get(args, "json")) {
      stdout := stdout + [Line(taskJson)];
      return;
    }
    stdout := stdout + [Line(Markdown.FormatSuccess("Research task created"))];
    stdout := stdout + [Line("Task ID: " + task.researchId)];
    stdout := stdout + [Line("Status: " + task.status)];
    assert stdout == CreatedLines(task);
    if IsTrue(Get(args, "poll")) {
      stdout := stdout + [Line("\nPolling for results...\n")];
      poll := Some(PollFor(task.researchId, args, host.toNumber));
      if finished.Failed? {
        stderr := [Line(Markdown.FormatError(finished.error, host))];
        code := 1;
        return;
      }
      var text := Markdown.FormatResearchTask(finished.value, host);
      stdout := stdout + [Line(text)];
    }
  }

  // ---------------------------------------------------------------- research status

  /**
   * `researchStatus(client, researchId, args)`: one `get` call, its task
   * printed (`taskJson` is the task as `JSON.stringify` renders it).
   */
  method ResearchStatus(researchId: string, args: Dict, reply: Reply<ResearchTask>, taskJson: string, host: Host) returns (requested: string, exit: Exit)
    ensures requested == researchId
    ensures reply.Failed? ==> exit == Crashed(reply.error, host)
    ensures reply.Replied? && IsTrue(Get(args, "json")) ==> exit == Exit([Line(taskJson)], [], 0)
    ensures reply.Replied? && !IsTrue(Get(args, "json")) ==> exit == Exit([Line(Markdown.ResearchTaskText(reply.value, host))], [], 0)
  {
    requested := researchId;
    if reply.Failed? {
      return requested, Crashed(reply.error, host);
    }
    var text: string;
    if IsTrue(Get(args, "json")) {
      text := taskJson;
    } else {
      text := Markdown.FormatResearchTask(reply.value, host);
    }
    exit := Exit([Line(text)], [], 0);
  }

  // ---------------------------------------------------------------- research list

  const ListKeys: set<string> := {"limit", "cursor"}

  /** The options `researchList` sends. */
  function ListOptions(args: Dict, toNumber: string -> Number): (o: Dict)
    ensures o.Keys <= ListKeys
    ensures SetExactlyWhen(o, "limit", ParseNumber(Get(args, "limit"), toNumber).Some?, NumValue(ParseNumber(Get(args, "limit"), toNumber)))
    ensures SetExactlyWhen(o, "cursor", IsNonEmptyString(Get(args, "cursor")), Get(args, "cursor"))
  {
    var limit := ParseNumber(Get(args, "limit"), toNumber);
    var o := Put(map[], limit.Some?, "limit", NumValue(limit));
    Put(o, IsNonEmptyString(Get(args, "cursor")), "cursor", Get(args, "cursor"))
  }

  method BuildListOptions(args: Dict, toNumber: string -> Number) returns (options: Dict)
    ensures options == ListOptions(args, toNumber)
  {
    options := map[];
    var limit := ParseNumber(Get(args, "limit"), toNumber);
    options := PutIf(options, limit.Some?, "limit", NumValue(limit));
    options := PutIf(options, IsNonEmptyString(Get(args, "cursor")), "cursor", Get(args, "cursor"));
  }

  /** `s.substring(0, 60)` */
  function Preview(s: string): (r: string)
    ensures |r| <= 60 && |r| <= |s| && r == s[..|r|]
    ensures |s| <= 60 ==> r == s
    ensures |s| > 60 ==> |r| == 60
  {
    if |s| <= 60 then s else s[..60]
  }

  /** The lines printed for one task: its id and status, a preview of its instructions when it has some, and an empty line. */
  function TaskLines(t: ResearchTask): seq<string> {
    [Line("- " + t.researchId + ": " + t.status)]
    + (if Present(t.instructions) then [Line("  " + Preview(t.instructions.value) + "...")] else [])
    + [Line("")]
  }

  /**
   * A task with instructions gets one line between its id line and the empty
   * line: two spaces, at most the first 60 characters of the instructions,
   * and "..."; a task without gets none.
   */
  lemma InstructionsPreview(t: ResearchTask)
    ensures !Present(t.instructions) ==> TaskLines(t) == [Line("- " + t.researchId + ": " + t.status), Line("")]
    ensures Present(t.instructions) ==> |TaskLines(t)| == 3 && TaskLines(t)[2] == Line("")
    ensures Present(t.instructions) ==>
      var l, s := TaskLines(t)[1], t.instructions.value;
      var n := if |s| <= 60 then |s| else 60;
      |l| == n + 6 && l[..2] == "  " && l[2..n + 2] == s[..n] && l[n + 2..] == "...\n"
  {
    if Present(t.instructions) {
      var s := t.instructions.value;
      var p := Preview(s);
      assert TaskLines(t)[1] == "  " + p + "..." + "\n";
    }
  }

  /** The lines printed for the tasks of a page, in order. */
  function TaskListLines(ts: seq<ResearchTask>): seq<string>
    decreases |ts|
  {
    if ts == [] then [] else TaskListLines(ts[..|ts| - 1]) + TaskLines(ts[|ts| - 1])
  }

  predicate HasTasks(page: ResearchPage) {
    page.data.Some? && |page.data.value| > 0
  }

  function MoreResultsLine(cursor: string): string {
    "\nMore results available. Use --cursor " + cursor + " to see more."
  }

  /** The closing hint, printed only when the server has more and says where to continue. */
  function MoreResultsLines(page: ResearchPage): seq<string> {
    if page.hasMore && Present(page.nextCursor) then [Line(MoreResultsLine(page.nextCursor.value))] else []
  }

  /** What the display mode prints for a page. */
  function ListingLines(page: ResearchPage): seq<string> {
    [Line("# Research Tasks\n")]
    + (if !HasTasks(page) then [Line("No research tasks found.")]
       else TaskListLines(page.data.value) + MoreResultsLines(page))
  }

  /** Every line printed for a task starts with `-`, a space, or is the empty line. */
  predicate IsTaskLine(l: string) {
    |l| > 0 && (l[0] == '-' || l[0] == ' ' || l == "\n")
  }

  lemma {:induction false} TaskListLinesShape(ts: seq<ResearchTask>)
    ensures forall l :: l in TaskListLines(ts) ==> IsTaskLine(l)
    decreases |ts|
  {
    if ts != [] {
      TaskListLinesShape(ts[..|ts| - 1]);
      var t := ts[|ts| - 1];
      assert IsTaskLine(Line("- " + t.researchId + ": " + t.status));
      assert Present(t.instructions) ==> IsTaskLine(Line("  " + Preview(t.instructions.value) + "..."));
      assert IsTaskLine(Line(""));
    }
  }

  /** Each task of the page gets its `- id: status` line. */
  lemma {:induction false} EveryTaskListed(ts: seq<ResearchTask>, i: nat)
    requires i < |ts|
    ensures Line("- " + ts[i].researchId + ": " + ts[i].status) in TaskListLines(ts)
    decreases |ts|
  {
    var init := ts[..|ts| - 1];
    if i < |ts| - 1 {
      EveryTaskListed(init, i);
      assert init[i] == ts[i];
    } else {
      assert TaskLines(ts[i])[0] == Line("- " + ts[i].researchId + ": " + ts[i].status);
    }
  }

  /** The "No research tasks found." notice is printed exactly when the page has no tasks, and then nothing else follows the header. */
  lemma NoTasksNotice(page: ResearchPage)
    ensures Line("No research tasks found.") in ListingLines(page) <==> !HasTasks(page)
    ensures !HasTasks(page) ==> ListingLines(page) == [Line("# Research Tasks\n"), Line("No research tasks found.")]
  {
    if HasTasks(page) {
      var ts := page.data.value;
      TaskListLinesShape(ts);
      assert !IsTaskLine(Line("No research tasks found."));
      assert Line("No research tasks found.") !in TaskListLines(ts);
      assert Line("No research tasks found.") != Line("# Research Tasks\n");
      assert Line("No research tasks found.") !in MoreResultsLines(page);
    }
  }

  /** The line that starts the "More results" hint. */
  predicate IsMoreResultsLine(l: string) {
    |l| >= 2 && l[..2] == "\nM"
  }

  /** The "More results" hint is printed, as the last line, exactly when the page has tasks, more to come and a cursor. */
  lemma MoreResultsShown(page: ResearchPage)
    ensures HasTasks(page) && page.hasMore && Present(page.nextCursor) ==>
      ListingLines(page)[|ListingLines(page)| - 1] == Line(MoreResultsLine(page.nextCursor.value))
    ensures !(HasTasks(page) && page.hasMore && Present(page.nextCursor)) ==>
      forall l :: l in ListingLines(page) ==> !IsMoreResultsLine(l)
  {
    if HasTasks(page) {
      TaskListLinesShape(page.data.value);
      forall l | l in TaskListLines(page.data.value)
        ensures !IsMoreResultsLine(l)
      {
        assert IsTaskLine(l);
      }
    }
    assert Line("# Research Tasks\n")[0] == '#';
    assert !IsMoreResultsLine(Line("# Research Tasks\n"));
    assert Line("No research tasks found.")[0] == 'N';
    assert !IsMoreResultsLine(Line("No research tasks found."));
  }

  method PrintTasks(ts: seq<ResearchTask>) returns (out: seq<string>)
    ensures out == TaskListLines(ts)
  {
    out := [];
    for i := 0 to |ts|
      invariant out == TaskListLines(ts[..i])
    {
      var task := ts[i];
      ghost var before := out;
      out := out + [Line("- " + task.researchId + ": " + task.status)];
      if Present(task.instructions) {
        out := out + [Line("  " + Preview(task.instructions.value) + "...")];
      }
      out := out + [Line("")];
      assert out == before + TaskLines(task);
      assert ts[..i + 1][..i] == ts[..i];
    }
    assert ts[..|ts|] == ts;
  }

  /**
   * `researchList(client, args)`: the options it sends and what it prints
   * for the page it gets back (`pageJson` is the page as `JSON.stringify`
   * renders it).
   */
  method ResearchList(args: Dict, reply: Reply<ResearchPage>, pageJson: string, host: Host) returns (options: Dict, exit: Exit)
    ensures options == ListOptions(args, host.toNumber)
    ensures reply.Failed? ==> exit == Crashed(reply.error, host)
    ensures reply.Replied? && IsTrue(Get(args, "json")) ==> exit == Exit([Line(pageJson)], [], 0)
    ensures reply.Replied? && !IsTrue(Get(args, "json")) ==> exit == Exit(ListingLines(reply.value), [], 0)
  {
    options := BuildListOptions(args, host.toNumber);
    if reply.Failed? {
      return options, Crashed(reply.error, host);
    }
    var result := reply.value;
    if IsTrue(Get(args, "json")) {
      return options, Exit([Line(pageJson)], [], 0);
    }
    var stdout := [Line("# Research Tasks\n")];
    if !HasTasks(result) {
      stdout := stdout + [Line("No research tasks found.")];
      return options, Exit(stdout, [], 0);
    }
    var lines := PrintTasks(result.data.value);
    stdout := stdout + lines;
    if result.hasMore && Present(result.nextCursor) {
      stdout := stdout + [Line(MoreResultsLine(result.nextCursor.value))];
    }
    exit := Exit(stdout, [], 0);
  }
}

/**
 * What every command does around its SDK call: the call either replies or
 * throws, and the command either prints and returns, or prints the error and
 * exits with status 1.
 */
module Cli {
  import opened Js
  import opened Api
  import Markdown

  /** The outcome of an awaited SDK call. */
  datatype Reply<T> = Replied(value: T) | Failed(error: Thrown)

  /**
   * What a command leaves behind: the text it wrote to standard output and to
   * standard error, one entry per `console.log` / `console.error`, and its
   * exit status (0 when it returns, 1 after `process.exit(1)`).
   */
  datatype Exit = Exit(stdout: seq<string>, stderr: seq<string>, code: int)

  /** The `catch` block: the formatted error on standard error, then exit status 1. */
  function Crashed(e: Thrown, host: Host): (r: Exit)
    ensures r.stdout == [] && r.code == 1 && |r.stderr| == 1
    ensures |r.stderr[0]| >= 8 && r.stderr[0][..7] == "Error: " && r.stderr[0][|r.stderr[0]| - 1] == '\n'
  {
    var m := Markdown.FormatError(e, host);
    assert (m + "\n")[..7] == m[..7];
    Exit([], [Line(m)], 1)
  }

  /**
   * `console.log(format.formatSearchResults(response, { json }))` inside the
   * command's `try`, for the reply of the SDK call. `responseJson` is the
   * response as `JSON.stringify(response, null, 2)` renders it.
   */
  method ReportResults(reply: Reply<SearchResponse>, json: bool, responseJson: string, host: Host) returns (exit: Exit)
    ensures reply.Failed? ==> exit == Crashed(reply.error, host)
    ensures reply.Replied? && json ==> exit == Exit([Line(responseJson)], [], 0)
    ensures reply.Replied? && !json ==> exit == Exit([Line(Markdown.SearchResultsText(reply.value, host))], [], 0)
  {
    if reply.Failed? {
      return Crashed(reply.error, host);
    }
    var text: string;
    if json {
      text := responseJson;
    } else {
      text := Markdown.FormatSearchResults(reply.value, host);
    }
    exit := Exit([Line(text)], [], 0);
  }
}

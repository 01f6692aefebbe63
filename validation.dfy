/**
 * The validation helpers of the command layer: number parsing over an
 * abstract string-to-number conversion, URL checking over an abstract URL
 * parser, comma-separated list parsing, and the three enum validators.
 */
module Validation {
  import opened Js

  /**
   * The code points `String.prototype.trim` removes: ECMAScript's WhiteSpace
   * (tab, vertical tab, form feed, space, no-break space, byte order mark and
   * the space separators) and LineTerminator (line feed, carriage return,
   * line and paragraph separators).
   */
  predicate IsWhitespace(c: char) {
    || c == '\t' || c == '\n' || c == '\U{B}' || c == '\U{C}' || c == '\r' || c == ' '
    || c == '\U{A0}' || c == '\U{1680}' || ('\U{2000}' <= c <= '\U{200A}')
    || c == '\U{2028}' || c == '\U{2029}' || c == '\U{202F}' || c == '\U{205F}'
    || c == '\U{3000}' || c == '\U{FEFF}'
  }

  /** No whitespace at either end. */
  predicate IsTrimmed(s: string) {
    s == "" || (!IsWhitespace(s[0]) && !IsWhitespace(s[|s| - 1]))
  }

  function TrimStart(s: string): (r: string)
    ensures |r| <= |s| && r == s[|s| - |r|..]
    ensures forall i :: 0 <= i < |s| - |r| ==> IsWhitespace(s[i])
    ensures r != "" ==> !IsWhitespace(r[0])
    decreases |s|
  {
    if s != "" && IsWhitespace(s[0]) then TrimStart(s[1..]) else s
  }

  function TrimEnd(s: string): (r: string)
    ensures |r| <= |s| && r == s[..|r|]
    ensures forall i :: |r| <= i < |s| ==> IsWhitespace(s[i])
    ensures r != "" ==> !IsWhitespace(r[|r| - 1])
    decreases |s|
  {
    if s != "" && IsWhitespace(s[|s| - 1]) then TrimEnd(s[..|s| - 1]) else s
  }

  /** How many leading characters `trim` removes. */
  function TrimOffset(s: string): (k: nat)
    ensures k <= |s|
  {
    |s| - |TrimStart(s)|
  }

  /**
   * `s.trim()`: the infix of `s` that starts at `TrimOffset(s)`, with no
   * whitespace at its ends, and only whitespace cut off around it.
   */
  function Trim(s: string): (r: string)
    ensures IsTrimmed(r)
    ensures TrimOffset(s) + |r| <= |s| && r == s[TrimOffset(s)..TrimOffset(s) + |r|]
    ensures forall i :: 0 <= i < TrimOffset(s) ==> IsWhitespace(s[i])
    ensures forall i :: TrimOffset(s) + |r| <= i < |s| ==> IsWhitespace(s[i])
    ensures forall c :: c in r ==> c in s
  {
    var t := TrimStart(s);
    var r := TrimEnd(t);
    assert r != "" ==> r[0] == t[0];
    r
  }

  /** `isValidNumber(value)`, with the conversion `Number(string)` given as `toNumber`. */
  predicate IsValidNumber(v: Value, toNumber: string -> Number) {
    match v
    case Num(n) => n != NaN
    case Str(s) => Trim(s) != "" && toNumber(s) != NaN
    case _ => false
  }

  /**
   * What `isValidNumber` accepts: a number other than NaN (zero and negatives
   * included), a string that is not blank and converts to a number other than
   * NaN, and nothing else. A blank string is refused whatever `Number` makes of it.
   */
  lemma ValidNumberCases(v: Value, toNumber: string -> Number)
    ensures v.Num? ==> (IsValidNumber(v, toNumber) <==> v.n != NaN)
    ensures v.Str? && AllWhitespace(v.s) ==> !IsValidNumber(v, toNumber)
    ensures v.Str? && !AllWhitespace(v.s) ==> (IsValidNumber(v, toNumber) <==> toNumber(v.s) != NaN)
    ensures !v.Num? && !v.Str? ==> !IsValidNumber(v, toNumber)
  {
  }

  /** `parseNumber(value)`: the number, or undefined when the value is not a valid number. */
  function ParseNumber(v: Value, toNumber: string -> Number): (r: Option<Number>)
    ensures r.None? <==> !IsValidNumber(v, toNumber)
    ensures r.Some? ==> r.value != NaN
    ensures r.Some? && v.Num? ==> r.value == v.n
    ensures r.Some? && v.Str? ==> r.value == toNumber(v.s)
  {
    if !IsValidNumber(v, toNumber) then None
    else if v.Num? then Some(v.n)
    else Some(toNumber(v.s))
  }

  /**
   * `isValidUrl(s)`, with the WHATWG URL parser given as `protocolOf`: the
   * protocol of the parsed URL, or None where the constructor throws.
   */
  predicate IsValidUrl(s: string, protocolOf: string -> Option<string>) {
    match protocolOf(s)
    case Some(p) => p == "http:" || p == "https:"
    case None => false
  }

  /**
   * What `isValidUrl` accepts: exactly the strings that parse with the
   * protocol `http:` or `https:`; another protocol, or a string the parser
   * refuses, gives false.
   */
  lemma ValidUrlCases(s: string, protocolOf: string -> Option<string>)
    ensures IsValidUrl(s, protocolOf) <==> protocolOf(s) == Some("http:") || protocolOf(s) == Some("https:")
    ensures protocolOf(s).None? ==> !IsValidUrl(s, protocolOf)
  {
  }

  function CommaCount(s: string): nat
    decreases |s|
  {
    if s == "" then 0 else (if s[0] == ',' then 1 else 0) + CommaCount(s[1..])
  }

  /** `s.split(",")`: the segments between commas; an empty string gives one empty segment. */
  function SplitCommas(s: string): (r: seq<string>)
    ensures |r| == CommaCount(s) + 1
    ensures forall i :: 0 <= i < |r| ==> ',' !in r[i]
    decreases |s|
  {
    if s == "" then [""]
    else
      var rest := SplitCommas(s[1..]);
      if s[0] == ',' then [""] + rest else [[s[0]] + rest[0]] + rest[1..]
  }

  /** Joining the segments with commas gives back the string. */
  lemma {:induction false} SplitCommasJoin(s: string)
    ensures JoinWith(SplitCommas(s), ",") == s
    decreases |s|
  {
    if s != "" {
      var rest := SplitCommas(s[1..]);
      SplitCommasJoin(s[1..]);
      var r := SplitCommas(s);
      if s[0] == ',' {
        assert r[1..] == rest;
      } else {
        assert r[1..] == rest[1..];
        if |rest| > 1 {
          assert rest[1..] == rest[1..];
        }
      }
    }
  }

  /** Splitting a comma-joined list of comma-free segments gives back the segments. */
  lemma {:induction false} JoinSplitCommas(ps: seq<string>)
    requires |ps| >= 1
    requires forall i :: 0 <= i < |ps| ==> ',' !in ps[i]
    ensures SplitCommas(JoinWith(ps, ",")) == ps
    decreases |ps|, |ps[0]|
  {
    if |ps| == 1 {
      SplitCommaFree(ps[0]);
    } else if ps[0] == "" {
      var tail := JoinWith(ps[1..], ",");
      assert JoinWith(ps, ",") == "," + tail;
      assert ("," + tail)[1..] == tail;
      JoinSplitCommas(ps[1..]);
      assert ps == [""] + ps[1..];
    } else {
      var p0 := ps[0];
      var ps' := [p0[1..]] + ps[1..];
      assert ps'[1..] == ps[1..];
      var j := JoinWith(ps, ",");
      assert j == p0 + "," + JoinWith(ps[1..], ",");
      assert JoinWith(ps', ",") == p0[1..] + "," + JoinWith(ps[1..], ",");
      assert j[0] == p0[0] && j[0] != ',';
      assert j[1..] == JoinWith(ps', ",");
      assert p0[0] in p0;
      assert forall i :: 1 <= i < |ps'| ==> ps'[i] == ps[i];
      assert forall c :: c in p0[1..] ==> c in p0;
      JoinSplitCommas(ps');
      var rest := SplitCommas(j[1..]);
      assert rest == ps';
      assert [p0[0]] + p0[1..] == p0;
    }
  }

  lemma {:induction false} SplitCommaFree(s: string)
    requires ',' !in s
    ensures SplitCommas(s) == [s]
    decreases |s|
  {
    if s != "" {
      assert forall c :: c in s[1..] ==> c in s;
      SplitCommaFree(s[1..]);
      assert [s[0]] + s[1..] == s;
    }
  }

  /** `map((s) => s.trim())`, element by element: the closed form ParseStringList is built on; its properties are in ParseStringListOrder. */
  function TrimAll(ss: seq<string>): (r: seq<string>)
    ensures |r| == |ss|
    ensures forall i :: 0 <= i < |r| ==> r[i] == Trim(ss[i])
    ensures forall x :: x in r ==> IsTrimmed(x)
    ensures (forall i :: 0 <= i < |ss| ==> ',' !in ss[i]) ==> forall x :: x in r ==> ',' !in x
  {
    seq(|ss|, i requires 0 <= i < |ss| => Trim(ss[i]))
  }

  /** `.filter((s) => s.length > 0)` */
  function DropEmpty(ss: seq<string>): (r: seq<string>)
    ensures |r| <= |ss|
    ensures forall i :: 0 <= i < |r| ==> r[i] != ""
    ensures forall x :: x in r ==> x in ss
    ensures forall x :: x in ss && x != "" ==> x in r
    decreases |ss|
  {
    if ss == [] then []
    else if ss[0] == "" then DropEmpty(ss[1..])
    else [ss[0]] + DropEmpty(ss[1..])
  }

  /** `a` is `b` with some elements left out, the rest kept in order. */
  ghost predicate IsSubsequence(a: seq<string>, b: seq<string>)
    decreases |b|
  {
    if a == [] then true
    else if b == [] then false
    else (a[0] == b[0] && IsSubsequence(a[1..], b[1..])) || IsSubsequence(a, b[1..])
  }

  function NonEmptyCount(ss: seq<string>): nat
    decreases |ss|
  {
    if ss == [] then 0 else (if ss[0] == "" then 0 else 1) + NonEmptyCount(ss[1..])
  }

  /** The filter keeps every non-empty element, in order, and nothing else. */
  lemma {:induction false} DropEmptyKeepsOrder(ss: seq<string>)
    ensures IsSubsequence(DropEmpty(ss), ss)
    ensures |DropEmpty(ss)| == NonEmptyCount(ss)
    decreases |ss|
  {
    if ss != [] {
      DropEmptyKeepsOrder(ss[1..]);
      if ss[0] != "" {
        assert DropEmpty(ss)[1..] == DropEmpty(ss[1..]);
      } else if DropEmpty(ss) != [] {
        assert IsSubsequence(DropEmpty(ss), ss[1..]);
      }
    }
  }

  /**
   * `parseStringList(value)`: undefined for anything but a string; for a
   * string, the trimmed comma-separated segments with the empty ones dropped.
   */
  function ParseStringList(v: Value): (r: Option<seq<string>>)
    ensures r.None? <==> !v.Str?
    ensures r.Some? ==> forall i :: 0 <= i < |r.value| ==> r.value[i] != "" && IsTrimmed(r.value[i])
    ensures r.Some? ==> forall i :: 0 <= i < |r.value| ==> ',' !in r.value[i]
    ensures r.Some? ==> |r.value| <= CommaCount(v.s) + 1
  {
    if !v.Str? then None
    else
      var pieces := TrimAll(SplitCommas(v.s));
      var kept := DropEmpty(pieces);
      Some(kept)
  }

  /** The list keeps the order of the segments it came from, and every non-empty trimmed segment. */
  lemma ParseStringListOrder(s: string)
    ensures IsSubsequence(ParseStringList(Str(s)).value, TrimAll(SplitCommas(s)))
    ensures |ParseStringList(Str(s)).value| == NonEmptyCount(TrimAll(SplitCommas(s)))
  {
    DropEmptyKeepsOrder(TrimAll(SplitCommas(s)));
  }

  predicate AllWhitespace(s: string) {
    forall i :: 0 <= i < |s| ==> IsWhitespace(s[i])
  }

  lemma {:induction false} TrimStartPadded(p: string, t: string)
    requires AllWhitespace(p)
    requires t != "" && !IsWhitespace(t[0])
    ensures TrimStart(p + t) == t
    decreases |p|
  {
    if p == "" {
      assert p + t == t;
    } else {
      var s := p + t;
      assert s[0] == p[0] && IsWhitespace(s[0]);
      assert TrimStart(s) == TrimStart(s[1..]);
      assert s[1..] == p[1..] + t;
      TrimStartPadded(p[1..], t);
    }
  }

  lemma {:induction false} TrimEndPadded(t: string, q: string)
    requires AllWhitespace(q)
    requires t != "" && !IsWhitespace(t[|t| - 1])
    ensures TrimEnd(t + q) == t
    decreases |q|
  {
    if q != "" {
      assert (t + q)[..|t + q| - 1] == t + q[..|q| - 1];
      TrimEndPadded(t, q[..|q| - 1]);
    }
  }

  /** Trimming removes exactly whitespace padding around a trimmed, non-empty core. */
  lemma TrimPadded(p: string, x: string, q: string)
    requires AllWhitespace(p) && AllWhitespace(q)
    requires x != "" && IsTrimmed(x)
    ensures Trim(p + x + q) == x
  {
    assert p + x + q == p + (x + q);
    TrimStartPadded(p, x + q);
    TrimEndPadded(x, q);
  }

  /** Reads a concrete case of `parseStringList` off its segments and their trimmed forms. */
  lemma ParseStringListOf(s: string, segments: seq<string>, trimmed: seq<string>, kept: seq<string>)
    requires SplitCommas(s) == segments
    requires TrimAll(segments) == trimmed
    requires DropEmpty(trimmed) == kept
    ensures ParseStringList(Str(s)) == Some(kept)
  {
  }

  lemma SplitPlain()
    ensures SplitCommas("a,b,c") == ["a", "b", "c"]
  {
    assert JoinWith(["a", "b", "c"], ",") == "a,b,c";
    JoinSplitCommas(["a", "b", "c"]);
  }

  lemma SplitEmptySegments()
    ensures SplitCommas("a,,b,,c") == ["a", "", "b", "", "c"]
    ensures SplitCommas(",,,") == ["", "", "", ""]
  {
    assert JoinWith(["a", "", "b", "", "c"], ",") == "a,,b,,c";
    JoinSplitCommas(["a", "", "b", "", "c"]);
    assert JoinWith(["", "", "", ""], ",") == ",,,";
    JoinSplitCommas(["", "", "", ""]);
  }

  lemma TrimLetter(x: string)
    requires x == "a" || x == "b" || x == "c" || x == "single"
    ensures Trim(x) == x
  {
    TrimPadded("", x, "");
    assert "" + x + "" == x;
  }

  lemma TrimEmpty()
    ensures Trim("") == ""
  {
  }

  lemma TrimPlain()
    ensures TrimAll(["a", "b", "c"]) == ["a", "b", "c"]
  {
    TrimLetter("a");
    TrimLetter("b");
    TrimLetter("c");
  }

  lemma DropPlain()
    ensures DropEmpty(["a", "b", "c"]) == ["a", "b", "c"]
  {
    DropEmptyNonEmpty(["a", "b", "c"]);
  }

  /** The examples of the validation tests. */
  lemma ParseStringListPlain()
    ensures ParseStringList(Str("a,b,c")) == Some(["a", "b", "c"])
  {
    SplitPlain();
    TrimPlain();
    DropPlain();
    ParseStringListOf("a,b,c", ["a", "b", "c"], ["a", "b", "c"], ["a", "b", "c"]);
  }

  lemma ParseStringListSingle()
    ensures ParseStringList(Str("single")) == Some(["single"])
  {
    SplitCommaFree("single");
    TrimLetter("single");
    ParseStringListOf("single", ["single"], ["single"], ["single"]);
  }

  /** A list whose every element is already trimmed is left as it is. */
  lemma TrimAllFixed(ss: seq<string>)
    requires forall i :: 0 <= i < |ss| ==> Trim(ss[i]) == ss[i]
    ensures TrimAll(ss) == ss
  {
  }

  lemma TrimEmptySegments()
    ensures TrimAll(["a", "", "b", "", "c"]) == ["a", "", "b", "", "c"]
  {
    var ss := ["a", "", "b", "", "c"];
    TrimLetter("a");
    TrimLetter("b");
    TrimLetter("c");
    TrimEmpty();
    forall i | 0 <= i < |ss|
      ensures Trim(ss[i]) == ss[i]
    {
      assert ss[i] == "a" || ss[i] == "" || ss[i] == "b" || ss[i] == "c";
    }
    TrimAllFixed(ss);
  }

  lemma TrimCommasOnly()
    ensures TrimAll(["", "", "", ""]) == ["", "", "", ""]
  {
    TrimEmpty();
  }

  lemma DropEmptySegments()
    ensures DropEmpty(["a", "", "b", "", "c"]) == ["a", "b", "c"]
  {
    assert ["a", "", "b", "", "c"][1..] == ["", "b", "", "c"];
    assert ["", "b", "", "c"][1..] == ["b", "", "c"];
    assert ["b", "", "c"][1..] == ["", "c"];
    assert ["", "c"][1..] == ["c"];
  }

  lemma ParseStringListEmptySegments()
    ensures ParseStringList(Str("a,,b,,c")) == Some(["a", "b", "c"])
  {
    SplitEmptySegments();
    TrimEmptySegments();
    DropEmptySegments();
    ParseStringListOf("a,,b,,c", ["a", "", "b", "", "c"], ["a", "", "b", "", "c"], ["a", "b", "c"]);
  }

  lemma ParseStringListCommasOnly()
    ensures ParseStringList(Str(",,,")) == Some([])
  {
    SplitEmptySegments();
    TrimCommasOnly();
    ParseStringListOf(",,,", ["", "", "", ""], ["", "", "", ""], []);
  }

  /**
   * A comma-joined list of comma-free segments, each with its own whitespace
   * padding on either side, parses to the non-empty cores of the segments, in order.
   */
  lemma {:induction false} ParseStringListPadded(ps: seq<string>, lp: seq<string>, rp: seq<string>, cores: seq<string>)
    requires |ps| >= 1 && |cores| == |ps| && |lp| == |ps| && |rp| == |ps|
    requires forall i :: 0 <= i < |ps| ==> AllWhitespace(lp[i]) && ',' !in lp[i] && AllWhitespace(rp[i]) && ',' !in rp[i]
    requires forall i :: 0 <= i < |ps| ==> cores[i] != "" && IsTrimmed(cores[i]) && ',' !in cores[i]
    requires forall i :: 0 <= i < |ps| ==> ps[i] == lp[i] + cores[i] + rp[i]
    ensures ParseStringList(Str(JoinWith(ps, ","))) == Some(cores)
  {
    forall i | 0 <= i < |ps| ensures ',' !in ps[i] && Trim(ps[i]) == cores[i] {
      TrimPadded(lp[i], cores[i], rp[i]);
    }
    JoinSplitCommas(ps);
    assert TrimAll(ps) == cores;
    DropEmptyNonEmpty(cores);
  }

  lemma {:induction false} DropEmptyNonEmpty(ss: seq<string>)
    requires forall i :: 0 <= i < |ss| ==> ss[i] != ""
    ensures DropEmpty(ss) == ss
    decreases |ss|
  {
    if ss != [] {
      DropEmptyNonEmpty(ss[1..]);
    }
  }

  /** Non-strings are not lists. */
  lemma ParseStringListNonStrings()
    ensures ParseStringList(Num(Finite(123.0))) == None
    ensures ParseStringList(Null) == None
    ensures ParseStringList(Absent) == None
    ensures ParseStringList(StrList(["a", "b"])) == None
  {
  }

  /** `isValidSearchType(value)` */
  predicate IsValidSearchType(v: Value) {
    v.Str? && v.s in ["auto", "fast", "deep", "instant"]
  }

  /** `isValidAnswerModel(value)` */
  predicate IsValidAnswerModel(v: Value) {
    v.Str? && v.s in ["ex", "exa-pro"]
  }

  /** `isValidResearchModel(value)` */
  predicate IsValidResearchModel(v: Value) {
    v.Str? && v.s in ["fast", "regular", "pro"]
  }

  /** Each validator accepts exactly the strings of its list, and nothing that is not a string. */
  lemma ValidatorsExact(v: Value)
    ensures IsValidSearchType(v) <==> v == Str("auto") || v == Str("fast") || v == Str("deep") || v == Str("instant")
    ensures IsValidAnswerModel(v) <==> v == Str("ex") || v == Str("exa-pro")
    ensures IsValidResearchModel(v) <==> v == Str("fast") || v == Str("regular") || v == Str("pro")
  {
  }
}

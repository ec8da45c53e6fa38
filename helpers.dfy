/** The helpers module: `format_response`, which projects an outcome dictionary
    for the HTTP and command-line front ends, and `load_env_file`, which copies
    the assignments of a `.env` file into the process environment. */
module Helpers {
  import opened Base
  import opened Text

  // ---------------------------------------------------------------------------
  // format_response
  // ---------------------------------------------------------------------------

  /** A JSON-like value held in a result dictionary. Dictionaries compare as
      maps, as Python's `dict` equality does. */
  datatype Value =
    | VNull
    | VBool(b: bool)
    | VInt(i: int)
    | VReal(r: real)
    | VString(s: string)
    | VList(items: seq<Value>)
    | VDict(fields: map<string, Value>)

  type Dict = map<string, Value>

  /** `data.get(key, default)`. */
  function Get(data: Dict, key: string, default: Value): (r: Value)
    ensures key in data ==> r == data[key]
    ensures key !in data ==> r == default
  {
    if key in data then data[key] else default
  }

  /** The entries of `data` other than `result` and `success`. */
  function Details(data: Dict): (r: Dict)
    ensures forall k :: k in r <==> k in data && k != "result" && k != "success"
    ensures forall k :: k in r ==> r[k] == data[k]
  {
    map k | k in data && k != "result" && k != "success" :: data[k]
  }

  /** `format_response(data, include_details)`. */
  function FormatResponse(data: Dict, includeDetails: bool): (r: Dict)
    ensures !includeDetails ==> r.Keys == {"result", "success"}
    ensures includeDetails ==> r.Keys == {"result", "success", "details"}
    ensures r["result"] == Get(data, "result", VString("")) && r["success"] == Get(data, "success", VBool(false))
    ensures includeDetails ==>
      && r["details"].VDict?
      && (forall k :: k in r["details"].fields <==> k in data && k != "result" && k != "success")
      && (forall k :: k in r["details"].fields ==> r["details"].fields[k] == data[k])
  {
    var simple := map["result" := Get(data, "result", VString("")), "success" := Get(data, "success", VBool(false))];
    if includeDetails then simple["details" := VDict(Details(data))] else simple
  }

  /** The detailed form loses nothing: putting `result` and `success` back into
      `details` rebuilds `data` whenever `data` holds both keys. */
  lemma DetailedRoundTrip(data: Dict)
    requires "result" in data && "success" in data
    ensures var f := FormatResponse(data, true);
      f["details"].fields["result" := f["result"]]["success" := f["success"]] == data
  {
    var f := FormatResponse(data, true);
    var rebuilt := f["details"].fields["result" := f["result"]]["success" := f["success"]];
    assert rebuilt.Keys == data.Keys;
  }

  /** The simple form is the detailed form without `details`. */
  lemma SimpleIsDetailedWithoutDetails(data: Dict)
    ensures FormatResponse(data, false) == FormatResponse(data, true) - {"details"}
  {
  }

  /** `result` and `success` never reach `details`; every other key of `data`,
      including a key named `details`, does. */
  lemma DetailsExcludeTopLevelKeys(data: Dict)
    ensures var d := FormatResponse(data, true)["details"].fields;
      && "result" !in d && "success" !in d
      && ("details" in data ==> "details" in d && d["details"] == data["details"])
  {
  }

  /** An empty dictionary formats to an empty result that did not succeed. */
  lemma EmptyDataFormatted()
    ensures FormatResponse(map[], true) == map["result" := VString(""), "success" := VBool(false), "details" := VDict(map[])]
    ensures FormatResponse(map[], false) == map["result" := VString(""), "success" := VBool(false)]
  {
    assert Details(map[]) == map[];
  }

  /** `{"provider": "OpenAI"}`, the `best_response` of the repository's examples. */
  const ExampleBest := VDict(map["provider" := VString("OpenAI")])

  /** The repository's simple example: the simple form drops `best_response` and
      `method`. */
  lemma SimpleResponseFormatted(data: Dict)
    requires data == map["result" := VString("Test result"), "success" := VBool(true),
                         "best_response" := ExampleBest, "method" := VString("select")]
    ensures FormatResponse(data, false) == map["result" := VString("Test result"), "success" := VBool(true)]
  {
  }

  /** The six keys of the repository's detailed example. */
  const DetailedExample: Dict := map["result" := VString("Test result"), "success" := VBool(true),
                                     "best_response" := ExampleBest, "method" := VString("select"),
                                     "judge_response" := VString("Judge explanation"),
                                     "weights" := VList([VReal(0.7), VReal(0.3)])]

  /** What the detailed example keeps under `details`. */
  const DetailedExampleDetails: Dict := map["best_response" := ExampleBest, "method" := VString("select"),
                                            "judge_response" := VString("Judge explanation"),
                                            "weights" := VList([VReal(0.7), VReal(0.3)])]

  /** `details` of a dictionary with `result` and `success` added is the
      dictionary itself. */
  lemma DetailsOfTopLevelAdded(d: Dict, result: Value, success: Value)
    requires "result" !in d && "success" !in d
    ensures Details(d["result" := result]["success" := success]) == d
  {
    assert Details(d["result" := result]["success" := success]).Keys == d.Keys;
  }

  /** Of the detailed example, `details` keeps the four keys other than `result`
      and `success`. */
  lemma DetailedExampleSplit()
    ensures Details(DetailedExample) == DetailedExampleDetails
  {
    assert DetailedExample == DetailedExampleDetails["result" := VString("Test result")]["success" := VBool(true)];
    DetailsOfTopLevelAdded(DetailedExampleDetails, VString("Test result"), VBool(true));
  }

  /** The repository's detailed example: the four keys other than `result` and
      `success` move under `details`, unchanged. */
  lemma DetailedResponseFormatted(data: Dict)
    requires data == DetailedExample
    ensures FormatResponse(data, true) == map["result" := VString("Test result"), "success" := VBool(true),
      "details" := VDict(DetailedExampleDetails)]
  {
    DetailedExampleSplit();
  }

  // ---------------------------------------------------------------------------
  // load_env_file
  // ---------------------------------------------------------------------------

  /** The position of the first `c` in `s`, if any. */
  function FirstIndexOf(s: string, c: char): (r: Option<nat>)
    ensures r.None? <==> c !in s
    ensures r.Some? ==> r.value < |s| && s[r.value] == c && c !in s[..r.value]
  {
    if |s| == 0 then None
    else if s[0] == c then Some(0)
    else
      match FirstIndexOf(s[1..], c)
      case None => None
      case Some(i) =>
        assert s[..i + 1] == [s[0]] + s[1..][..i];
        Some(i + 1)
  }

  /** The first `c` is the one after a prefix without `c`. */
  lemma {:induction false} FirstIndexAfterPrefix(prefix: string, c: char, rest: string)
    requires c !in prefix
    ensures FirstIndexOf(prefix + [c] + rest, c) == Some(|prefix|)
  {
    if |prefix| > 0 {
      assert (prefix + [c] + rest)[1..] == prefix[1..] + [c] + rest;
      FirstIndexAfterPrefix(prefix[1..], c, rest);
    } else {
      assert (prefix + [c] + rest)[0] == c;
    }
  }

  /** What one line of a `.env` file does once stripped: nothing (a blank or `#`
      line), an assignment split at the first `=`, or the `ValueError` of
      unpacking a line that has no `=`. */
  datatype EnvLine = Skip | Assign(key: string, value: string) | Malformed

  /** The rule applied to a line `t` that is already stripped. */
  function ClassifyStripped(t: string): (r: EnvLine)
    ensures r.Skip? <==> t == [] || t[0] == '#'
    ensures r.Malformed? <==> t != [] && t[0] != '#' && '=' !in t
    ensures r.Assign? ==> '=' !in r.key && r.key + "=" + r.value == t
  {
    if t == [] || t[0] == '#' then Skip
    else
      match FirstIndexOf(t, '=')
      case None => Malformed
      case Some(i) =>
        assert t[..i] + "=" + t[i + 1..] == t;
        Assign(t[..i], t[i + 1..])
  }

  /** The rule applied to a line as the file yields it. */
  function ClassifyLine(line: string): EnvLine {
    ClassifyStripped(Strip(line))
  }

  /** The process environment after a load, and whether the load raised. */
  datatype EnvLoad = EnvLoad(vars: map<string, string>, raised: bool)

  /** The lines `lines` applied to `env` in order, stopping at the first one that
      raises; the assignments before it stay in effect. */
  function ApplyLines(lines: seq<string>, env: map<string, string>): (r: EnvLoad)
    decreases |lines|
  {
    if |lines| == 0 then EnvLoad(env, false)
    else
      match ClassifyLine(lines[0])
      case Skip => ApplyLines(lines[1..], env)
      case Malformed => EnvLoad(env, true)
      case Assign(key, value) => ApplyLines(lines[1..], env[key := value])
  }

  /** `load_env_file(path)` on an environment `env`, given whether `path` exists
      and, when it does, its lines. */
  function LoadEnv(fileExists: bool, lines: seq<string>, env: map<string, string>): (r: EnvLoad)
    ensures !fileExists ==> r == EnvLoad(env, false)
  {
    if fileExists then ApplyLines(lines, env) else EnvLoad(env, false)
  }

  /** `os.environ`, which `load_env_file` updates in place. */
  class Environment {
    var vars: map<string, string>

    constructor(initial: map<string, string>)
      ensures vars == initial
    {
      vars := initial;
    }

    /** `load_env_file(path)`: `raised` tells whether the `ValueError` of a line
        without `=` escaped. */
    method LoadEnvFile(fileExists: bool, lines: seq<string>) returns (raised: bool)
      modifies this
      ensures EnvLoad(vars, raised) == LoadEnv(fileExists, lines, old(vars))
    {
      raised := false;
      if !fileExists {
        return;
      }
      for i := 0 to |lines|
        invariant ApplyLines(lines[i..], vars) == ApplyLines(lines, old(vars))
      {
        assert lines[i..][1..] == lines[i + 1..];
        var line := ClassifyLine(lines[i]);
        match line
        case Skip =>
        case Malformed =>
          raised := true;
          return;
        case Assign(key, value) =>
          vars := vars[key := value];
      }
      assert lines[|lines|..] == [];
    }
  }

  // ---------------------------------------------------------------------------
  // Properties of the .env line rule
  // ---------------------------------------------------------------------------

  /** Reading continues where the previous lines left the environment. */
  lemma {:induction false} ApplyAppend(a: seq<string>, b: seq<string>, env: map<string, string>)
    ensures var first := ApplyLines(a, env);
      ApplyLines(a + b, env) == if first.raised then first else ApplyLines(b, first.vars)
    decreases |a|
  {
    if |a| > 0 {
      assert (a + b)[1..] == a[1..] + b;
      match ClassifyLine(a[0])
      case Skip => ApplyAppend(a[1..], b, env);
      case Malformed =>
      case Assign(key, value) => ApplyAppend(a[1..], b, env[key := value]);
    } else {
      assert a + b == b;
    }
  }

  /** A later line overrides an earlier one for the same key: after an
      assignment line the key holds that line's value. */
  lemma LastAssignmentWins(a: seq<string>, line: string, env: map<string, string>)
    requires ClassifyLine(line).Assign?
    requires !ApplyLines(a, env).raised
    ensures var r := ApplyLines(a + [line], env);
      !r.raised && ClassifyLine(line).key in r.vars && r.vars[ClassifyLine(line).key] == ClassifyLine(line).value
  {
    ApplyAppend(a, [line], env);
    assert [line][1..] == [];
  }

  /** A line is one that can assign `key`. */
  predicate AssignsKey(line: string, key: string) {
    ClassifyLine(line).Assign? && ClassifyLine(line).key == key
  }

  /** A key that no line assigns keeps its entry, or its absence. */
  lemma {:induction false} UnassignedKeyUnchanged(lines: seq<string>, env: map<string, string>, key: string)
    requires forall i :: 0 <= i < |lines| ==> !AssignsKey(lines[i], key)
    ensures var r := ApplyLines(lines, env);
      (key in r.vars <==> key in env) && (key in env ==> r.vars[key] == env[key])
    decreases |lines|
  {
    if |lines| > 0 {
      assert !AssignsKey(lines[0], key);
      match ClassifyLine(lines[0])
      case Skip => UnassignedKeyUnchanged(lines[1..], env, key);
      case Malformed =>
      case Assign(k, v) => UnassignedKeyUnchanged(lines[1..], env[k := v], key);
    }
  }

  /** The load raises exactly when some line is malformed; the assignments of the
      lines before the first malformed one take effect and no later line does. */
  lemma {:induction false} FirstMalformedLineRaises(lines: seq<string>, env: map<string, string>, j: nat)
    requires j < |lines| && ClassifyLine(lines[j]).Malformed?
    requires forall i :: 0 <= i < j ==> !ClassifyLine(lines[i]).Malformed?
    ensures ApplyLines(lines, env) == EnvLoad(ApplyLines(lines[..j], env).vars, true)
  {
    assert lines == lines[..j] + lines[j..];
    ApplyAppend(lines[..j], lines[j..], env);
    WellFormedDoesNotRaise(lines[..j], env);
  }

  /** Lines without a malformed one never raise. */
  lemma {:induction false} WellFormedDoesNotRaise(lines: seq<string>, env: map<string, string>)
    requires forall i :: 0 <= i < |lines| ==> !ClassifyLine(lines[i]).Malformed?
    ensures !ApplyLines(lines, env).raised
    decreases |lines|
  {
    if |lines| > 0 {
      var rest := lines[1..];
      assert forall i :: 0 <= i < |rest| ==> rest[i] == lines[i + 1];
      var first := ClassifyLine(lines[0]);
      if first.Assign? {
        WellFormedDoesNotRaise(rest, env[first.key := first.value]);
      } else {
        WellFormedDoesNotRaise(rest, env);
      }
    }
  }

  /** A raised load had a malformed line. */
  lemma {:induction false} RaisedHasMalformedLine(lines: seq<string>, env: map<string, string>)
    requires ApplyLines(lines, env).raised
    ensures exists i :: 0 <= i < |lines| && ClassifyLine(lines[i]).Malformed?
  {
    if forall i :: 0 <= i < |lines| ==> !ClassifyLine(lines[i]).Malformed? {
      WellFormedDoesNotRaise(lines, env);
      assert false;
    }
  }

  /** The indentation the repository's example `.env` text uses. */
  const Indent := "        "

  lemma IndentIsSpace()
    ensures forall i :: 0 <= i < |Indent| ==> IsSpace(Indent[i])
  {
  }

  /** A stripped assignment splits into the text before and after its first `=`. */
  lemma SplitAssignment(t: string, key: string, value: string)
    requires '=' !in key && |key| > 0 && key[0] != '#'
    requires t == key + "=" + value
    ensures ClassifyStripped(t) == Assign(key, value)
  {
    FirstIndexAfterPrefix(key, '=', value);
    assert t[..|key|] == key;
    assert t[|key| + 1..] == value;
  }

  /** An indented comment line is skipped. */
  lemma CommentSkipped(line: string, comment: string)
    requires |comment| > 0 && comment[0] == '#' && !IsSpace(comment[|comment| - 1])
    requires line == Indent + comment + "\n"
    ensures ClassifyLine(line) == Skip
  {
    IndentIsSpace();
    StripPadded(Indent, comment, "\n");
  }

  /** A line made only of whitespace is skipped. */
  lemma BlankSkipped(line: string)
    requires forall i :: 0 <= i < |line| ==> IsSpace(line[i])
    ensures ClassifyLine(line) == Skip
  {
    StripAllSpace(line);
  }

  /** An indented empty line is skipped. */
  lemma IndentedBlankSkipped(line: string)
    requires line == Indent + "\n"
    ensures ClassifyLine(line) == Skip
  {
    IndentIsSpace();
    forall i | 0 <= i < |line| ensures IsSpace(line[i]) {
      if i < |Indent| {
        assert line[i] == Indent[i];
      }
    }
    BlankSkipped(line);
  }

  /** An indented assignment sets its key to everything after the first `=`,
      inner spaces included. */
  lemma KeyLineAssigns(line: string, key: string, value: string)
    requires '=' !in key && |key| > 0 && key[0] != '#' && !IsSpace(key[0])
    requires |value| > 0 && !IsSpace(value[|value| - 1])
    requires line == Indent + key + "=" + value + "\n"
    ensures ClassifyLine(line) == Assign(key, value)
  {
    IndentIsSpace();
    assert line == Indent + (key + "=" + value) + "\n";
    StripPadded(Indent, key + "=" + value, "\n");
    SplitAssignment(key + "=" + value, key, value);
  }

  /** One line read: a skipped line leaves the environment as it is, an
      assignment updates one key. */
  lemma ApplyFirstLine(lines: seq<string>, env: map<string, string>)
    requires |lines| > 0 && !ClassifyLine(lines[0]).Malformed?
    ensures ApplyLines(lines, env) == ApplyLines(lines[1..],
      if ClassifyLine(lines[0]).Assign? then env[ClassifyLine(lines[0]).key := ClassifyLine(lines[0]).value] else env)
  {
  }

  /** The repository's example `.env` text, as the file yields its lines. */
  predicate IsExampleEnvText(lines: seq<string>) {
    && |lines| == 8
    && lines[0] == "\n"
    && lines[1] == Indent + "# This is a comment" + "\n"
    && lines[2] == Indent + "KEY1" + "=" + "value1" + "\n"
    && lines[3] == Indent + "KEY2" + "=" + "value2" + "\n"
    && lines[4] == Indent + "\n"
    && lines[5] == Indent + "# Another comment" + "\n"
    && lines[6] == Indent + "KEY3" + "=" + "value with spaces" + "\n"
    && lines[7] == Indent
  }

  lemma ExampleBlankLines(lines: seq<string>)
    requires IsExampleEnvText(lines)
    ensures ClassifyLine(lines[0]) == Skip && ClassifyLine(lines[4]) == Skip && ClassifyLine(lines[7]) == Skip
  {
    BlankSkipped(lines[0]);
    IndentedBlankSkipped(lines[4]);
    IndentIsSpace();
    BlankSkipped(lines[7]);
  }

  lemma ExampleCommentLines(lines: seq<string>)
    requires IsExampleEnvText(lines)
    ensures ClassifyLine(lines[1]) == Skip && ClassifyLine(lines[5]) == Skip
  {
    CommentSkipped(lines[1], "# This is a comment");
    CommentSkipped(lines[5], "# Another comment");
  }


  /** Each assignment line of the example assigns its key. */
  lemma ExampleAssignment(line: string, key: string, value: string)
    requires key == "KEY1" || key == "KEY2" || key == "KEY3"
    requires value == "value1" || value == "value2" || value == "value with spaces"
    requires line == Indent + key + "=" + value + "\n"
    ensures ClassifyLine(line) == Assign(key, value)
  {
    assert value[|value| - 1] == '1' || value[|value| - 1] == '2' || value[|value| - 1] == 's';
    KeyLineAssigns(line, key, value);
  }

  /** The repository's example `.env` text, line by line as the file yields it:
      comments and blank lines are skipped, and the three assignments land in
      the environment, the last one with its inner spaces. */
  lemma ExampleEnvFileLoaded(lines: seq<string>, env: map<string, string>)
    requires IsExampleEnvText(lines)
    ensures LoadEnv(true, lines, env)
      == EnvLoad(env["KEY1" := "value1"]["KEY2" := "value2"]["KEY3" := "value with spaces"], false)
  {
    ExampleBlankLines(lines);
    ExampleCommentLines(lines);
    ExampleAssignment(lines[2], "KEY1", "value1");
    ExampleAssignment(lines[3], "KEY2", "value2");
    ExampleAssignment(lines[6], "KEY3", "value with spaces");
    ExampleLinesApplied(lines, env);
  }

  /** The example text's outcome, from what each of its lines does. */
  lemma ExampleLinesApplied(lines: seq<string>, env: map<string, string>)
    requires |lines| == 8
    requires ClassifyLine(lines[0]) == Skip && ClassifyLine(lines[1]) == Skip
    requires ClassifyLine(lines[2]) == Assign("KEY1", "value1") && ClassifyLine(lines[3]) == Assign("KEY2", "value2")
    requires ClassifyLine(lines[4]) == Skip && ClassifyLine(lines[5]) == Skip
    requires ClassifyLine(lines[6]) == Assign("KEY3", "value with spaces") && ClassifyLine(lines[7]) == Skip
    ensures ApplyLines(lines, env) == EnvLoad(env["KEY1" := "value1"]["KEY2" := "value2"]["KEY3" := "value with spaces"], false)
  {
    var e1 := env["KEY1" := "value1"];
    var e2 := e1["KEY2" := "value2"];
    var e3 := e2["KEY3" := "value with spaces"];
    ApplyFirstLine(lines, env);
    ApplyFirstLine(lines[1..], env);
    ApplyFirstLine(lines[2..], env);
    ApplyFirstLine(lines[3..], e1);
    ApplyFirstLine(lines[4..], e2);
    ApplyFirstLine(lines[5..], e2);
    ApplyFirstLine(lines[6..], e2);
    ApplyFirstLine(lines[7..], e3);
    assert lines[1..][1..] == lines[2..];
    assert lines[2..][1..] == lines[3..];
    assert lines[3..][1..] == lines[4..];
    assert lines[4..][1..] == lines[5..];
    assert lines[5..][1..] == lines[6..];
    assert lines[6..][1..] == lines[7..];
    assert lines[7..][1..] == [];
  }
}

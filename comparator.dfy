/** `Comparator`: fans one prompt out to the configured providers, keeps the
    successful answers in launch order and hands them to the judge. The
    concurrent fan-out is modelled by its result: one gathered outcome per
    launched query, in launch order. */
module ComparatorService {
  import opened Base
  import opened Text
  import opened Records
  import opened JudgeService
  import opened JudgeProperties

  // ---------------------------------------------------------------------------
  // Construction and configuration
  // ---------------------------------------------------------------------------

  /** The keys of `self.models`, in the order the constructor inserts them. */
  const KnownProviders: seq<string> := ["openai", "anthropic", "gemini"]

  /** The default model of each provider, from the configuration module. */
  const OpenAIDefaultModel := "gpt-4.1-2025-04-14"
  const AnthropicDefaultModel := "claude-3-7-sonnet-latest"
  const GeminiDefaultModel := "gemini-2.5-pro-preview-05-06"

  /** A comparator: its adapters are the fixed `KnownProviders`, so the judge is
      the only state it carries. */
  datatype Comparator = Comparator(judge: Judge)

  /** `Comparator(use_blending)` in the environment `env`: it builds
      `Judge(blend_responses=use_blending)`, whose error it lets escape. */
  function NewComparator(useBlending: bool, env: map<string, string>): (r: Result<Comparator, string>)
    ensures r.Ok? <==> NewJudge(None, None, useBlending, env).Ok?
    ensures r.Ok? ==> r.value.judge.blendResponses == useBlending && r.value.judge.modelProvider == "openai"
    ensures r.Err? ==> r.error == NewJudge(None, None, useBlending, env).error
  {
    match NewJudge(None, None, useBlending, env)
    case Ok(judge) => Ok(Comparator(judge))
    case Err(message) => Err(message)
  }

  /** A `model_configs` dictionary as its items in iteration order. */
  type Configs = seq<(string, string)>

  const DefaultConfigs: Configs :=
    [("openai", OpenAIDefaultModel), ("anthropic", AnthropicDefaultModel), ("gemini", GeminiDefaultModel)]

  /** The configuration `compare` works with: the defaults when none is given;
      a given one is used as it is, without filling in missing providers. */
  function ResolveConfigs(configs: Option<Configs>): (r: Configs)
    ensures configs.None? ==> r == DefaultConfigs
    ensures configs.Some? ==> r == configs.value
  {
    match configs
    case None => DefaultConfigs
    case Some(c) => c
  }

  // ---------------------------------------------------------------------------
  // Launching the queries
  // ---------------------------------------------------------------------------

  /** One launched `_query_with_fallback(provider, model, prompt)`. */
  datatype Query = Query(provider: string, model: string, prompt: string)

  /** The queries `compare` launches, in order: one per configured provider that
      has an adapter; the other keys are skipped. */
  function Planned(configs: Configs, prompt: string): (r: seq<Query>)
    ensures |r| <= |configs|
    ensures forall i :: 0 <= i < |r| ==> r[i].provider in KnownProviders && r[i].prompt == prompt
  {
    if |configs| == 0 then []
    else
      var (provider, model) := configs[0];
      (if provider in KnownProviders then [Query(provider, model, prompt)] else []) + Planned(configs[1..], prompt)
  }

  /** The configuration loop of `compare`: the tasks it creates. */
  method PlanQueries(configs: Configs, prompt: string) returns (queries: seq<Query>)
    ensures queries == Planned(configs, prompt)
  {
    queries := [];
    for i := 0 to |configs|
      invariant queries + Planned(configs[i..], prompt) == Planned(configs, prompt)
    {
      var rest := Planned(configs[i + 1..], prompt);
      assert configs[i..][1..] == configs[i + 1..];
      assert Planned(configs[i..], prompt)
        == (if configs[i].0 in KnownProviders then [Query(configs[i].0, configs[i].1, prompt)] else []) + rest;
      var (provider, model) := configs[i];
      if provider in KnownProviders {
        assert queries + [Query(provider, model, prompt)] + rest == queries + ([Query(provider, model, prompt)] + rest);
        queries := queries + [Query(provider, model, prompt)];
      } else {
        assert [] + rest == rest;
      }
    }
    assert configs[|configs|..] == [];
  }

  /** What a provider adapter's `query(prompt, model)` does: return a record, or
      raise an exception with a message. */
  datatype AdapterResult = Returned(record: ProviderResponse) | Raised(message: string)

  /** `_query_with_fallback`: the adapter's record unchanged, or a failure record
      naming the configured provider key and model when the adapter raises. */
  function QueryWithFallback(provider: string, model: string, result: AdapterResult): (r: ProviderResponse)
    ensures result.Returned? ==> r == result.record
    ensures result.Raised? ==> r.Failed? && r.provider == provider && r.model == model
    ensures result.Raised? ==>
      && r.error.Some?
      && StartsWith(r.error.value, "Query failed: ")
      && r.error.value[|"Query failed: "|..] == result.message
  {
    match result
    case Returned(record) => record
    case Raised(message) => Failed(provider, model, Some("Query failed: " + message))
  }

  /** The adapters of the comparator, keyed by provider: `adapters(provider,
      prompt, model)` is what `self.models[provider].query(prompt, model)` does. */
  type Adapters = (string, string, string) -> AdapterResult

  /** One entry of `asyncio.gather(..., return_exceptions=True)`. */
  datatype Gathered = Value(record: ProviderResponse) | Exception(message: string)

  /** The gathered results when every task runs `_query_with_fallback` to the end,
      which catches every exception the adapter raises. */
  function Gather(queries: seq<Query>, adapters: Adapters): (r: seq<Gathered>)
    ensures |r| == |queries|
    ensures forall i :: 0 <= i < |r| ==> r[i].Value?
  {
    seq(|queries|, i requires 0 <= i < |queries| =>
      Value(QueryWithFallback(queries[i].provider, queries[i].model,
        adapters(queries[i].provider, queries[i].prompt, queries[i].model))))
  }

  // ---------------------------------------------------------------------------
  // Processing the results
  // ---------------------------------------------------------------------------

  /** The records of the gathered results, in order, with the exceptions dropped. */
  function Processed(gathered: seq<Gathered>): (r: seq<ProviderResponse>)
    ensures |r| <= |gathered|
    ensures (forall i :: 0 <= i < |gathered| ==> gathered[i].Exception?) ==> r == []
  {
    if |gathered| == 0 then []
    else (if gathered[0].Value? then [gathered[0].record] else []) + Processed(gathered[1..])
  }

  /** The processing loop of `compare` (its `print` of each error is left out). */
  method ProcessResponses(gathered: seq<Gathered>) returns (processed: seq<ProviderResponse>)
    ensures processed == Processed(gathered)
  {
    processed := [];
    for i := 0 to |gathered|
      invariant processed + Processed(gathered[i..]) == Processed(gathered)
    {
      var rest := Processed(gathered[i + 1..]);
      assert gathered[i..][1..] == gathered[i + 1..];
      assert Processed(gathered[i..]) == (if gathered[i].Value? then [gathered[i].record] else []) + rest;
      if gathered[i].Value? {
        assert processed + [gathered[i].record] + rest == processed + ([gathered[i].record] + rest);
        processed := processed + [gathered[i].record];
      } else {
        assert [] + rest == rest;
      }
    }
    assert gathered[|gathered|..] == [];
  }

  /** The responses `compare` hands to the judge, if it gets that far. */
  function JudgeInput(gathered: seq<Gathered>): (r: seq<ProviderResponse>)
    ensures Successful(r) == r
  {
    Successful(Processed(gathered))
  }

  // ---------------------------------------------------------------------------
  // compare
  // ---------------------------------------------------------------------------

  /** The record returned when no provider answered successfully: only `result`
      and `success` are present. */
  const AllFailedOutcome := Outcome(Some("All models failed to respond. Please try again."), false,
    None, None, None, None, None, None, None)

  /** A run of `compare`: the queries launched, the responses handed to the judge
      (`None` when the judge is not called), the returned record (or the exception
      that escapes) and the judge model's oracle calls. */
  datatype Comparison = Comparison(
    queries: seq<Query>,
    judged: Option<seq<ProviderResponse>>,
    outcome: Result<Outcome, Error>,
    calls: seq<OracleCall>)

  /** `comparator.compare(prompt, model_configs)` when the launched queries end
      with `gathered` and the judge's shuffle yields `perm`. */
  function CompareSpec(comparator: Comparator, caps: Capabilities, prompt: string, configs: Option<Configs>,
                       gathered: seq<Gathered>, perm: seq<nat>): Comparison
    requires |gathered| == |Planned(ResolveConfigs(configs), prompt)|
    requires IsPermutation(perm, |JudgeInput(gathered)|)
  {
    var queries := Planned(ResolveConfigs(configs), prompt);
    var ok := JudgeInput(gathered);
    if |ok| == 0 then Comparison(queries, None, Ok(AllFailedOutcome), [])
    else
      assert Successful(ok) == ok;
      var e := EvaluateSpec(comparator.judge, caps, prompt, ok, perm);
      Comparison(queries, Some(ok), e.outcome, e.calls)
  }

  /** `comparator.compare(prompt, model_configs)`, step by step. */
  method Compare(comparator: Comparator, caps: Capabilities, prompt: string, configs: Option<Configs>,
                 gathered: seq<Gathered>, perm: seq<nat>)
    returns (queries: seq<Query>, judged: Option<seq<ProviderResponse>>, outcome: Result<Outcome, Error>, calls: seq<OracleCall>)
    requires |gathered| == |Planned(ResolveConfigs(configs), prompt)|
    requires IsPermutation(perm, |JudgeInput(gathered)|)
    ensures Comparison(queries, judged, outcome, calls) == CompareSpec(comparator, caps, prompt, configs, gathered, perm)
  {
    var resolved := ResolveConfigs(configs);
    queries := PlanQueries(resolved, prompt);
    var processed := ProcessResponses(gathered);
    var ok := Successful(processed);
    if |ok| == 0 {
      return queries, None, Ok(AllFailedOutcome), [];
    }
    assert Successful(ok) == ok;
    judged := Some(ok);
    outcome, calls := Evaluate(comparator.judge, caps, prompt, ok, perm);
  }

  // ---------------------------------------------------------------------------
  // Properties
  // ---------------------------------------------------------------------------

  /** Skipping and order: planning distributes over concatenation. */
  lemma {:induction false} PlannedAppend(a: Configs, b: Configs, prompt: string)
    ensures Planned(a + b, prompt) == Planned(a, prompt) + Planned(b, prompt)
  {
    if |a| > 0 {
      assert (a + b)[1..] == a[1..] + b;
      PlannedAppend(a[1..], b, prompt);
    } else {
      assert a + b == b;
    }
  }

  /** A key without an adapter launches nothing, wherever it stands. */
  lemma UnknownProviderSkipped(a: Configs, provider: string, model: string, b: Configs, prompt: string)
    requires provider !in KnownProviders
    ensures Planned(a + [(provider, model)] + b, prompt) == Planned(a + b, prompt)
  {
    PlannedAppend(a + [(provider, model)], b, prompt);
    PlannedAppend(a, [(provider, model)], prompt);
    PlannedAppend(a, b, prompt);
    assert [(provider, model)][1..] == [];
  }

  /** A configuration whose keys all have adapters is launched item by item. */
  lemma {:induction false} KnownConfigsAllLaunched(configs: Configs, prompt: string)
    requires forall i :: 0 <= i < |configs| ==> configs[i].0 in KnownProviders
    ensures |Planned(configs, prompt)| == |configs|
    ensures forall i :: 0 <= i < |configs| ==>
      Planned(configs, prompt)[i] == Query(configs[i].0, configs[i].1, prompt)
  {
    if |configs| > 0 {
      KnownConfigsAllLaunched(configs[1..], prompt);
    }
  }

  /** Without a configuration exactly the three providers are queried, once each,
      with their default models and the caller's prompt. */
  lemma DefaultConfigsQueried(prompt: string)
    ensures Planned(ResolveConfigs(None), prompt) == [
      Query("openai", "gpt-4.1-2025-04-14", prompt),
      Query("anthropic", "claude-3-7-sonnet-latest", prompt),
      Query("gemini", "gemini-2.5-pro-preview-05-06", prompt)]
  {
    KnownConfigsAllLaunched(DefaultConfigs, prompt);
  }

  /** A partial configuration queries only the providers it names, with its
      models. */
  lemma CustomConfigsQueried(prompt: string)
    ensures Planned(ResolveConfigs(Some([("openai", "gpt-4-turbo"), ("anthropic", "claude-3-opus-20240229")])), prompt)
      == [Query("openai", "gpt-4-turbo", prompt), Query("anthropic", "claude-3-opus-20240229", prompt)]
  {
    KnownConfigsAllLaunched([("openai", "gpt-4-turbo"), ("anthropic", "claude-3-opus-20240229")], prompt);
  }

  /** The fallback query is successful exactly when the adapter returns a success
      record; a raising adapter yields a failed record. */
  lemma QuerySucceedsIffAdapterSucceeds(provider: string, model: string, result: AdapterResult)
    ensures QueryWithFallback(provider, model, result).Succeeded? <==> result.Returned? && result.record.Succeeded?
  {
  }

  /** A query is launched exactly when its provider has an adapter and the
      configuration lists it with that model. */
  lemma {:induction false} PlannedMembers(configs: Configs, prompt: string, q: Query)
    ensures q in Planned(configs, prompt) <==>
      q.provider in KnownProviders && q.prompt == prompt && (q.provider, q.model) in configs
  {
    if |configs| > 0 {
      PlannedMembers(configs[1..], prompt, q);
      var head := if configs[0].0 in KnownProviders then [Query(configs[0].0, configs[0].1, prompt)] else [];
      assert Planned(configs, prompt) == head + Planned(configs[1..], prompt);
      assert configs == [configs[0]] + configs[1..];
      assert (q.provider, q.model) in configs <==> (q.provider, q.model) == configs[0] || (q.provider, q.model) in configs[1..];
    }
  }

  /** Processing keeps every record that was returned and nothing else. */
  lemma {:induction false} ProcessedMembers(gathered: seq<Gathered>, x: ProviderResponse)
    ensures x in Processed(gathered) <==> Value(x) in gathered
  {
    if |gathered| > 0 {
      ProcessedMembers(gathered[1..], x);
      assert gathered == [gathered[0]] + gathered[1..];
    }
  }

  /** Processing keeps the order of the gathered records. */
  lemma {:induction false} ProcessedAppend(a: seq<Gathered>, b: seq<Gathered>)
    ensures Processed(a + b) == Processed(a) + Processed(b)
  {
    if |a| > 0 {
      assert (a + b)[1..] == a[1..] + b;
      ProcessedAppend(a[1..], b);
    } else {
      assert a + b == b;
    }
  }

  /** When no task raises, the processed records are the fallback queries' records,
      one per launched query, in launch order. */
  lemma {:induction false} GatherProcessed(queries: seq<Query>, adapters: Adapters)
    ensures var p := Processed(Gather(queries, adapters));
      |p| == |queries| &&
      forall i :: 0 <= i < |queries| ==>
        p[i] == QueryWithFallback(queries[i].provider, queries[i].model,
          adapters(queries[i].provider, queries[i].prompt, queries[i].model))
  {
    if |queries| > 0 {
      var g := Gather(queries, adapters);
      assert g == [g[0]] + Gather(queries[1..], adapters);
      ProcessedAppend([g[0]], Gather(queries[1..], adapters));
      GatherProcessed(queries[1..], adapters);
      assert [g[0]][1..] == [];
    } else {
      assert Gather(queries, adapters) == [];
    }
  }

  /** The judge receives exactly the successful records of the tasks that did not
      raise. */
  lemma JudgeInputMembers(gathered: seq<Gathered>, x: ProviderResponse)
    ensures x in JudgeInput(gathered) <==> Value(x) in gathered && x.Succeeded?
    ensures AllSucceeded(JudgeInput(gathered))
  {
    ProcessedMembers(gathered, x);
  }

  /** Without a successful record `compare` returns the fixed failure record and
      never calls the judge; with one it calls the judge once, with the
      successful records, and returns whatever the judge returns. */
  lemma CompareOutcome(comparator: Comparator, caps: Capabilities, prompt: string, configs: Option<Configs>,
                       gathered: seq<Gathered>, perm: seq<nat>)
    requires |gathered| == |Planned(ResolveConfigs(configs), prompt)|
    requires IsPermutation(perm, |JudgeInput(gathered)|)
    ensures var c := CompareSpec(comparator, caps, prompt, configs, gathered, perm);
      && c.queries == Planned(ResolveConfigs(configs), prompt)
      && (|JudgeInput(gathered)| == 0 <==> c.judged.None?)
      && (c.judged.None? ==> c.outcome == Ok(AllFailedOutcome) && c.calls == [])
      && (c.judged.Some? ==>
            && c.judged.value == JudgeInput(gathered)
            && c.outcome == EvaluateSpec(comparator.judge, caps, prompt, JudgeInput(gathered), perm).outcome
            && c.calls == EvaluateSpec(comparator.judge, caps, prompt, JudgeInput(gathered), perm).calls)
  {
    var ok := JudgeInput(gathered);
    if |ok| > 0 {
      assert Successful(ok) == ok;
    }
  }

  /** `compare` reports success exactly when some task returned a success record
      (unless the judge raises). */
  lemma CompareSucceedsIffSomeSuccess(comparator: Comparator, caps: Capabilities, prompt: string, configs: Option<Configs>,
                                      gathered: seq<Gathered>, perm: seq<nat>)
    requires |gathered| == |Planned(ResolveConfigs(configs), prompt)|
    requires IsPermutation(perm, |JudgeInput(gathered)|)
    ensures var c := CompareSpec(comparator, caps, prompt, configs, gathered, perm);
      c.outcome.Ok? ==> (c.outcome.value.success <==> exists x :: Value(x) in gathered && x.Succeeded?)
  {
    var ok := JudgeInput(gathered);
    if |ok| > 0 {
      assert Successful(ok) == ok;
      assert ok[0] in ok;
      JudgeInputMembers(gathered, ok[0]);
      SuccessIffSomeResponse(comparator.judge, caps, prompt, ok, perm);
    } else {
      forall x | Value(x) in gathered
        ensures !x.Succeeded?
      {
        JudgeInputMembers(gathered, x);
      }
    }
  }

  /** When every adapter raises, `compare` returns
      `{"result": "All models failed to respond. Please try again.", "success": False}`
      without calling the judge. */
  lemma AllAdaptersRaise(comparator: Comparator, caps: Capabilities, prompt: string, configs: Option<Configs>,
                         adapters: Adapters)
    requires forall p, q, m :: adapters(p, q, m).Raised?
    ensures JudgeInput(Gather(Planned(ResolveConfigs(configs), prompt), adapters)) == []
    ensures var queries := Planned(ResolveConfigs(configs), prompt);
      var c := CompareSpec(comparator, caps, prompt, configs, Gather(queries, adapters), []);
      && c.judged.None?
      && c.outcome == Ok(AllFailedOutcome)
      && c.calls == []
  {
    var queries := Planned(ResolveConfigs(configs), prompt);
    GatherProcessed(queries, adapters);
    var p := Processed(Gather(queries, adapters));
    assert forall i :: 0 <= i < |p| ==> p[i].Failed?;
  }
}

/** `Judge` (multi_ai/services/judge.py): the protocol that turns the responses of
    several providers into one outcome. The oracle (the judge model's `query`),
    `json.loads`, the shuffle and the percentage formatting are parameters; each
    step that the source writes as a loop is a method proved equal to a
    specification function, and `EvaluateSpec` is the whole protocol as one
    function. */
module JudgeService {
  import opened Base
  import opened Text
  import opened Records
  import opened JudgeParsing

  const DefaultJudgeProvider := "openai"
  const DefaultJudgeModel := "o3-2025-04-16"

  /** A constructed judge: the provider is always `"openai"`, the only one supported. */
  datatype Judge = Judge(modelProvider: string, modelName: string, blendResponses: bool)

  /** Python's `a or b` for an optional string: `None` and `""` fall through to `b`. */
  function OrElse(a: Option<string>, b: string): (r: string)
    ensures a.Some? && a.value != "" ==> r == a.value
    ensures a.None? || a.value == "" ==> r == b
  {
    if a.Some? && a.value != "" then a.value else b
  }

  /** `os.environ.get(key, default)` on the process environment, a map of strings
      (the `Helpers` module's `Get` is `dict.get` on a result dictionary). */
  function EnvGet(env: map<string, string>, key: string, default: string): (r: string)
    ensures key in env ==> r == env[key]
    ensures key !in env ==> r == default
  {
    if key in env then env[key] else default
  }

  /** `Judge(model_provider, model_name, blend_responses)` with the environment
      `env`: the judge, or the message of the `ValueError` it raises. */
  function NewJudge(provider: Option<string>, model: Option<string>, blend: bool, env: map<string, string>): (r: Result<Judge, string>)
    ensures r.Ok? ==> r.value.modelProvider == "openai" && r.value.blendResponses == blend
    ensures r.Ok? ==> r.value.modelName == OrElse(model, EnvGet(env, "JUDGE_MODEL", DefaultJudgeModel))
  {
    var chosen := OrElse(provider, EnvGet(env, "JUDGE_MODEL_PROVIDER", DefaultJudgeProvider));
    if chosen == "openai" then
      Ok(Judge(chosen, OrElse(model, EnvGet(env, "JUDGE_MODEL", DefaultJudgeModel)), blend))
    else Err("Unsupported judge model provider: " + chosen)
  }

  // ---------------------------------------------------------------------------
  // Permutations (the result of random.shuffle on list(range(n)))
  // ---------------------------------------------------------------------------

  predicate IsPermutation(perm: seq<nat>, n: nat) {
    && |perm| == n
    && (forall i :: 0 <= i < n ==> perm[i] < n)
    && (forall i, j :: 0 <= i < j < n ==> perm[i] != perm[j])
  }

  /** `list(range(n))`. */
  function Identity(n: nat): (r: seq<nat>)
    ensures |r| == n && forall i :: 0 <= i < n ==> r[i] == i
  {
    if n == 0 then [] else Identity(n - 1) + [n - 1]
  }

  function Values(s: seq<nat>): set<nat> {
    set i | 0 <= i < |s| :: s[i]
  }

  lemma {:induction false} DistinctValuesSize(s: seq<nat>)
    requires forall i, j :: 0 <= i < j < |s| ==> s[i] != s[j]
    ensures |Values(s)| == |s|
  {
    if |s| == 0 {
      assert Values(s) == {};
    } else {
      var t := s[..|s| - 1];
      DistinctValuesSize(t);
      assert Values(s) == Values(t) + {s[|s| - 1]};
      assert s[|s| - 1] !in Values(t);
    }
  }

  lemma SameSizeSubsetEqual(a: set<nat>, b: set<nat>)
    requires a <= b && |a| == |b|
    ensures a == b
  {
    var d := b - a;
    assert b == a + d;
    assert a * d == {};
    assert |d| == 0;
  }

  /** A permutation of `0..n-1` takes every value below `n`. */
  lemma PermutationOnto(perm: seq<nat>, n: nat)
    requires IsPermutation(perm, n)
    ensures Values(perm) == Values(Identity(n))
  {
    var id := Identity(n);
    DistinctValuesSize(perm);
    DistinctValuesSize(id);
    forall x | x in Values(perm) ensures x in Values(id) {
      assert id[x] == x;
    }
    SameSizeSubsetEqual(Values(perm), Values(id));
  }

  // ---------------------------------------------------------------------------
  // _anonymize_responses
  // ---------------------------------------------------------------------------

  /** A value of `provider_map`: the original index and the true provider and model. */
  datatype MapEntry = MapEntry(originalIndex: nat, provider: string, model: string)

  /** `f"{kind} {i+1}"`. */
  function Pseudonym(kind: string, i: nat): string {
    kind + " " + NatToString(i + 1)
  }

  /** The anonymized record at position `i`: the text of `responses[perm[i]]` under
      the pseudonyms of position `i`. */
  function AnonymizedAt(responses: seq<ProviderResponse>, perm: seq<nat>, i: nat): ProviderResponse
    requires AllSucceeded(responses) && IsPermutation(perm, |responses|) && i < |perm|
  {
    Succeeded(Pseudonym("Provider", i), Pseudonym("Model", i), responses[perm[i]].response)
  }

  function EntryAt(responses: seq<ProviderResponse>, perm: seq<nat>, i: nat): MapEntry
    requires IsPermutation(perm, |responses|) && i < |perm|
  {
    MapEntry(perm[i], responses[perm[i]].provider, responses[perm[i]].model)
  }

  /** The anonymized list that `_anonymize_responses` returns for the shuffle `perm`. */
  function Anonymized(responses: seq<ProviderResponse>, perm: seq<nat>): (r: seq<ProviderResponse>)
    requires AllSucceeded(responses) && IsPermutation(perm, |responses|)
    ensures |r| == |responses| && AllSucceeded(r)
  {
    seq(|perm|, i requires 0 <= i < |perm| => AnonymizedAt(responses, perm, i))
  }

  /** The `provider_map` that `_anonymize_responses` returns for the shuffle `perm`. */
  function ProviderMapOf(responses: seq<ProviderResponse>, perm: seq<nat>): (m: map<nat, MapEntry>)
    requires IsPermutation(perm, |responses|)
    ensures forall k: nat :: k in m <==> k < |responses|
    ensures forall i :: 0 <= i < |perm| ==>
      m[i] == MapEntry(perm[i], responses[perm[i]].provider, responses[perm[i]].model)
  {
    map i: nat | i < |perm| :: EntryAt(responses, perm, i)
  }

  /** `_anonymize_responses(responses)` when the shuffle yields `perm`. */
  method AnonymizeResponses(responses: seq<ProviderResponse>, perm: seq<nat>)
    returns (anonymized: seq<ProviderResponse>, providerMap: map<nat, MapEntry>)
    requires AllSucceeded(responses) && IsPermutation(perm, |responses|)
    ensures anonymized == Anonymized(responses, perm)
    ensures providerMap == ProviderMapOf(responses, perm)
  {
    anonymized := [];
    providerMap := map[];
    var anonIndex := 0;
    while anonIndex < |perm|
      invariant 0 <= anonIndex <= |perm|
      invariant anonymized == Anonymized(responses, perm)[..anonIndex]
      invariant providerMap == map i: nat | i < anonIndex :: EntryAt(responses, perm, i)
    {
      var original := perm[anonIndex];
      var resp := responses[original];
      anonymized := anonymized + [Succeeded(Pseudonym("Provider", anonIndex), Pseudonym("Model", anonIndex), resp.response)];
      providerMap := providerMap[anonIndex := MapEntry(original, resp.provider, resp.model)];
      anonIndex := anonIndex + 1;
    }
  }

  /** `[successful_responses[idx] for (idx, _, _) in provider_map.values()]`: the
      original records in anonymized order. */
  function Deanonymized(responses: seq<ProviderResponse>, perm: seq<nat>): (r: seq<ProviderResponse>)
    requires IsPermutation(perm, |responses|)
    ensures |r| == |responses|
    ensures forall i :: 0 <= i < |r| ==> r[i] == responses[ProviderMapOf(responses, perm)[i].originalIndex]
  {
    seq(|perm|, i requires 0 <= i < |perm| => responses[perm[i]])
  }

  // ---------------------------------------------------------------------------
  // _create_evaluation_prompt
  // ---------------------------------------------------------------------------

  const EvaluationPreamble := [
    "You are a fair and impartial judge evaluating responses from different AI models.",
    "You must evaluate each response solely on its quality and merit, not based on which model produced it."]

  const CriteriaHeading := "\nEvaluate each response based on these criteria:"

  const Criteria := [
    "1. Accuracy: Is the information correct and reliable?",
    "2. Completeness: Does it fully address all aspects of the prompt?",
    "3. Clarity: Is it well-written, easy to understand, and well-structured?",
    "4. Usefulness: How practical and helpful is the response?",
    "5. Creativity: Where appropriate, does it show original thinking?",
    "6. Reasoning: Does it demonstrate logical thinking and good judgment?"]

  const Impartiality := "\nIMPORTANT: All responses come from equally capable models. Judge each response strictly on its quality as presented here."

  const WeightsFormat := [
    "\nYOUR RESPONSE FORMAT:",
    "1. Provide a brief explanation (1-2 sentences) of how you evaluated these responses.",
    "2. Assign a weight between 0 and 10 to each response based on overall quality.",
    "Format your response like this:\n{\"explanation\": \"Your explanation here\", \"weights\": [X, Y, Z]}",
    "Where X, Y, Z are numbers between 0 and 10 representing the quality of each response."]

  const SelectionFormat := [
    "\nYOUR RESPONSE FORMAT:",
    "1. Provide a brief explanation (1-2 sentences) of why you selected the best response.",
    "2. Identify the number of the best response.",
    "Format your response like this:\n{\"explanation\": \"Your explanation here\", \"selection\": N}",
    "Where N is the number of the best response (e.g., 1, 2, or 3)."]

  function ResponseFormat(blendMode: bool): seq<string> {
    if blendMode then WeightsFormat else SelectionFormat
  }

  function OriginalPromptLine(prompt: string): string {
    "Original prompt: " + prompt + "\n"
  }

  /** The heading of the `i`-th response (numbered from 1) in the evaluation prompt. */
  function EvaluationHeading(i: nat, provider: string, model: string): string {
    "\n--- Response " + NatToString(i) + ": " + provider + " (" + model + ") ---\n"
  }

  function EvaluationSection(responses: seq<ProviderResponse>, k: nat): string
    requires AllSucceeded(responses) && k < |responses|
  {
    EvaluationHeading(k + 1, responses[k].provider, responses[k].model) + responses[k].response + "\n"
  }

  function EvaluationSections(responses: seq<ProviderResponse>): (r: seq<string>)
    requires AllSucceeded(responses)
    ensures |r| == |responses|
  {
    seq(|responses|, k requires 0 <= k < |responses| => EvaluationSection(responses, k))
  }

  /** Everything after the response sections: the criteria, the impartiality
      notice and the reply format of the mode. */
  function EvaluationTrailer(blendMode: bool): seq<string> {
    [CriteriaHeading] + Criteria + [Impartiality] + ResponseFormat(blendMode)
  }

  /** The `prompt_parts` list of `_create_evaluation_prompt`. */
  function EvaluationLines(prompt: string, responses: seq<ProviderResponse>, blendMode: bool): seq<string>
    requires AllSucceeded(responses)
  {
    EvaluationPreamble + [OriginalPromptLine(prompt), "Model responses:"]
      + EvaluationSections(responses) + EvaluationTrailer(blendMode)
  }

  /** `_create_evaluation_prompt(prompt, responses, blend_mode)`. */
  method CreateEvaluationPrompt(prompt: string, responses: seq<ProviderResponse>, blendMode: bool) returns (text: string)
    requires AllSucceeded(responses)
    ensures text == JoinLines(EvaluationLines(prompt, responses, blendMode))
  {
    var parts := EvaluationPreamble + [OriginalPromptLine(prompt), "Model responses:"];
    var k := 0;
    while k < |responses|
      invariant 0 <= k <= |responses|
      invariant parts == EvaluationPreamble + [OriginalPromptLine(prompt), "Model responses:"] + EvaluationSections(responses)[..k]
    {
      var r := responses[k];
      parts := parts + [EvaluationHeading(k + 1, r.provider, r.model) + r.response + "\n"];
      k := k + 1;
    }
    assert EvaluationSections(responses)[..k] == EvaluationSections(responses);
    parts := parts + [CriteriaHeading];
    parts := parts + Criteria;
    parts := parts + [Impartiality];
    if blendMode {
      parts := parts + WeightsFormat;
    } else {
      parts := parts + SelectionFormat;
    }
    assert parts == EvaluationLines(prompt, responses, blendMode);
    text := JoinLines(parts);
  }

  // ---------------------------------------------------------------------------
  // _create_blending_prompt
  // ---------------------------------------------------------------------------

  const BlendingPreamble := "You are an expert at synthesizing information from multiple sources."

  const BlendingInstructions := [
    "You will be given multiple responses to this prompt with assigned weights.",
    "Your task is to create a SINGLE COHERENT RESPONSE that:",
    "1. Incorporates content from all responses according to their weights",
    "2. Prioritizes information from higher-weighted responses",
    "3. Resolves any contradictions by favoring higher-weighted responses",
    "4. Maintains a consistent tone and style throughout",
    "5. Forms a complete, well-structured answer to the original prompt\n",
    "Responses with their weights:"]

  const BlendingClosing := "\nNow, create a single coherent response that blends these sources according to their weights."
    + "\nDo not mention the weights or that this is a blend in your response."
    + "\nWrite in a natural, flowing style as if this was a single response from the beginning."

  /** `f"{w*100:.1f}%"`: the percentage label of a weight. */
  type PercentFormat = real -> string

  function BlendingHeading(i: nat, provider: string, model: string, percent: string): string {
    "\n--- Response " + NatToString(i) + " (" + provider + ", " + model + ", Weight: " + percent + ") ---\n"
  }

  function BlendingSection(responses: seq<ProviderResponse>, weights: seq<real>, percent: PercentFormat, k: nat): string
    requires AllSucceeded(responses) && k < |responses| && k < |weights|
  {
    BlendingHeading(k + 1, responses[k].provider, responses[k].model, percent(weights[k] * 100.0))
      + responses[k].response + "\n"
  }

  /** One section per pair of `zip(responses, weights)`, under the true provider and model. */
  function BlendingSections(responses: seq<ProviderResponse>, weights: seq<real>, percent: PercentFormat): (r: seq<string>)
    requires AllSucceeded(responses)
    ensures |r| == if |responses| <= |weights| then |responses| else |weights|
  {
    var n := if |responses| <= |weights| then |responses| else |weights|;
    seq(n, k requires 0 <= k < n => BlendingSection(responses, weights, percent, k))
  }

  /** The `prompt_parts` list of `_create_blending_prompt`. */
  function BlendingLines(prompt: string, responses: seq<ProviderResponse>, weights: seq<real>, percent: PercentFormat): seq<string>
    requires AllSucceeded(responses)
  {
    [BlendingPreamble, OriginalPromptLine(prompt)] + BlendingInstructions
      + BlendingSections(responses, weights, percent) + [BlendingClosing]
  }

  /** `_create_blending_prompt(prompt, responses, weights)`. */
  method CreateBlendingPrompt(prompt: string, responses: seq<ProviderResponse>, weights: seq<real>, percent: PercentFormat)
    returns (text: string)
    requires AllSucceeded(responses)
    ensures text == JoinLines(BlendingLines(prompt, responses, weights, percent))
  {
    var parts := [BlendingPreamble, OriginalPromptLine(prompt)] + BlendingInstructions;
    var n := if |responses| <= |weights| then |responses| else |weights|;
    var k := 0;
    while k < n
      invariant 0 <= k <= n
      invariant parts == [BlendingPreamble, OriginalPromptLine(prompt)] + BlendingInstructions + BlendingSections(responses, weights, percent)[..k]
    {
      var r := responses[k];
      parts := parts + [BlendingHeading(k + 1, r.provider, r.model, percent(weights[k] * 100.0)) + r.response + "\n"];
      k := k + 1;
    }
    assert BlendingSections(responses, weights, percent)[..k] == BlendingSections(responses, weights, percent);
    parts := parts + [BlendingClosing];
    text := JoinLines(parts);
  }

  // ---------------------------------------------------------------------------
  // Weights
  // ---------------------------------------------------------------------------

  /** Python's `sum(w)`, added left to right. */
  function Sum(w: seq<real>): real {
    if |w| == 0 then 0.0 else Sum(w[..|w| - 1]) + w[|w| - 1]
  }

  /** `[x / total for x in w]`. */
  function Scaled(w: seq<real>, total: real): (r: seq<real>)
    requires total != 0.0
    ensures |r| == |w|
    ensures forall i :: 0 <= i < |r| ==> r[i] * total == w[i]
  {
    seq(|w|, i requires 0 <= i < |w| => w[i] / total)
  }

  function Normalized(w: seq<real>): (r: seq<real>)
    requires Sum(w) != 0.0
    ensures |r| == |w|
  {
    Scaled(w, Sum(w))
  }

  /** `weights.index(max(weights))`: the first position holding the largest weight. */
  function FirstMaxIndex(w: seq<real>): (i: nat)
    requires |w| > 0
    ensures i < |w|
    ensures forall j :: 0 <= j < |w| ==> w[j] <= w[i]
    ensures forall j :: 0 <= j < i ==> w[j] < w[i]
  {
    if |w| == 1 then 0
    else
      var k := FirstMaxIndex(w[..|w| - 1]);
      if w[|w| - 1] > w[k] then |w| - 1 else k
  }

  // ---------------------------------------------------------------------------
  // evaluate
  // ---------------------------------------------------------------------------

  /** What the judge needs from outside: the judge model's `query(prompt, model)`,
      `json.loads` of a brace span, and the percentage formatting. */
  datatype Capabilities = Capabilities(
    oracle: (string, string) -> ProviderResponse,
    decode: Decoder,
    percent: PercentFormat)

  /** One call of the judge model: `query(prompt, model=model)`. */
  datatype OracleCall = OracleCall(prompt: string, model: string)

  /** The outcome of `evaluate` (or the exception it raises) and the oracle calls it
      made, in order. */
  datatype Evaluation = Evaluation(outcome: Result<Outcome, Error>, calls: seq<OracleCall>)

  const NoResponseOutcome := Outcome(None, false, Some(NoResponse), Some("All model responses failed"),
    Some("No successful responses were received from any model."), None, None, None, None)

  function SingleOutcome(only: ProviderResponse): Outcome
    requires only.Succeeded?
  {
    Outcome(Some(only.response), true, Some(Single), Some("Only one successful response available"),
      Some("Only one successful response was available, so it was selected automatically."),
      Some(only), None, None, None)
  }

  /** The outcome that falls back to `first`, with method `"fallback"`. */
  function FallbackOutcome(first: ProviderResponse, reason: string, explanation: string, judgeResponse: Option<string>): Outcome
    requires first.Succeeded?
  {
    Outcome(Some(first.response), true, Some(Fallback), Some(reason), Some(explanation), Some(first), None, None, judgeResponse)
  }

  /** The reason recorded when the judge call fails: `judge_response.get('error', 'Unknown error')`. */
  function JudgeFailedReason(error: Option<string>): string {
    "Judge failed: " + (if error.Some? then error.value else "Unknown error")
  }

  const JudgeFailedExplanation := "The judge model encountered an error. Defaulting to the first available response."
  const WeightsFailedReason := "Could not parse valid weights"
  const WeightsFailedExplanation := "Fallback to first available model due to weight parsing failure."
  const SelectionFailedReason := "Could not parse valid selection"
  const SelectionFailedExplanation := "Fallback to first available model due to selection parsing failure."

  /** The outcome of the selection branch (lines 141-166) for the judge's reply `reply`. */
  function SelectionOutcome(ok: seq<ProviderResponse>, perm: seq<nat>, reply: string, decode: Decoder): Result<Outcome, Error>
    requires |ok| > 0 && AllSucceeded(ok) && IsPermutation(perm, |ok|)
  {
    var (index, explanation) := ParseSelectedIndex(reply, decode);
    if index.None? || index.value >= |ok| then
      Ok(FallbackOutcome(ok[0], SelectionFailedReason, SelectionFailedExplanation, Some(reply)))
    else if index.value < 0 then
      Err(KeyError(index.value))
    else
      var chosen := ok[ProviderMapOf(ok, perm)[index.value].originalIndex];
      Ok(Outcome(Some(chosen.response), true, Some(Select), Some("Selected response " + NatToString(index.value + 1)),
        Some(explanation), Some(chosen), None, None, Some(reply)))
  }

  /** `_blend_text_responses(prompt, responses, weights)`: the blended text and the
      oracle call that asked for it. */
  function BlendText(judge: Judge, caps: Capabilities, prompt: string, responses: seq<ProviderResponse>, weights: seq<real>): (string, OracleCall)
    requires AllSucceeded(responses) && |responses| == |weights| && |weights| > 0
  {
    var blendPrompt := JoinLines(BlendingLines(prompt, responses, weights, caps.percent));
    var reply := caps.oracle(blendPrompt, judge.modelName);
    var call := OracleCall(blendPrompt, judge.modelName);
    if reply.Failed? then (responses[FirstMaxIndex(weights)].response, call)
    else (reply.response, call)
  }

  /** The blend outcome once the judge's reply is known to carry usable weights. */
  function BlendOutcome(judge: Judge, caps: Capabilities, prompt: string, ok: seq<ProviderResponse>, perm: seq<nat>,
                        weights: seq<real>, explanation: string, reply: string): (string, Outcome, OracleCall)
    requires |ok| > 0 && AllSucceeded(ok) && IsPermutation(perm, |ok|) && |weights| == |ok| && Sum(weights) != 0.0
  {
    var normalized := Normalized(weights);
    var originals := Deanonymized(ok, perm);
    var (blended, call) := BlendText(judge, caps, prompt, originals, normalized);
    (blended, Outcome(Some(blended), true, Some(Blend), None, Some(explanation), None, Some(normalized), Some(originals), Some(reply)), call)
  }

  /** What `evaluate` does once the judge model has answered the evaluation prompt
      with `reply` (lines 82-166): the outcome, or the exception, and the oracle
      calls made after the first one, which are at most one and ask the judge's
      own model. */
  function AfterReply(judge: Judge, caps: Capabilities, prompt: string, ok: seq<ProviderResponse>, perm: seq<nat>,
                      reply: ProviderResponse): (r: (Result<Outcome, Error>, seq<OracleCall>))
    requires |ok| > 0 && AllSucceeded(ok) && IsPermutation(perm, |ok|)
    ensures |r.1| <= 1
    ensures forall i :: 0 <= i < |r.1| ==> r.1[i].model == judge.modelName
    ensures r.0.Ok? ==> r.0.value.success
    ensures |r.1| == 1 <==>
      (reply.Succeeded? && judge.blendResponses && Sum(ParseWeights(reply.response, |ok|, caps.decode).0) != 0.0)
  {
    if reply.Failed? then
      (Ok(FallbackOutcome(ok[0], JudgeFailedReason(reply.error), JudgeFailedExplanation, None)), [])
    else if judge.blendResponses then
      var (weights, explanation) := ParseWeights(reply.response, |ok|, caps.decode);
      if Sum(weights) == 0.0 then
        (Ok(FallbackOutcome(ok[0], WeightsFailedReason, WeightsFailedExplanation, None)), [])
      else
        var (_, outcome, call) := BlendOutcome(judge, caps, prompt, ok, perm, weights, explanation, reply.response);
        (Ok(outcome), [call])
    else
      (SelectionOutcome(ok, perm, reply.response, caps.decode), [])
  }

  /** `judge.evaluate(prompt, responses)` when the shuffle of the successful
      responses yields `perm`. */
  function EvaluateSpec(judge: Judge, caps: Capabilities, prompt: string, responses: seq<ProviderResponse>, perm: seq<nat>): Evaluation
    requires IsPermutation(perm, |Successful(responses)|)
  {
    var ok := Successful(responses);
    if |ok| == 0 then Evaluation(Ok(NoResponseOutcome), [])
    else if |ok| == 1 then Evaluation(Ok(SingleOutcome(ok[0])), [])
    else
      var evalPrompt := JoinLines(EvaluationLines(prompt, Anonymized(ok, perm), judge.blendResponses));
      var reply := caps.oracle(evalPrompt, judge.modelName);
      var after := AfterReply(judge, caps, prompt, ok, perm, reply);
      Evaluation(after.0, [OracleCall(evalPrompt, judge.modelName)] + after.1)
  }

  /** `_blend_text_responses(prompt, responses, weights)`. */
  method BlendTextResponses(judge: Judge, caps: Capabilities, prompt: string, responses: seq<ProviderResponse>, weights: seq<real>)
    returns (blended: string, call: OracleCall)
    requires AllSucceeded(responses) && |responses| == |weights| && |weights| > 0
    ensures (blended, call) == BlendText(judge, caps, prompt, responses, weights)
  {
    var blendPrompt := CreateBlendingPrompt(prompt, responses, weights, caps.percent);
    var reply := caps.oracle(blendPrompt, judge.modelName);
    call := OracleCall(blendPrompt, judge.modelName);
    if reply.Failed? {
      var maxIndex := FirstMaxIndex(weights);
      blended := responses[maxIndex].response;
    } else {
      blended := reply.response;
    }
  }

  /** The loop of lines 116-121: the original records and their weights, in
      anonymized order. */
  method Deanonymize(ok: seq<ProviderResponse>, perm: seq<nat>, providerMap: map<nat, MapEntry>, normalized: seq<real>)
    returns (originalResponses: seq<ProviderResponse>, originalWeights: seq<real>)
    requires IsPermutation(perm, |ok|) && providerMap == ProviderMapOf(ok, perm) && |normalized| == |ok|
    ensures originalResponses == Deanonymized(ok, perm)
    ensures originalWeights == normalized
  {
    originalResponses := [];
    originalWeights := [];
    var anonIndex := 0;
    while anonIndex < |ok|
      invariant 0 <= anonIndex <= |ok|
      invariant originalResponses == Deanonymized(ok, perm)[..anonIndex]
      invariant originalWeights == normalized[..anonIndex]
    {
      var entry := providerMap[anonIndex];
      originalResponses := originalResponses + [ok[entry.originalIndex]];
      originalWeights := originalWeights + [normalized[anonIndex]];
      anonIndex := anonIndex + 1;
    }
    assert originalResponses == Deanonymized(ok, perm)[..anonIndex];
    assert normalized[..anonIndex] == normalized;
  }

  /** Lines 82-166 of `evaluate`, step by step: what happens once the judge model
      has answered the evaluation prompt with `reply`. */
  method HandleReply(judge: Judge, caps: Capabilities, prompt: string, ok: seq<ProviderResponse>, perm: seq<nat>,
                     providerMap: map<nat, MapEntry>, reply: ProviderResponse)
    returns (outcome: Result<Outcome, Error>, later: seq<OracleCall>)
    requires |ok| > 0 && AllSucceeded(ok) && IsPermutation(perm, |ok|) && providerMap == ProviderMapOf(ok, perm)
    ensures (outcome, later) == AfterReply(judge, caps, prompt, ok, perm, reply)
  {
    later := [];
    if reply.Failed? {
      outcome := Ok(FallbackOutcome(ok[0], JudgeFailedReason(reply.error), JudgeFailedExplanation, None));
      return;
    }
    if judge.blendResponses {
      var (weights, explanation) := ParseWeights(reply.response, |ok|, caps.decode);
      if Sum(weights) == 0.0 {
        outcome := Ok(FallbackOutcome(ok[0], WeightsFailedReason, WeightsFailedExplanation, None));
        return;
      }
      var normalized := Normalized(weights);
      var originalResponses, originalWeights := Deanonymize(ok, perm, providerMap, normalized);
      var blended, call := BlendTextResponses(judge, caps, prompt, originalResponses, originalWeights);
      outcome := Ok(Outcome(Some(blended), true, Some(Blend), None, Some(explanation), None,
        Some(originalWeights), Some(originalResponses), Some(reply.response)));
      later := [call];
    } else {
      outcome := SelectionOutcome(ok, perm, reply.response, caps.decode);
    }
  }

  /** `judge.evaluate(prompt, responses)`, step by step as the source performs it. */
  method Evaluate(judge: Judge, caps: Capabilities, prompt: string, responses: seq<ProviderResponse>, perm: seq<nat>)
    returns (outcome: Result<Outcome, Error>, calls: seq<OracleCall>)
    requires IsPermutation(perm, |Successful(responses)|)
    ensures Evaluation(outcome, calls) == EvaluateSpec(judge, caps, prompt, responses, perm)
  {
    var ok := Successful(responses);
    if |ok| == 0 {
      return Ok(NoResponseOutcome), [];
    }
    if |ok| == 1 {
      return Ok(SingleOutcome(ok[0])), [];
    }
    var anonymized, providerMap := AnonymizeResponses(ok, perm);
    var evalPrompt := CreateEvaluationPrompt(prompt, anonymized, judge.blendResponses);
    var reply := caps.oracle(evalPrompt, judge.modelName);
    var later;
    outcome, later := HandleReply(judge, caps, prompt, ok, perm, providerMap, reply);
    calls := [OracleCall(evalPrompt, judge.modelName)] + later;
  }
}

/** Properties of `Judge.evaluate` and its helpers: the decision table of the five
    outcomes, anonymization and its inverse, weight normalization, the content of
    the two prompts, and the examples the repository's tests use. */
module JudgeProperties {
  import opened Base
  import opened Text
  import opened Records
  import opened JudgeParsing
  import opened JudgeService

  /** The evaluation prompt that `evaluate` sends for the successful responses `ok`. */
  function EvaluationPromptFor(judge: Judge, prompt: string, ok: seq<ProviderResponse>, perm: seq<nat>): string
    requires AllSucceeded(ok) && IsPermutation(perm, |ok|)
  {
    JoinLines(EvaluationLines(prompt, Anonymized(ok, perm), judge.blendResponses))
  }

  /** The judge model's answer to the evaluation prompt. */
  function JudgeReply(judge: Judge, caps: Capabilities, prompt: string, ok: seq<ProviderResponse>, perm: seq<nat>): ProviderResponse
    requires AllSucceeded(ok) && IsPermutation(perm, |ok|)
  {
    caps.oracle(EvaluationPromptFor(judge, prompt, ok, perm), judge.modelName)
  }

  // ---------------------------------------------------------------------------
  // The decision table
  // ---------------------------------------------------------------------------

  /** Without a successful response the outcome is method "none", `result` None and
      `success` False, and the oracle is not called. */
  lemma NoSuccessfulResponse(judge: Judge, caps: Capabilities, prompt: string, responses: seq<ProviderResponse>, perm: seq<nat>)
    requires forall i :: 0 <= i < |responses| ==> responses[i].Failed?
    requires perm == []
    ensures IsPermutation(perm, |Successful(responses)|)
    ensures var e := EvaluateSpec(judge, caps, prompt, responses, perm);
      && e.calls == []
      && e.outcome.Ok?
      && e.outcome.value.result == None
      && !e.outcome.value.success
      && e.outcome.value.kind == Some(NoResponse)
      && e.outcome.value.reason == Some("All model responses failed")
      && e.outcome.value.explanation == Some("No successful responses were received from any model.")
  {
  }

  /** With exactly one successful response, that response is the outcome (method
      "single"), and the oracle is not called. */
  lemma OneSuccessfulResponse(judge: Judge, caps: Capabilities, prompt: string, responses: seq<ProviderResponse>, perm: seq<nat>)
    requires |Successful(responses)| == 1 && IsPermutation(perm, 1)
    ensures var e := EvaluateSpec(judge, caps, prompt, responses, perm);
      var only := Successful(responses)[0];
      && e.calls == []
      && e.outcome.Ok?
      && e.outcome.value.result == Some(only.response)
      && e.outcome.value.bestResponse == Some(only)
      && e.outcome.value.kind == Some(Single)
      && e.outcome.value.reason == Some("Only one successful response available")
      && e.outcome.value.explanation == Some("Only one successful response was available, so it was selected automatically.")
      && e.outcome.value.success
  {
  }

  /** With two or more successful responses, `evaluate` sends the evaluation prompt
      to the judge's model and goes on as `AfterReply` with the answer. */
  lemma EvaluateWithReply(judge: Judge, caps: Capabilities, prompt: string, responses: seq<ProviderResponse>, perm: seq<nat>)
    requires |Successful(responses)| >= 2 && IsPermutation(perm, |Successful(responses)|)
    ensures var ok := Successful(responses);
      var after := AfterReply(judge, caps, prompt, ok, perm, JudgeReply(judge, caps, prompt, ok, perm));
      EvaluateSpec(judge, caps, prompt, responses, perm)
        == Evaluation(after.0, [OracleCall(EvaluationPromptFor(judge, prompt, ok, perm), judge.modelName)] + after.1)
  {
  }

  /** The oracle is called exactly when at least two responses succeeded, every call
      asks the judge's own model, the first call carries the evaluation prompt, and
      there are at most two calls. */
  lemma OracleCalls(judge: Judge, caps: Capabilities, prompt: string, responses: seq<ProviderResponse>, perm: seq<nat>)
    requires IsPermutation(perm, |Successful(responses)|)
    ensures var e := EvaluateSpec(judge, caps, prompt, responses, perm);
      && (e.calls == [] <==> |Successful(responses)| <= 1)
      && |e.calls| <= 2
      && (forall i :: 0 <= i < |e.calls| ==> e.calls[i].model == judge.modelName)
      && (|e.calls| > 0 ==> e.calls[0].prompt == EvaluationPromptFor(judge, prompt, Successful(responses), perm))
  {
    var ok := Successful(responses);
    if |ok| >= 2 {
      EvaluateWithReply(judge, caps, prompt, responses, perm);
      var after := AfterReply(judge, caps, prompt, ok, perm, JudgeReply(judge, caps, prompt, ok, perm));
      var calls := [OracleCall(EvaluationPromptFor(judge, prompt, ok, perm), judge.modelName)] + after.1;
      assert EvaluateSpec(judge, caps, prompt, responses, perm).calls == calls;
      forall i | 0 <= i < |calls| ensures calls[i].model == judge.modelName {
        if i > 0 {
          assert calls[i] == after.1[i - 1];
        }
      }
    }
  }

  /** An outcome is successful exactly when some response succeeded. */
  lemma SuccessIffSomeResponse(judge: Judge, caps: Capabilities, prompt: string, responses: seq<ProviderResponse>, perm: seq<nat>)
    requires IsPermutation(perm, |Successful(responses)|)
    ensures var e := EvaluateSpec(judge, caps, prompt, responses, perm);
      e.outcome.Ok? ==> (e.outcome.value.success <==> exists i :: 0 <= i < |responses| && responses[i].Succeeded?)
  {
    SuccessfulNonEmpty(responses);
    if |Successful(responses)| >= 2 {
      EvaluateWithReply(judge, caps, prompt, responses, perm);
    }
  }

  /** When the first oracle call fails, the first successful response is the outcome,
      with method "fallback", the judge's error in the reason and no `judge_response`. */
  lemma JudgeCallFails(judge: Judge, caps: Capabilities, prompt: string, responses: seq<ProviderResponse>, perm: seq<nat>)
    requires |Successful(responses)| >= 2 && IsPermutation(perm, |Successful(responses)|)
    requires JudgeReply(judge, caps, prompt, Successful(responses), perm).Failed?
    ensures var e := EvaluateSpec(judge, caps, prompt, responses, perm);
      var first := Successful(responses)[0];
      var error := JudgeReply(judge, caps, prompt, Successful(responses), perm).error;
      && e.outcome.Ok?
      && e.outcome.value.kind == Some(Fallback)
      && e.outcome.value.result == Some(first.response)
      && e.outcome.value.bestResponse == Some(first)
      && e.outcome.value.reason == Some("Judge failed: " + (if error.Some? then error.value else "Unknown error"))
      && e.outcome.value.explanation == Some(JudgeFailedExplanation)
      && e.outcome.value.judgeResponse == None
      && e.outcome.value.success
      && |e.calls| == 1
  {
  }

  /** The selection branch for a reply `reply`: an index that is missing or too
      large falls back to the first response; a negative one raises `KeyError`; any
      other index selects the original response that the judge saw as "Response
      index+1", keeps the parsed explanation and records the reply; no further call
      is made. */
  lemma SelectionReply(judge: Judge, caps: Capabilities, prompt: string, ok: seq<ProviderResponse>, perm: seq<nat>, answer: ProviderResponse)
    requires |ok| > 0 && AllSucceeded(ok) && IsPermutation(perm, |ok|)
    requires answer.Succeeded?
    requires !judge.blendResponses
    ensures var reply := answer.response;
      var parsed := ParseSelectedIndex(reply, caps.decode);
      var after := AfterReply(judge, caps, prompt, ok, perm, answer);
      && after.1 == []
      && ((parsed.0.None? || parsed.0.value >= |ok|) ==>
            after.0 == Ok(FallbackOutcome(ok[0], "Could not parse valid selection",
              "Fallback to first available model due to selection parsing failure.", Some(reply))))
      && ((parsed.0.Some? && parsed.0.value < 0) ==> after.0 == Err(KeyError(parsed.0.value)))
      && ((parsed.0.Some? && 0 <= parsed.0.value < |ok|) ==>
            var index := parsed.0.value;
            var chosen := ok[ProviderMapOf(ok, perm)[index].originalIndex];
            && after.0.Ok?
            && after.0.value.kind == Some(Select)
            && after.0.value.bestResponse == Some(chosen)
            && after.0.value.result == Some(Anonymized(ok, perm)[index].response)
            && after.0.value.reason == Some("Selected response " + NatToString(index + 1))
            && after.0.value.explanation == Some(parsed.1)
            && after.0.value.judgeResponse == Some(reply)
            && after.0.value.success)
  {
  }

  /** The selection branch of `evaluate`, as `SelectionReply` states it for the
      judge's actual reply, with the evaluation call as the only call. */
  lemma SelectionMapping(judge: Judge, caps: Capabilities, prompt: string, responses: seq<ProviderResponse>, perm: seq<nat>)
    requires |Successful(responses)| >= 2 && IsPermutation(perm, |Successful(responses)|)
    requires !judge.blendResponses
    requires JudgeReply(judge, caps, prompt, Successful(responses), perm).Succeeded?
    ensures var ok := Successful(responses);
      var reply := JudgeReply(judge, caps, prompt, ok, perm).response;
      var parsed := ParseSelectedIndex(reply, caps.decode);
      var e := EvaluateSpec(judge, caps, prompt, responses, perm);
      && |e.calls| == 1
      && ((parsed.0.None? || parsed.0.value >= |ok|) ==>
            e.outcome == Ok(FallbackOutcome(ok[0], "Could not parse valid selection",
              "Fallback to first available model due to selection parsing failure.", Some(reply))))
      && ((parsed.0.Some? && parsed.0.value < 0) ==> e.outcome == Err(KeyError(parsed.0.value)))
      && ((parsed.0.Some? && 0 <= parsed.0.value < |ok|) ==>
            e.outcome.Ok? && e.outcome.value.kind == Some(Select)
            && e.outcome.value.bestResponse == Some(ok[ProviderMapOf(ok, perm)[parsed.0.value].originalIndex]))
  {
    var ok := Successful(responses);
    EvaluateWithReply(judge, caps, prompt, responses, perm);
    SelectionReply(judge, caps, prompt, ok, perm, JudgeReply(judge, caps, prompt, ok, perm));
  }

  /** Parsed weights that add up to zero fall back to the first response, with no
      `judge_response` and no second oracle call. */
  lemma WeightsSumToZero(judge: Judge, caps: Capabilities, prompt: string, responses: seq<ProviderResponse>, perm: seq<nat>)
    requires |Successful(responses)| >= 2 && IsPermutation(perm, |Successful(responses)|)
    requires judge.blendResponses
    requires JudgeReply(judge, caps, prompt, Successful(responses), perm).Succeeded?
    requires Sum(ParseWeights(JudgeReply(judge, caps, prompt, Successful(responses), perm).response, |Successful(responses)|, caps.decode).0) == 0.0
    ensures var e := EvaluateSpec(judge, caps, prompt, responses, perm);
      var first := Successful(responses)[0];
      && e.outcome == Ok(FallbackOutcome(first, "Could not parse valid weights",
           "Fallback to first available model due to weight parsing failure.", None))
      && |e.calls| == 1
  {
  }

  /** Dividing every weight by `total` divides their sum by `total`. */
  lemma {:induction false} SumScaled(w: seq<real>, total: real)
    requires total != 0.0
    ensures Sum(Scaled(w, total)) == Sum(w) / total
  {
    if |w| > 0 {
      var init := w[..|w| - 1];
      assert Scaled(w, total)[..|w| - 1] == Scaled(init, total);
      SumScaled(init, total);
      assert Sum(init) / total + w[|w| - 1] / total == (Sum(init) + w[|w| - 1]) / total;
    }
  }

  /** Normalized weights add up to one. */
  lemma NormalizedSumIsOne(w: seq<real>)
    requires Sum(w) != 0.0
    ensures Sum(Normalized(w)) == 1.0
  {
    SumScaled(w, Sum(w));
    assert Normalized(w) == Scaled(w, Sum(w));
    assert Sum(w) / Sum(w) == 1.0;
  }

  /** The blend branch for a reply `reply` whose parsed weights do not add up to
      zero: the outcome holds the normalized weights, which add up to one, and the
      original responses, both in anonymized order, so weight `i` belongs to the
      response the judge saw as "Response i+1"; the one further oracle call carries
      the blending prompt over those responses and weights; the result is the
      blending reply or, when that call fails, the text of the first response with
      the largest weight. */
  lemma BlendReply(judge: Judge, caps: Capabilities, prompt: string, ok: seq<ProviderResponse>, perm: seq<nat>, answer: ProviderResponse)
    requires |ok| > 0 && AllSucceeded(ok) && IsPermutation(perm, |ok|)
    requires answer.Succeeded?
    requires judge.blendResponses
    requires Sum(ParseWeights(answer.response, |ok|, caps.decode).0) != 0.0
    ensures var reply := answer.response;
      var parsed := ParseWeights(reply, |ok|, caps.decode);
      var normalized := Normalized(parsed.0);
      var originals := Deanonymized(ok, perm);
      var blendPrompt := JoinLines(BlendingLines(prompt, originals, normalized, caps.percent));
      var blendReply := caps.oracle(blendPrompt, judge.modelName);
      var after := AfterReply(judge, caps, prompt, ok, perm, answer);
      && after.0.Ok?
      && after.0.value.kind == Some(Blend)
      && after.0.value.success
      && after.0.value.weights == Some(normalized)
      && Sum(normalized) == 1.0
      && after.0.value.responses == Some(originals)
      && |originals| == |normalized| == |ok|
      && (forall i :: 0 <= i < |ok| ==> originals[i].response == Anonymized(ok, perm)[i].response)
      && after.0.value.explanation == Some(parsed.1)
      && after.0.value.judgeResponse == Some(reply)
      && after.0.value.reason == None && after.0.value.bestResponse == None
      && after.1 == [OracleCall(blendPrompt, judge.modelName)]
      && (blendReply.Succeeded? ==> after.0.value.result == Some(blendReply.response))
      && (blendReply.Failed? ==> after.0.value.result == Some(originals[FirstMaxIndex(normalized)].response))
  {
    NormalizedSumIsOne(ParseWeights(answer.response, |ok|, caps.decode).0);
  }

  /** The blend branch of `evaluate`, as `BlendReply` states it for the judge's
      actual reply: two oracle calls, the evaluation prompt and then the blending
      prompt, and the normalized weights in the outcome. */
  lemma BlendOutcomeAligned(judge: Judge, caps: Capabilities, prompt: string, responses: seq<ProviderResponse>, perm: seq<nat>)
    requires |Successful(responses)| >= 2 && IsPermutation(perm, |Successful(responses)|)
    requires judge.blendResponses
    requires JudgeReply(judge, caps, prompt, Successful(responses), perm).Succeeded?
    requires Sum(ParseWeights(JudgeReply(judge, caps, prompt, Successful(responses), perm).response, |Successful(responses)|, caps.decode).0) != 0.0
    ensures var ok := Successful(responses);
      var reply := JudgeReply(judge, caps, prompt, ok, perm).response;
      var normalized := Normalized(ParseWeights(reply, |ok|, caps.decode).0);
      var originals := Deanonymized(ok, perm);
      var e := EvaluateSpec(judge, caps, prompt, responses, perm);
      && e.outcome.Ok?
      && e.outcome.value.kind == Some(Blend)
      && e.outcome.value.weights == Some(normalized)
      && e.outcome.value.responses == Some(originals)
      && e.outcome.value.judgeResponse == Some(reply)
      && e.calls == [OracleCall(EvaluationPromptFor(judge, prompt, ok, perm), judge.modelName),
                     OracleCall(JoinLines(BlendingLines(prompt, originals, normalized, caps.percent)), judge.modelName)]
  {
    var ok := Successful(responses);
    EvaluateWithReply(judge, caps, prompt, responses, perm);
    BlendReply(judge, caps, prompt, ok, perm, JudgeReply(judge, caps, prompt, ok, perm));
  }

  /** When the blending call fails, the result is the text of a response with the
      largest weight, and of the first one among equals. */
  lemma BlendFailureTakesFirstHeaviest(responses: seq<ProviderResponse>, weights: seq<real>, judge: Judge, caps: Capabilities, prompt: string)
    requires AllSucceeded(responses) && |responses| == |weights| && |weights| > 0
    requires caps.oracle(JoinLines(BlendingLines(prompt, responses, weights, caps.percent)), judge.modelName).Failed?
    ensures exists k :: (0 <= k < |weights|
      && BlendText(judge, caps, prompt, responses, weights).0 == responses[k].response
      && (forall j :: 0 <= j < |weights| ==> weights[j] <= weights[k])
      && (forall j :: 0 <= j < k ==> weights[j] < weights[k]))
  {
    var k := FirstMaxIndex(weights);
    assert BlendText(judge, caps, prompt, responses, weights).0 == responses[k].response;
  }

  // ---------------------------------------------------------------------------
  // Anonymization
  // ---------------------------------------------------------------------------

  lemma PseudonymInjective(kind: string, i: nat, j: nat)
    requires Pseudonym(kind, i) == Pseudonym(kind, j)
    ensures i == j
  {
    var p := kind + " ";
    assert Pseudonym(kind, i)[|p|..] == NatToString(i + 1);
    assert Pseudonym(kind, j)[|p|..] == NatToString(j + 1);
    NatToStringInjective(i + 1, j + 1);
  }

  /** Position `i` of the anonymized list is "Provider i+1" / "Model i+1", and no two
      positions share a pseudonym. */
  lemma PseudonymsDistinct(ok: seq<ProviderResponse>, perm: seq<nat>, i: nat, j: nat)
    requires AllSucceeded(ok) && IsPermutation(perm, |ok|)
    requires i < |ok| && j < |ok| && i != j
    ensures Anonymized(ok, perm)[i].provider == "Provider " + NatToString(i + 1)
    ensures Anonymized(ok, perm)[i].model == "Model " + NatToString(i + 1)
    ensures Anonymized(ok, perm)[i].provider != Anonymized(ok, perm)[j].provider
    ensures Anonymized(ok, perm)[i].model != Anonymized(ok, perm)[j].model
  {
    if Pseudonym("Provider", i) == Pseudonym("Provider", j) {
      PseudonymInjective("Provider", i, j);
    }
    if Pseudonym("Model", i) == Pseudonym("Model", j) {
      PseudonymInjective("Model", i, j);
    }
  }

  /** The provider map inverts the shuffle: every original index is the image of
      exactly one anonymized index, whose entry records the original provider and
      model and whose anonymized record carries the original text. */
  lemma ProviderMapInvertsShuffle(ok: seq<ProviderResponse>, perm: seq<nat>, k: nat)
    requires AllSucceeded(ok) && IsPermutation(perm, |ok|) && k < |ok|
    ensures exists i :: 0 <= i < |ok| && ProviderMapOf(ok, perm)[i].originalIndex == k
    ensures forall i, j ::
      (0 <= i < |ok| && 0 <= j < |ok| && ProviderMapOf(ok, perm)[i].originalIndex == k
        && ProviderMapOf(ok, perm)[j].originalIndex == k) ==> i == j
    ensures forall i :: 0 <= i < |ok| && ProviderMapOf(ok, perm)[i].originalIndex == k ==>
      && ProviderMapOf(ok, perm)[i].provider == ok[k].provider
      && ProviderMapOf(ok, perm)[i].model == ok[k].model
      && Anonymized(ok, perm)[i].response == ok[k].response
  {
    PermutationOnto(perm, |ok|);
    assert Identity(|ok|)[k] == k;
    assert k in Values(perm);
    var i :| 0 <= i < |perm| && perm[i] == k;
    assert ProviderMapOf(ok, perm)[i].originalIndex == k;
  }

  /** With the shuffle reversed (the repository's test), the provider map starts with
      "Google Gemini" and the anonymized list starts with "Provider 1" / "Model 1". */
  lemma ReversedShuffleExample(ok: seq<ProviderResponse>, perm: seq<nat>)
    requires ok == [Succeeded("OpenAI", "gpt-4", "Response from OpenAI model"),
                    Succeeded("Anthropic", "claude-3-opus", "Response from Anthropic model"),
                    Succeeded("Google Gemini", "gemini-pro", "Response from Google Gemini model")]
    requires perm == [2, 1, 0]
    ensures IsPermutation(perm, |ok|)
    ensures |Anonymized(ok, perm)| == 3
    ensures Anonymized(ok, perm)[0].provider == "Provider 1" && Anonymized(ok, perm)[0].model == "Model 1"
    ensures ProviderMapOf(ok, perm)[0].provider == "Google Gemini"
    ensures ProviderMapOf(ok, perm)[1].provider == "Anthropic"
    ensures ProviderMapOf(ok, perm)[2].provider == "OpenAI"
  {
    assert NatToString(1) == "1";
  }

  // ---------------------------------------------------------------------------
  // Prompts
  // ---------------------------------------------------------------------------

  /** A part that is `pre + sub + post` puts `sub` into the joined text. */
  lemma PartContains(lines: seq<string>, k: nat, pre: string, sub: string, post: string)
    requires k < |lines| && lines[k] == pre + sub + post
    ensures Contains(JoinLines(lines), sub)
  {
    JoinLinesContains(lines, k);
    ContainsMiddle(pre, sub, post);
    ContainsTransitive(JoinLines(lines), lines[k], sub);
  }

  /** Part `k + 4` of the evaluation prompt is the section of response `k`. */
  lemma EvaluationLineOfResponse(prompt: string, responses: seq<ProviderResponse>, blendMode: bool, k: nat)
    requires AllSucceeded(responses) && k < |responses|
    ensures |EvaluationLines(prompt, responses, blendMode)| > 4 + k
    ensures EvaluationLines(prompt, responses, blendMode)[4 + k] == EvaluationSection(responses, k)
  {
    var head := EvaluationPreamble + [OriginalPromptLine(prompt), "Model responses:"];
    assert |head| == 4;
    assert EvaluationLines(prompt, responses, blendMode)
      == head + (EvaluationSections(responses) + EvaluationTrailer(blendMode));
  }

  /** The evaluation prompt contains "Original prompt: " followed by the prompt and the
      "Model responses:" line. */
  lemma EvaluationPromptHasPrompt(prompt: string, responses: seq<ProviderResponse>, blendMode: bool)
    requires AllSucceeded(responses)
    ensures Contains(JoinLines(EvaluationLines(prompt, responses, blendMode)), "Original prompt: " + prompt)
    ensures Contains(JoinLines(EvaluationLines(prompt, responses, blendMode)), "Model responses:")
  {
    var lines := EvaluationLines(prompt, responses, blendMode);
    PartContains(lines, 2, "", "Original prompt: " + prompt, "\n");
    PartContains(lines, 3, "", "Model responses:", "");
  }

  /** Response `k` of the list (numbered `k + 1`) appears in the evaluation prompt
      under the heading "Response k+1: provider (model)", as part `k + 4`, so the
      headings follow the list order. */
  lemma EvaluationPromptHeading(prompt: string, responses: seq<ProviderResponse>, blendMode: bool, k: nat)
    requires AllSucceeded(responses) && k < |responses|
    ensures EvaluationLines(prompt, responses, blendMode)[4 + k] == EvaluationSection(responses, k)
    ensures Contains(JoinLines(EvaluationLines(prompt, responses, blendMode)),
      EvaluationHeading(k + 1, responses[k].provider, responses[k].model))
  {
    var lines := EvaluationLines(prompt, responses, blendMode);
    EvaluationLineOfResponse(prompt, responses, blendMode, k);
    PartContains(lines, 4 + k, "", EvaluationHeading(k + 1, responses[k].provider, responses[k].model),
      responses[k].response + "\n");
  }

  /** The evaluation prompt ends with the weights format in blend mode and with the
      selection format otherwise. */
  lemma EvaluationPromptEnding(prompt: string, responses: seq<ProviderResponse>, blendMode: bool)
    requires AllSucceeded(responses)
    ensures blendMode ==> EndsWith(JoinLines(EvaluationLines(prompt, responses, blendMode)), JoinLines(WeightsFormat))
    ensures !blendMode ==> EndsWith(JoinLines(EvaluationLines(prompt, responses, blendMode)), JoinLines(SelectionFormat))
  {
    var head := EvaluationPreamble + [OriginalPromptLine(prompt), "Model responses:"]
      + EvaluationSections(responses) + [CriteriaHeading] + Criteria + [Impartiality];
    assert EvaluationLines(prompt, responses, blendMode) == head + ResponseFormat(blendMode);
    JoinLinesEndsWith(head, ResponseFormat(blendMode));
  }

  /** Part `k + 10` of the blending prompt is the section of response `k`. */
  lemma BlendingLineOfResponse(prompt: string, responses: seq<ProviderResponse>, weights: seq<real>, percent: PercentFormat, k: nat)
    requires AllSucceeded(responses) && k < |responses| && k < |weights|
    ensures |BlendingLines(prompt, responses, weights, percent)| > 10 + k
    ensures BlendingLines(prompt, responses, weights, percent)[10 + k] == BlendingSection(responses, weights, percent, k)
  {
    var head := [BlendingPreamble, OriginalPromptLine(prompt)] + BlendingInstructions;
    assert |head| == 10;
    assert BlendingLines(prompt, responses, weights, percent)
      == head + (BlendingSections(responses, weights, percent) + [BlendingClosing]);
  }

  /** The blending prompt contains "Original prompt: " followed by the prompt. */
  lemma BlendingPromptHasPrompt(prompt: string, responses: seq<ProviderResponse>, weights: seq<real>, percent: PercentFormat)
    requires AllSucceeded(responses)
    ensures Contains(JoinLines(BlendingLines(prompt, responses, weights, percent)), "Original prompt: " + prompt)
  {
    PartContains(BlendingLines(prompt, responses, weights, percent), 1, "", "Original prompt: " + prompt, "\n");
  }

  /** Every response that has a weight appears in the blending prompt under a heading
      with its number, its TRUE provider and model, and the label of its weight. */
  lemma BlendingPromptHeading(prompt: string, responses: seq<ProviderResponse>, weights: seq<real>, percent: PercentFormat, k: nat)
    requires AllSucceeded(responses) && k < |responses| && k < |weights|
    ensures Contains(JoinLines(BlendingLines(prompt, responses, weights, percent)),
      BlendingHeading(k + 1, responses[k].provider, responses[k].model, percent(weights[k] * 100.0)))
  {
    BlendingLineOfResponse(prompt, responses, weights, percent, k);
    PartContains(BlendingLines(prompt, responses, weights, percent), 10 + k, "",
      BlendingHeading(k + 1, responses[k].provider, responses[k].model, percent(weights[k] * 100.0)),
      responses[k].response + "\n");
  }

  // ---------------------------------------------------------------------------
  // Construction
  // ---------------------------------------------------------------------------

  /** Without arguments and environment the judge is openai / o3-2025-04-16; the
      environment supplies both when the arguments do not; an explicit argument
      wins over the environment; any provider but "openai" is refused. */
  lemma JudgeConstruction(env: map<string, string>, provider: string, model: string, blend: bool)
    requires provider != "" && model != ""
    ensures NewJudge(None, None, blend, map[]) == Ok(Judge("openai", "o3-2025-04-16", blend))
    ensures NewJudge(None, None, blend, map["JUDGE_MODEL_PROVIDER" := "openai", "JUDGE_MODEL" := model])
      == Ok(Judge("openai", model, blend))
    ensures NewJudge(Some("openai"), Some(model), blend, env) == Ok(Judge("openai", model, blend))
    ensures provider != "openai" ==> NewJudge(Some(provider), None, blend, env) == Err("Unsupported judge model provider: " + provider)
    ensures provider != "openai" ==>
      NewJudge(None, None, blend, map["JUDGE_MODEL_PROVIDER" := provider]) == Err("Unsupported judge model provider: " + provider)
  {
  }
}

# multi_ai: the judge and aggregation protocol, modelled in Dafny

`multi_ai` sends one prompt to several AI providers (OpenAI, Anthropic, Google
Gemini) and merges their answers into a single result. This project models the
core of that merge and proves properties of it:

- **The judge** (`multi_ai/services/judge.py`). `evaluate` drops the failed
  responses. With no response left it returns outcome "none"; with one, that
  response ("single"). With more, it anonymizes the responses under a shuffle
  and asks a judge model to pick one ("select") or to weight them ("blend").
  Its two reply parsers read the judge's text through a chain of fallbacks.
  When the judge model fails or its reply cannot be used, the first response
  is returned ("fallback").
- **The comparator** (`multi_ai/services/comparator.py`). It resolves the
  model configuration and launches one query per known provider. It turns an
  adapter's exception into a failure record, keeps the successful records in
  launch order, and returns either a fixed failure record or the judge's
  outcome unchanged.
- **The helpers** (`multi_ai/utils/helpers.py`). `format_response` projects an
  outcome dictionary for the front ends. `load_env_file` copies the
  assignments of a `.env` file into the process environment.

Modules, one per file:

- `Base`: `Option` and `Result`.
- `Text`: the parts of Python's `str` and `int()` the core relies on.
- `Records`: provider records, outcomes and decoded JSON.
- `JudgeParsing`: the two reply parsers.
- `JudgeService`: the judge's construction, anonymization, prompts and `evaluate`.
- `JudgeProperties` and `ParsingProperties`: lemmas about the judge and its parsers.
- `ComparatorService`: `compare` and `_query_with_fallback`, with their lemmas.
- `Helpers`: `format_response` and `load_env_file`, with their lemmas.

The code that updates state step by step is modelled as methods with loops:

- anonymizing the responses;
- building the two prompts;
- de-anonymizing the weights;
- planning the queries and processing their results in `compare`;
- the `.env` loop, as a method of the `Environment` class, which stands for `os.environ`.

Each method is proved equal to a specification function. The lemmas are stated
over those functions.

Capabilities the code receives from outside are parameters of the model:

- the judge model's `query`, a function from (prompt, model) to a provider
  record; `evaluate` returns the trace of its calls;
- `json.loads` of a brace span, a function that returns an optional object
  with optional `explanation`, `selection` and `weights` fields;
- the shuffle, a permutation passed in (with a precondition that it is one);
- the provider adapters, a function from (provider, prompt, model) to a
  record or a raised message;
- the results of `asyncio.gather`, one per launched query in launch order;
- the `f"{w*100:.1f}%"` formatting, a function from `real` to `string`;
- the environment variables the judge reads, a map;
- whether the `.env` file exists, and its lines.

Where the code and its documentation disagree, the model follows the code:

- A selection of `0` or a negative number yields index `-1` or less. The
  dictionary lookup `provider_map[best_idx]` then raises `KeyError`, because
  the guard only checks `best_idx >= len(...)`. `SelectionOutcome` returns
  `Err(KeyError(idx))` in that case instead of falling back.
- A partial `model_configs` queries only the providers it names; the defaults
  are used only when no configuration is given at all.
- The blending prompt lists each response with its true provider and model,
  not the pseudonyms used for evaluation.
- `format_response(data, True)` keeps a key of `data` named `"details"` inside
  the new `details`. Only `result` and `success` are kept out of it.
- The `not weights` test of `evaluate` can never fire: the weights always
  have one entry per response, and there are at least two responses there.

## Model

| member | source | states |
|---|---|---|
| Text.Strip | multi_ai/services/judge.py:295 | `str.strip()` with Python's whitespace set: the result neither starts nor ends with whitespace, and a text that does not is unchanged |
| Text.StripIsSlice | multi_ai/services/judge.py:295 | the stripped text is a contiguous slice of the original |
| Text.StripPadded | multi_ai/utils/helpers.py:12 | stripping removes exactly the surrounding whitespace of a line |
| Text.StripAllSpace | multi_ai/utils/helpers.py:12-14 | a line made only of whitespace strips to the empty string |
| Text.RemoveQuotes | multi_ai/services/judge.py:295 | removing `'` and `"` leaves no quote, adds no character, and changes nothing in a text without quotes |
| Text.RemoveQuotesAppend | multi_ai/services/judge.py:295 | removing quotes works piece by piece over a concatenation |
| Text.RemoveSurroundingQuotes | multi_ai/services/judge.py:295 | a quoted text without inner quotes loses exactly its two quotes |
| Text.ParseIntOfDecimal | multi_ai/services/judge.py:299 | `int()` of a decimal numeral is the number it denotes |
| Text.ParseIntNeedsDigit | multi_ai/services/judge.py:299-301 | `int()` succeeds only on a text with a digit |
| Text.NatToStringInjective | multi_ai/services/judge.py:188-189 | distinct numbers get distinct numerals, so the pseudonyms "Provider i+1" differ |
| Text.JoinLinesAppend | multi_ai/services/judge.py:264 | `"\n".join` of two lists is the two joins around one newline |
| Text.JoinLinesContains | multi_ai/services/judge.py:264 | every part of a joined prompt occurs in it |
| Text.JoinLinesEndsWith | multi_ai/services/judge.py:264 | a joined prompt starts with the join of its first parts and ends with the join of its last parts |
| Records.Successful | multi_ai/services/judge.py:48 | the filter keeps exactly the success records, in order; it keeps everything when all succeeded and nothing when all failed |
| Records.SuccessfulNonEmpty | multi_ai/services/judge.py:48-50 | some response survives the filter exactly when some response succeeded |
| Records.SuccessfulAppend | multi_ai/services/comparator.py:81-83 | the filter distributes over concatenation, so order is preserved |
| JudgeParsing.BraceMatchFrom | multi_ai/services/judge.py:277 | the match of `\{.*\}` starts at the leftmost `{` that has a `}` later on its line, and ends at the last `}` of that line |
| JudgeParsing.BraceSpan | multi_ai/services/judge.py:277-279 | the span starts with `{`, ends with `}`, holds no newline, and is absent exactly when no `{` has a `}` after it on the same line |
| JudgeParsing.NoOpenBraceNoSpan | multi_ai/services/judge.py:277-278 | a reply without `{` has no span |
| JudgeParsing.SpanAfterPlainPrefix | multi_ai/services/judge.py:277-279 | a one-line object after text without `{` is the span |
| JudgeParsing.StandaloneNumberNeedsDigit | multi_ai/services/judge.py:303 | `\b(\d+)\b` matches only in a text with a digit |
| JudgeParsing.StandaloneNumberAtFirstDigit | multi_ai/services/judge.py:303-305 | the match is the first digit run that has no word character on either side |
| JudgeParsing.NumericTokens | multi_ai/services/judge.py:343 | every token of `re.findall(r"[\d.]+")` is a non-empty run of digits and dots; `TokensAfterGap` and `TokenBeforeGap` pin them as the maximal runs |
| JudgeParsing.TokensCoverNumberChars | multi_ai/services/judge.py:343 | the tokens, concatenated, are exactly the digits and dots of the text, in order |
| JudgeParsing.NoNumberCharsNoTokens | multi_ai/services/judge.py:343-344 | a text without digits or dots has no token |
| JudgeParsing.TokensAfterGap | multi_ai/services/judge.py:343 | characters that are neither digits nor dots yield no token and are skipped |
| JudgeParsing.TokenBeforeGap | multi_ai/services/judge.py:343 | a run of digits and dots not followed by another digit or dot is one whole token, and the tokens of the rest follow it |
| JudgeParsing.ParseNumberTokenOfDecimal | multi_ai/services/judge.py:345 | `float()` of a decimal numeral is its value |
| JudgeParsing.TokenWeights | multi_ai/services/judge.py:344-345 | the weights are the tokens' values in order, and conversion fails only when some token is not a float |
| JudgeParsing.FallbackIndex | multi_ai/services/judge.py:297-307 | the non-JSON stages give an index only for a cleaned text with a digit |
| JudgeParsing.FallbackStages | multi_ai/services/judge.py:297-307 | `int()` of the whole cleaned text wins, minus one; otherwise the first standalone digit run, minus one; otherwise no index |
| JudgeParsing.ParseSelectedIndex | multi_ai/services/judge.py:266-307 | the JSON stage's index wins when there is one, and otherwise the index is that of the non-JSON stages on the cleaned reply; the explanation is the one the JSON stage leaves, whatever stage supplies the index |
| JudgeParsing.WeightsFromJson | multi_ai/services/judge.py:323-338 | the JSON stage returns weights only as a list of exactly `n` numbers |
| JudgeParsing.ParseWeights | multi_ai/services/judge.py:309-355 | one weight per response; the JSON stage's weights win when it yields them; the explanation is the JSON stage's |
| ParsingProperties.CleanedCharsFromText | multi_ai/services/judge.py:295 | every character of the cleaned reply comes from the reply |
| ParsingProperties.HasDigitOfCleaned | multi_ai/services/judge.py:295 | a digit of the cleaned reply is a digit of the reply |
| ParsingProperties.IndexNeedsJsonOrDigit | multi_ai/services/judge.py:266-307 | a reply with no digit and no usable JSON selection gives no index |
| ParsingProperties.JsonSelectionWins | multi_ai/services/judge.py:277-289 | a decoded integer `selection` gives that number minus one, with the JSON explanation |
| ParsingProperties.SelectionJsonKeepsDefault | multi_ai/services/judge.py:272-284 | without a string `explanation` in the JSON (missing, or any other value) the default explanation stays |
| ParsingProperties.DefaultSelectionExplanationKept | multi_ai/services/judge.py:272-307 | without a string `explanation` in the JSON (missing, or any other value), the default selection explanation survives every later stage |
| ParsingProperties.DefaultWeightsExplanationKept | multi_ai/services/judge.py:318-355 | without a string `explanation` in the JSON (missing, or any other value), the default weights explanation survives every later stage |
| ParsingProperties.NoBraceSelection | multi_ai/services/judge.py:293-307 | without `{` the index comes from the cleaned reply alone |
| ParsingProperties.JsonFailureWeights | multi_ai/services/judge.py:336-355 | when the JSON stage yields no weights, they are the numbers of the reply if there are exactly `n` and all convert, and uniform otherwise |
| ParsingProperties.NoBraceWeights | multi_ai/services/judge.py:341-355 | without `{` the weights come from the numbers in the reply, or are uniform |
| ParsingProperties.DecimalFallback | multi_ai/services/judge.py:297-300 | a reply that is a numeral selects that number minus one |
| ParsingProperties.CleanedPlain | multi_ai/services/judge.py:295 | a reply without quotes or surrounding whitespace is its own cleaned text |
| ParsingProperties.SelectDirectNumber | tests/unit/services/test_judge.py:130 | `"2"` selects index 1 |
| ParsingProperties.SelectQuotedNumber | tests/unit/services/test_judge.py:138 | `"'1'"` selects index 0 |
| ParsingProperties.DigitAfterWords | multi_ai/services/judge.py:303-305 | a digit between a word-free text ending in a non-word character and a tail starting with one is the standalone number |
| ParsingProperties.SelectNumberInSentence | tests/unit/services/test_judge.py:133-135 | `"The best response is 3."` selects index 2, through the digit-run stage |
| ParsingProperties.NotAnInteger | multi_ai/services/judge.py:299-301 | a text starting with a letter is not an integer |
| ParsingProperties.SelectNothing | tests/unit/services/test_judge.py:141 | `"None of them are good"` selects nothing |
| ParsingProperties.JsonIntegerWeights | multi_ai/services/judge.py:333-338 | a decoded list of `n` integers is taken as the weights, in order |
| ParsingProperties.JsonNumericWeights | multi_ai/services/judge.py:323-338 | a decoded list of `n` numbers is taken as the weights, in order, floats unchanged, with the JSON explanation |
| ParsingProperties.ThreeIntegerWeights | multi_ai/services/judge.py:323-338 | a span that decodes to a list of three integers gives those three weights, in order |
| ParsingProperties.WeightsFromObject | tests/unit/services/test_judge.py:145-147 | `{"weights": [8, 5, 2]}` gives `[8, 5, 2]` |
| ParsingProperties.WholeObjectSpan | multi_ai/services/judge.py:277 | a one-line object is its own span |
| ParsingProperties.WeightsFromEmbeddedObject | tests/unit/services/test_judge.py:149-151 | `Here are my weights: {"weights": [9, 4, 7]}` gives `[9, 4, 7]` |
| ParsingProperties.TokensOfSpacedDigits | multi_ai/services/judge.py:343 | three digits separated by single spaces are three one-digit tokens, in order |
| ParsingProperties.WeightsFromPlainNumbers | tests/unit/services/test_judge.py:153-155 | `"7 6 3"` gives `[7.0, 6.0, 3.0]` |
| ParsingProperties.WeightsDefaultUniform | tests/unit/services/test_judge.py:158-164 | `"I can't decide"` gives three weights of one third |
| ParsingProperties.JsonStageFailureFallsThrough | multi_ai/services/judge.py:336-355 | when the JSON stage yields no weights, the weights are those of a reply with no usable JSON |
| ParsingProperties.WrongLengthJsonIgnored | multi_ai/services/judge.py:336-340 | a JSON list of the wrong length is ignored, but its explanation is kept |
| JudgeService.OrElse | multi_ai/services/judge.py:27-32 | `a or b` on strings: `a` when it is a non-empty string, `b` otherwise |
| JudgeService.EnvGet | multi_ai/services/judge.py:27-32 | `os.environ.get(key, default)` |
| JudgeService.NewJudge | multi_ai/services/judge.py:13-39 | a constructed judge is an openai judge with the chosen model and blend flag |
| JudgeService.PermutationOnto | multi_ai/services/judge.py:176-177 | a shuffle of `range(n)` takes every index exactly once |
| JudgeService.Anonymized | multi_ai/services/judge.py:184-193 | one anonymized success record per response (their names and texts are stated by `PseudonymsDistinct` and `ProviderMapInvertsShuffle`) |
| JudgeService.ProviderMapOf | multi_ai/services/judge.py:182-194 | the map has exactly the keys `0..n-1`, and key `i` holds `perm[i]` and the true provider and model |
| JudgeService.AnonymizeResponses | multi_ai/services/judge.py:168-196 | the loop builds exactly the anonymized list and the provider map |
| JudgeService.Deanonymized | multi_ai/services/judge.py:116-121 | entry `i` is the response the provider map names for anonymized index `i` |
| JudgeService.CreateEvaluationPrompt | multi_ai/services/judge.py:198-264 | the appended parts, joined with newlines, are the evaluation prompt |
| JudgeService.CreateBlendingPrompt | multi_ai/services/judge.py:378-416 | the appended parts, joined with newlines, are the blending prompt, with one section per (response, weight) pair |
| JudgeService.Scaled | multi_ai/services/judge.py:113 | one weight per weight, each of which times the total gives back the original |
| JudgeService.Normalized | multi_ai/services/judge.py:112-113 | normalization keeps one weight per response (their sum is stated by `NormalizedSumIsOne`) |
| JudgeService.FirstMaxIndex | multi_ai/services/judge.py:372 | `weights.index(max(weights))`: a largest weight, with no larger weight anywhere and no equal weight before it |
| JudgeService.BlendTextResponses | multi_ai/services/judge.py:357-376 | the blend call returns the reply, or on failure the text at the first largest weight |
| JudgeService.Deanonymize | multi_ai/services/judge.py:115-121 | the loop yields the de-anonymized responses and the normalized weights in anonymized order |
| JudgeService.AfterReply | multi_ai/services/judge.py:82-166 | after the judge's reply at most one more oracle call is made, with the judge's model, and it is made exactly when blending with weights of non-zero sum; every outcome reports success |
| JudgeService.HandleReply | multi_ai/services/judge.py:82-166 | the code after the judge's reply, step by step, yields the outcome and later calls `AfterReply` states |
| JudgeService.Evaluate | multi_ai/services/judge.py:41-166 | `evaluate`, step by step, returns the outcome and oracle calls of the decision table `EvaluateSpec` |
| JudgeProperties.NoSuccessfulResponse | multi_ai/services/judge.py:48-57 | with no success the outcome is "none", `result` None, `success` False, with its reason and explanation, and the oracle is not called |
| JudgeProperties.OneSuccessfulResponse | multi_ai/services/judge.py:59-67 | with one success the outcome is "single" with that response, its reason and explanation, and the oracle is not called |
| JudgeProperties.EvaluateWithReply | multi_ai/services/judge.py:69-166 | with two or more successes, `evaluate` sends the evaluation prompt first and then does what `AfterReply` states for the reply |
| JudgeProperties.OracleCalls | multi_ai/services/judge.py:69-80 | the oracle is called exactly when two or more responses succeeded, at most twice, always with the judge's model |
| JudgeProperties.SuccessIffSomeResponse | multi_ai/services/judge.py:48-166 | an outcome reports success exactly when some response succeeded |
| JudgeProperties.JudgeCallFails | multi_ai/services/judge.py:82-91 | a failed judge call falls back to the first response, with the error (or "Unknown error") in the reason, the fixed explanation and no `judge_response` |
| JudgeProperties.SelectionReply | multi_ai/services/judge.py:139-166 | given a reply: no index or one too large falls back; a negative index raises `KeyError`; otherwise the response the map names is selected, with reason "Selected response i+1", the parser's explanation and the reply recorded, and no further call |
| JudgeProperties.SelectionMapping | multi_ai/services/judge.py:139-166 | in `evaluate`, selection makes one oracle call; no index or one too large falls back, a negative index raises `KeyError`, otherwise the response the map names is selected |
| JudgeProperties.WeightsSumToZero | multi_ai/services/judge.py:100-109 | weights summing to zero fall back to the first response, with no `judge_response` and no second call |
| JudgeProperties.SumScaled | multi_ai/services/judge.py:112-113 | dividing every weight by the total divides the sum by the total |
| JudgeProperties.NormalizedSumIsOne | multi_ai/services/judge.py:111-113 | normalized weights add up to one |
| JudgeProperties.BlendReply | multi_ai/services/judge.py:111-138 | given a reply with weights of non-zero sum: a blend whose weights are normalized and add up to one, whose `responses[i]` is the response behind anonymized index `i`, with one blending call whose reply, or on failure the heaviest response, is the result |
| JudgeProperties.BlendOutcomeAligned | multi_ai/services/judge.py:111-138 | in `evaluate`, a blend has the normalized weights in anonymized order, the responses behind them, the reply recorded, and exactly the evaluation call and the blending call |
| JudgeProperties.BlendFailureTakesFirstHeaviest | multi_ai/services/judge.py:370-373 | a failed blend call yields the text of the first response with the largest weight |
| JudgeProperties.PseudonymInjective | multi_ai/services/judge.py:188-189 | distinct positions get distinct pseudonyms |
| JudgeProperties.PseudonymsDistinct | multi_ai/services/judge.py:184-193 | no two anonymized entries share a provider or model name |
| JudgeProperties.ProviderMapInvertsShuffle | multi_ai/services/judge.py:184-194 | every original index is named by exactly one map entry, which carries its provider, model and text |
| JudgeProperties.ReversedShuffleExample | tests/unit/services/test_judge.py:79-95 | with the shuffle reversed, map entry 0 is "Google Gemini" and entry 0 of the list is "Provider 1" |
| JudgeProperties.EvaluationLineOfResponse | multi_ai/services/judge.py:212-219 | the part after the four opening lines for response `k` is its section |
| JudgeProperties.EvaluationPromptHasPrompt | multi_ai/services/judge.py:205-210 | the evaluation prompt contains "Original prompt: " followed by the prompt |
| JudgeProperties.EvaluationPromptHeading | multi_ai/services/judge.py:212-219 | the prompt has the heading "--- Response k+1: provider (model) ---" for each response, in list order |
| JudgeProperties.EvaluationPromptEnding | multi_ai/services/judge.py:237-264 | the prompt ends with the weights format in blend mode and the selection format otherwise |
| JudgeProperties.BlendingLineOfResponse | multi_ai/services/judge.py:401-408 | the part after the ten opening lines for response `k` is its section |
| JudgeProperties.BlendingPromptHasPrompt | multi_ai/services/judge.py:388-390 | the blending prompt contains "Original prompt: " followed by the prompt |
| JudgeProperties.BlendingPromptHeading | multi_ai/services/judge.py:401-408 | each weighted response appears under its number, true provider, model and weight label |
| JudgeProperties.JudgeConstruction | multi_ai/services/judge.py:27-39 | the defaults are openai / o3-2025-04-16, arguments win over the environment, and any other provider, given as an argument or in the environment, is refused |
| ComparatorService.NewComparator | multi_ai/services/comparator.py:17-29 | the comparator's judge has the blend flag it was given, and the judge's construction error escapes |
| ComparatorService.ResolveConfigs | multi_ai/services/comparator.py:48-53 | without a configuration the three defaults are used; a given one is used unchanged |
| ComparatorService.Planned | multi_ai/services/comparator.py:59-63 | launches at most one query per item, each for a known provider, with the caller's prompt |
| ComparatorService.PlannedMembers | multi_ai/services/comparator.py:59-63 | a query is launched exactly when its provider is known and the configuration lists it with that model |
| ComparatorService.PlanQueries | multi_ai/services/comparator.py:55-63 | the configuration loop creates exactly the planned queries |
| ComparatorService.PlannedAppend | multi_ai/services/comparator.py:59-63 | queries follow the configuration's iteration order |
| ComparatorService.UnknownProviderSkipped | multi_ai/services/comparator.py:60 | an unknown key launches nothing, wherever it stands |
| ComparatorService.KnownConfigsAllLaunched | multi_ai/services/comparator.py:59-63 | a configuration of known providers is launched item by item |
| ComparatorService.DefaultConfigsQueried | tests/unit/services/test_comparator.py:163-167 | without a configuration, exactly openai, anthropic and gemini are queried, once each, with their default models |
| ComparatorService.CustomConfigsQueried | tests/unit/services/test_comparator.py:219-225 | a two-provider configuration queries only those two, with its models |
| ComparatorService.QueryWithFallback | multi_ai/services/comparator.py:100-113 | the adapter's record is returned unchanged; when the adapter raises, the result is a failure naming the configured key and model, with "Query failed: " followed by the message |
| ComparatorService.QuerySucceedsIffAdapterSucceeds | multi_ai/services/comparator.py:100-113 | a query succeeds exactly when the adapter returns a success record |
| ComparatorService.Gather | multi_ai/services/comparator.py:66 | one result per launched query, none of them an exception |
| ComparatorService.Processed | multi_ai/services/comparator.py:69-78 | keeps at most one record per result and none when all are exceptions |
| ComparatorService.ProcessedMembers | multi_ai/services/comparator.py:69-78 | processing keeps every returned record and nothing else |
| ComparatorService.ProcessedAppend | multi_ai/services/comparator.py:69-78 | processing keeps the launch order |
| ComparatorService.ProcessResponses | multi_ai/services/comparator.py:68-78 | the processing loop yields exactly the processed records |
| ComparatorService.GatherProcessed | multi_ai/services/comparator.py:61-78 | with no exception, the processed records are the fallback queries' records, one per query in launch order |
| ComparatorService.JudgeInput | multi_ai/services/comparator.py:80-83 | what the judge receives is already filtered: filtering it again changes nothing |
| ComparatorService.JudgeInputMembers | multi_ai/services/comparator.py:80-83 | the judge gets exactly the successful records of the results that did not raise |
| ComparatorService.Compare | multi_ai/services/comparator.py:31-98 | `compare`, step by step, launches and returns what `CompareSpec` states |
| ComparatorService.CompareOutcome | multi_ai/services/comparator.py:88-98 | with no success the fixed failure record is returned and the judge is not called; otherwise the judge's outcome and calls are passed through |
| ComparatorService.CompareSucceedsIffSomeSuccess | multi_ai/services/comparator.py:80-98 | `compare` reports success exactly when some result was a success record |
| ComparatorService.AllAdaptersRaise | tests/unit/services/test_comparator.py:233-246 | when every adapter raises, the result is "All models failed to respond. Please try again." with success False, and the judge is not called |
| Helpers.Get | multi_ai/utils/helpers.py:24-25 | `dict.get(key, default)` |
| Helpers.Details | multi_ai/utils/helpers.py:32-35 | exactly the keys other than `result` and `success`, with their values |
| Helpers.FormatResponse | multi_ai/utils/helpers.py:19-36 | the simple form has exactly `result` (default "") and `success` (default False); the detailed form adds `details`, holding every other key of the data unchanged |
| Helpers.DetailedRoundTrip | multi_ai/utils/helpers.py:28-36 | putting `result` and `success` back into `details` rebuilds the data |
| Helpers.SimpleIsDetailedWithoutDetails | multi_ai/utils/helpers.py:21-36 | the simple form is the detailed form without `details` |
| Helpers.DetailsExcludeTopLevelKeys | multi_ai/utils/helpers.py:32-35 | `result` and `success` never reach `details`, but a key named `details` does |
| Helpers.EmptyDataFormatted | tests/unit/utils/test_helpers.py:105-115 | `{}` formats to `result` "", `success` False and empty `details` |
| Helpers.SimpleResponseFormatted | tests/unit/utils/test_helpers.py:65-79 | the simple form of the four-key example keeps only `result` and `success` |
| Helpers.DetailsOfTopLevelAdded | multi_ai/utils/helpers.py:32-35 | adding `result` and `success` to a dictionary without them leaves its `details` equal to that dictionary |
| Helpers.DetailedExampleSplit | tests/unit/utils/test_helpers.py:81-103 | `details` of the six-key example holds `best_response`, `method`, `judge_response` and `weights` |
| Helpers.DetailedResponseFormatted | tests/unit/utils/test_helpers.py:81-103 | the detailed form of the six-key example keeps `result` and `success` and moves `best_response`, `method`, `judge_response` and `weights` under `details`, unchanged |
| Helpers.FirstIndexOf | multi_ai/utils/helpers.py:16 | the position of the first `=`, absent exactly when there is none |
| Helpers.FirstIndexAfterPrefix | multi_ai/utils/helpers.py:16 | the first `=` is the one after a key without `=` |
| Helpers.ClassifyStripped | multi_ai/utils/helpers.py:13-16 | a blank or `#` line is skipped; a line without `=` raises; otherwise key and value are the text before and after the first `=` |
| Helpers.SplitAssignment | multi_ai/utils/helpers.py:16 | `key=value` splits into exactly that key and value |
| Helpers.LoadEnv | multi_ai/utils/helpers.py:7-8 | a missing file changes nothing and raises nothing |
| Helpers.Environment.constructor | multi_ai/utils/helpers.py:17 | an environment starts with the given variables |
| Helpers.Environment.LoadEnvFile | multi_ai/utils/helpers.py:5-17 | the loop leaves the environment and the raise flag that `LoadEnv` states |
| Helpers.ApplyAppend | multi_ai/utils/helpers.py:11-17 | reading continues from where the earlier lines left the environment, unless they raised |
| Helpers.ApplyFirstLine | multi_ai/utils/helpers.py:11-17 | a skipped line leaves the environment unchanged; an assignment updates one key |
| Helpers.LastAssignmentWins | multi_ai/utils/helpers.py:16-17 | a later assignment overrides an earlier one for the same key |
| Helpers.UnassignedKeyUnchanged | multi_ai/utils/helpers.py:11-17 | a key no line assigns keeps its value, or stays absent |
| Helpers.FirstMalformedLineRaises | multi_ai/utils/helpers.py:16 | the first line without `=` raises, after the assignments before it took effect |
| Helpers.WellFormedDoesNotRaise | multi_ai/utils/helpers.py:11-17 | lines that all have `=` or are skipped never raise |
| Helpers.RaisedHasMalformedLine | multi_ai/utils/helpers.py:16 | a load that raised had a line without `=` |
| Helpers.CommentSkipped | multi_ai/utils/helpers.py:12-14 | an indented `#` line is skipped |
| Helpers.BlankSkipped | multi_ai/utils/helpers.py:12-14 | a whitespace-only line is skipped |
| Helpers.IndentedBlankSkipped | multi_ai/utils/helpers.py:12-14 | an indented empty line is skipped |
| Helpers.KeyLineAssigns | multi_ai/utils/helpers.py:12-17 | an indented `key=value` line assigns that value, inner spaces included |
| Helpers.ExampleLinesApplied | multi_ai/utils/helpers.py:11-17 | eight lines that skip, assign KEY1, KEY2, skip and assign KEY3 give those three variables |
| Helpers.ExampleAssignment | tests/unit/utils/test_helpers.py:24-31 | each assignment line of the example file assigns its key and value |
| Helpers.ExampleEnvFileLoaded | tests/unit/utils/test_helpers.py:22-41 | the repository's example file sets KEY1, KEY2 and KEY3 ("value with spaces") and raises nothing |

## Left out

- Provider adapters and the judge model: the SDK calls in `multi_ai/models/` are parameters returning provider records (or a raised message, for the adapters).
- Determinism: every call of the judge model with the same prompt and model gets the same reply; a real model need not behave this way.
- Concurrency: `asyncio.gather` is not modelled; its results are an input sequence in launch order.
- Randomness: `random.shuffle` is not modelled; the permutation it yields is a parameter.
- JSON: `json.loads` is a parameter, so malformed JSON is a decoder that returns nothing.
- Lexing: `int()` is limited to an optional sign and ASCII digits, and `float()` to digits and dots. Python's underscores, exponents, `inf` and `nan` are not covered.
- Regular expressions: `\d` and `\w` are ASCII only, whereas Python also matches other Unicode digits and letters.
- Floating point: weights are exact `real` numbers; IEEE rounding of sums and quotients is not modelled.
- Percent formatting: `f"{w*100:.1f}%"` is a parameter.
- Logging: the `print` calls of `compare` are not modelled.
- Bare `except`: the `except: pass` around each parser stage catches only the failures the model already returns as `None`. Errors such as `MemoryError` are not modelled.
- Exceptions outside `Exception`: `evaluate` and `compare` let other exceptions escape, and the model does not represent them. Nor does it represent a gathered non-`Exception` result reaching `r.get`.
- Failure records with `None`: a record whose `error` key holds `None` is treated like one without the key.
- `os.environ` validity: the checks on empty names and NUL characters are not modelled.
- File reading: how the `.env` file splits into lines is not modelled; the lines are an input.
- Other I/O: `save_to_file` and `create_default_env_file` only write files and are not part of this model.
- Front ends: `multi_ai/api.py`, `multi_ai/cli.py` and `app.py` are not part of this model.
- Stale prompt tests: `tests/unit/services/test_judge.py:110` and `:125` expect prompt text that the code never emits. That text is not modelled.
- Bare-value parser tests: `tests/unit/services/test_judge.py:130-164` compare the parsers' tuples to bare values. The lemmas state the first component.
- JudgeParsing.ParseWeights: its own contract states the length, the explanation and that the JSON weights win; the stages after a failed JSON stage are stated by `ParsingProperties.JsonFailureWeights`.
- ComparatorService.Compare: `gathered` is any sequence of results of the right length, so it is not tied to the adapters. `GatherProcessed` and `AllAdaptersRaise` state what happens when it is the gather of the fallback queries.

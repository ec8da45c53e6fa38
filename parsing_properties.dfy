/** Properties of the judge's reply parsers: where an index can come from, what a
    well-formed JSON reply yields, and the examples the repository's tests use. */
module ParsingProperties {
  import opened Base
  import opened Text
  import opened Records
  import opened JudgeParsing

  /** Every character of the cleaned text is a character of the reply. */
  lemma CleanedCharsFromText(text: string, i: nat)
    requires i < |Cleaned(text)|
    ensures Cleaned(text)[i] in text
  {
    var offset := StripIsSlice(text);
    var stripped := Strip(text);
    assert Cleaned(text)[i] in stripped;
    var j :| 0 <= j < |stripped| && stripped[j] == Cleaned(text)[i];
    assert text[offset + j] == stripped[j];
  }

  lemma HasDigitOfCleaned(text: string)
    requires HasDigit(Cleaned(text))
    ensures HasDigit(text)
  {
    var i :| 0 <= i < |Cleaned(text)| && IsDigit(Cleaned(text)[i]);
    CleanedCharsFromText(text, i);
    var j :| 0 <= j < |text| && text[j] == Cleaned(text)[i];
    assert IsDigit(text[j]);
  }

  /** An index that does not come from the JSON stage comes from a digit of the reply:
      a reply without digits and without a usable JSON selection gives `None`. */
  lemma IndexNeedsJsonOrDigit(text: string, decode: Decoder)
    requires ParseSelectedIndex(text, decode).0.Some?
    ensures SelectionFromJson(text, decode).0.Some? || HasDigit(text)
  {
    if SelectionFromJson(text, decode).0.None? {
      HasDigitOfCleaned(text);
    }
  }

  /** A reply whose brace span decodes to an object with an integer `selection` gives
      that selection minus one, and the object's string `explanation`. */
  lemma JsonSelectionWins(text: string, decode: Decoder, span: string, selection: int, explanation: string, weights: Option<JsonValue>)
    requires BraceSpan(text) == Some(span)
    requires decode(span) == Some(JsonObject(Some(JString(explanation)), Some(JInt(selection)), weights))
    ensures ParseSelectedIndex(text, decode) == (Some(selection - 1), explanation)
  {
    assert SelectionFromJson(text, decode) == (Some(selection - 1), explanation);
  }

  /** The reply carries no string `explanation`: nothing decodes, or the decoded
      object's `explanation` is missing or not a string. */
  predicate NoStringExplanation(text: string, decode: Decoder) {
    BraceSpan(text).Some? && decode(BraceSpan(text).value).Some? ==>
      var e := decode(BraceSpan(text).value).value.explanation;
      !(e.Some? && e.value.JString?)
  }

  lemma SelectionJsonKeepsDefault(text: string, decode: Decoder)
    requires NoStringExplanation(text, decode)
    ensures SelectionFromJson(text, decode).1 == DefaultSelectionExplanation
  {
  }

  /** When the decoded object has no string `explanation` (or nothing decodes), the
      default explanation stays, whatever stage supplies the index. */
  lemma DefaultSelectionExplanationKept(text: string, decode: Decoder)
    requires NoStringExplanation(text, decode)
    ensures ParseSelectedIndex(text, decode).1 == DefaultSelectionExplanation
  {
    SelectionJsonKeepsDefault(text, decode);
  }

  lemma DefaultWeightsExplanationKept(text: string, n: nat, decode: Decoder)
    requires n > 0
    requires NoStringExplanation(text, decode)
    ensures ParseWeights(text, n, decode).1 == DefaultWeightsExplanation
  {
  }

  /** Without a `{` the index comes from the cleaned reply alone. */
  lemma NoBraceSelection(text: string, decode: Decoder)
    requires forall k :: 0 <= k < |text| ==> text[k] != '{'
    ensures ParseSelectedIndex(text, decode).0 == FallbackIndex(Cleaned(text))
  {
    NoOpenBraceNoSpan(text);
  }

  /** When the JSON stage yields no weights, they come from the numbers in the
      reply when there are exactly `n` and all convert, and are uniform otherwise. */
  lemma JsonFailureWeights(text: string, n: nat, decode: Decoder)
    requires n > 0
    requires WeightsFromJson(text, n, decode).0.None?
    ensures ParseWeights(text, n, decode).0 ==
      if |NumericTokens(text)| == n && TokenWeights(NumericTokens(text)).Some? then TokenWeights(NumericTokens(text)).value
      else Uniform(n)
  {
  }

  /** Without a `{` the weights come from the numbers in the reply, or are uniform. */
  lemma NoBraceWeights(text: string, n: nat, decode: Decoder)
    requires n > 0
    requires forall k :: 0 <= k < |text| ==> text[k] != '{'
    ensures ParseWeights(text, n, decode).0 ==
      if |NumericTokens(text)| == n && TokenWeights(NumericTokens(text)).Some? then TokenWeights(NumericTokens(text)).value
      else Uniform(n)
  {
    NoOpenBraceNoSpan(text);
    JsonFailureWeights(text, n, decode);
  }

  /** A decimal numeral selects the number it denotes, minus one. */
  lemma DecimalFallback(n: nat, text: string)
    requires text == NatToString(n)
    ensures FallbackIndex(text) == Some(n - 1)
  {
    ParseIntOfDecimal(n);
  }

  /** A text without quotes and without surrounding whitespace is its own cleaned text. */
  lemma CleanedPlain(text: string)
    requires |text| > 0 ==> !IsSpace(text[0]) && !IsSpace(text[|text| - 1])
    requires forall k :: 0 <= k < |text| ==> text[k] != '\'' && text[k] != '"'
    ensures Cleaned(text) == text
  {
  }

  /** `_parse_selected_index("2")` selects index 1. */
  lemma SelectDirectNumber(text: string, decode: Decoder)
    requires text == "2"
    ensures ParseSelectedIndex(text, decode).0 == Some(1)
  {
    NoBraceIn(text);
    NoBraceSelection(text, decode);
    DirectNumberFallback(text);
  }

  /** The example replies contain no `{`. */
  lemma NoBraceIn(text: string)
    requires text in {"2", "'1'", "The best response is 3.", "None of them are good"}
    ensures forall k :: 0 <= k < |text| ==> text[k] != '{'
  {
  }

  lemma DirectNumberFallback(text: string)
    requires text == "2"
    ensures FallbackIndex(Cleaned(text)) == Some(1)
  {
    CleanedPlain(text);
    DecimalDigit(2, text);
    DecimalFallback(2, text);
  }

  /** The numeral of a digit is that digit's character. */
  lemma DecimalDigit(n: nat, text: string)
    requires n < 10 && text == [DigitChar(n)]
    ensures NatToString(n) == text
  {
  }

  lemma CleanedQuotedOne(text: string)
    requires text == "'1'"
    ensures Cleaned(text) == "1"
  {
    assert Strip(text) == text;
    assert text == ['\''] + "1" + ['\''];
    RemoveSurroundingQuotes('\'', "1");
  }

  /** `_parse_selected_index("'1'")` selects index 0. */
  lemma SelectQuotedNumber(text: string, decode: Decoder)
    requires text == "'1'"
    ensures ParseSelectedIndex(text, decode).0 == Some(0)
  {
    NoBraceIn(text);
    NoBraceSelection(text, decode);
    QuotedNumberFallback(text);
  }

  lemma QuotedNumberFallback(text: string)
    requires text == "'1'"
    ensures FallbackIndex(Cleaned(text)) == Some(0)
  {
    CleanedQuotedOne(text);
    DecimalDigit(1, "1");
    DecimalFallback(1, "1");
  }

  /** A text whose first character is neither a sign nor a digit, nor whitespace, is
      not an integer. */
  lemma NotAnInteger(text: string)
    requires |text| > 0 && !IsSpace(text[0]) && !IsSpace(text[|text| - 1])
    requires !IsDigit(text[0]) && text[0] != '-' && text[0] != '+'
    ensures ParseInt(text).None?
  {
  }

  /** A lone digit after a text without digits that ends in a non-word character,
      and before a non-word character, is the first standalone number. */
  lemma DigitAfterWords(words: string, d: char, tail: string)
    requires |words| > 0 && !IsWordChar(words[|words| - 1])
    requires forall k :: 0 <= k < |words| ==> !IsDigit(words[k])
    requires IsDigit(d)
    requires |tail| > 0 && !IsWordChar(tail[0])
    ensures StandaloneNumber(words + [d] + tail) == Some(DigitValue(d))
  {
    var s := words + [d] + tail;
    var p := |words|;
    assert s[p] == d && s[p - 1] == words[p - 1] && s[p + 1] == tail[0];
    assert DigitRunEnd(s, p + 1) == p + 1;
    assert DigitRunEnd(s, p) == p + 1;
    assert StandaloneRunAt(s, p);
    forall k | 0 <= k < p ensures !IsDigit(s[k]) {
      assert s[k] == words[k];
    }
    StandaloneNumberAtFirstDigit(s, p);
    assert s[p..p + 1] == [d];
    assert DigitsValue([d]) == DigitValue(d) by {
      assert [d][..0] == "";
    }
  }

  lemma SentenceFallback(text: string)
    requires text == "The best response is 3."
    ensures FallbackIndex(text) == Some(2)
  {
    NotAnInteger(text);
    var words := "The best response is ";
    assert text == words + ['3'] + ".";
    DigitAfterWords(words, '3', ".");
  }

  lemma SentenceCleaned(text: string)
    requires text == "The best response is 3."
    ensures Cleaned(text) == text
  {
    CleanedPlain(text);
  }

  /** `_parse_selected_index("The best response is 3.")` selects index 2. */
  lemma SelectNumberInSentence(text: string, decode: Decoder)
    requires text == "The best response is 3."
    ensures ParseSelectedIndex(text, decode).0 == Some(2)
  {
    NoBraceIn(text);
    NoBraceSelection(text, decode);
    SentenceCleaned(text);
    SentenceFallback(text);
  }

  lemma NoDigitsFallback(text: string)
    requires |text| > 0 ==> !IsSpace(text[0]) && !IsSpace(text[|text| - 1])
    requires forall k :: 0 <= k < |text| ==> !IsDigit(text[k]) && text[k] != '\'' && text[k] != '"'
    ensures FallbackIndex(Cleaned(text)) == None
  {
    CleanedPlain(text);
    assert !HasDigit(Cleaned(text));
  }

  /** `_parse_selected_index("None of them are good")` selects nothing. */
  lemma SelectNothing(text: string, decode: Decoder)
    requires text == "None of them are good"
    ensures ParseSelectedIndex(text, decode).0 == None
  {
    NoBraceIn(text);
    NoBraceSelection(text, decode);
    NothingFallback(text);
  }

  lemma NothingFallback(text: string)
    requires text == "None of them are good"
    ensures FallbackIndex(Cleaned(text)) == None
  {
    NoDigitsFallback(text);
  }

  /** A JSON list of `n` integers is taken as the weights, in order. */
  lemma JsonIntegerWeights(text: string, n: nat, decode: Decoder, span: string, items: seq<int>, explanation: Option<JsonValue>, selection: Option<JsonValue>)
    requires n > 0 && |items| == n
    requires BraceSpan(text) == Some(span)
    requires decode(span) == Some(JsonObject(explanation, selection, Some(JArray(seq(|items|, i requires 0 <= i < |items| => JInt(items[i]))))))
    ensures forall i :: 0 <= i < n ==> ParseWeights(text, n, decode).0[i] == items[i] as real
  {
  }

  /** A JSON list of `n` numbers is taken as the weights, in order, as the numbers
      they are: floats unchanged, integers and booleans as reals. */
  lemma JsonNumericWeights(text: string, n: nat, decode: Decoder, span: string, obj: JsonObject, items: seq<JsonValue>)
    requires n > 0 && |items| == n
    requires BraceSpan(text) == Some(span) && decode(span) == Some(obj) && obj.weights == Some(JArray(items))
    requires forall i :: 0 <= i < n ==> NumericWeight(items[i]).Some?
    ensures forall i :: 0 <= i < n ==> ParseWeights(text, n, decode).0[i] == NumericWeight(items[i]).value
    ensures forall i, f :: 0 <= i < n && items[i] == JFloat(f) ==> ParseWeights(text, n, decode).0[i] == f
    ensures ParseWeights(text, n, decode).1 == JsonExplanation(obj, DefaultWeightsExplanation)
  {
  }

  /** A decoded object whose `weights` are three integers gives those three, in order. */
  lemma ThreeIntegerWeights(text: string, decode: Decoder, span: string, a: int, b: int, c: int)
    requires BraceSpan(text) == Some(span)
    requires decode(span) == Some(JsonObject(None, None, Some(JArray([JInt(a), JInt(b), JInt(c)]))))
    ensures ParseWeights(text, 3, decode).0 == [a as real, b as real, c as real]
  {
    var items := [JInt(a), JInt(b), JInt(c)];
    assert forall i :: 0 <= i < |items| ==> NumericWeight(items[i]).Some?;
    var w := seq(|items|, i requires 0 <= i < |items| => NumericWeight(items[i]).value);
    assert w == [a as real, b as real, c as real];
    assert WeightsFromJson(text, 3, decode).0 == Some(w);
  }

  /** `_parse_weights('{"weights": [8, 5, 2]}', 3)` is `[8, 5, 2]`. */
  lemma WeightsFromObject(text: string, decode: Decoder)
    requires text == "{\"weights\": [8, 5, 2]}"
    requires decode(text) == Some(JsonObject(None, None, Some(JArray([JInt(8), JInt(5), JInt(2)]))))
    ensures ParseWeights(text, 3, decode).0 == [8.0, 5.0, 2.0]
  {
    WholeObjectSpan(text);
    ThreeIntegerWeights(text, decode, text, 8, 5, 2);
  }

  /** A one-line object is its own brace span. */
  lemma WholeObjectSpan(text: string)
    requires |text| >= 2 && text[0] == '{' && text[|text| - 1] == '}'
    requires forall k :: 0 <= k < |text| ==> text[k] != '\n'
    ensures BraceSpan(text) == Some(text)
  {
    SpanAfterPlainPrefix("", text);
    assert "" + text == text;
  }

  /** `_parse_weights('Here are my weights: {"weights": [9, 4, 7]}', 3)` is `[9, 4, 7]`:
      the reply is the sentence `prefix` followed by the object `obj`. */
  lemma WeightsFromEmbeddedObject(prefix: string, obj: string, decode: Decoder)
    requires prefix == "Here are my weights: "
    requires obj == "{\"weights\": [9, 4, 7]}"
    requires decode(obj) == Some(JsonObject(None, None, Some(JArray([JInt(9), JInt(4), JInt(7)]))))
    ensures ParseWeights(prefix + obj, 3, decode).0 == [9.0, 4.0, 7.0]
  {
    SpanAfterPlainPrefix(prefix, obj);
    ThreeIntegerWeights(prefix + obj, decode, obj, 9, 4, 7);
  }

  /** Three digits separated by single spaces are three tokens of one digit each. */
  lemma TokensOfSpacedDigits(a: char, b: char, c: char)
    requires IsDigit(a) && IsDigit(b) && IsDigit(c)
    ensures NumericTokens([a, ' ', b, ' ', c]) == [[a], [b], [c]]
  {
    var text := [a, ' ', b, ' ', c];
    assert NumericTokens(text[4..]) == [[c]] by {
      assert NumberRunEnd(text[4..], 0) == 1;
      assert text[4..][..1] == [c];
      assert text[4..][1..] == "";
    }
    assert NumericTokens(text[2..]) == [[b], [c]] by {
      assert NumberRunEnd(text[2..], 0) == 1;
      assert text[2..][..1] == [b];
      assert text[2..][1..][1..] == text[4..];
    }
    assert NumberRunEnd(text, 0) == 1;
    assert text[..1] == [a];
    assert text[1..][1..] == text[2..];
  }

  /** `_parse_weights("7 6 3", 3)` is `[7.0, 6.0, 3.0]`. */
  lemma WeightsFromPlainNumbers(text: string, decode: Decoder)
    requires text == "7 6 3"
    ensures ParseWeights(text, 3, decode).0 == [7.0, 6.0, 3.0]
  {
    NoBraceWeights(text, 3, decode);
    assert text == ['7', ' ', '6', ' ', '3'];
    TokensOfSpacedDigits('7', '6', '3');
    assert NatToString(7) == "7" && NatToString(6) == "6" && NatToString(3) == "3";
    ParseNumberTokenOfDecimal(7);
    ParseNumberTokenOfDecimal(6);
    ParseNumberTokenOfDecimal(3);
  }

  /** `_parse_weights("I can't decide", 3)` is three equal weights of one third. */
  lemma WeightsDefaultUniform(text: string, decode: Decoder)
    requires text == "I can't decide"
    ensures ParseWeights(text, 3, decode).0 == [1.0 / 3.0, 1.0 / 3.0, 1.0 / 3.0]
  {
    NoBraceWeights(text, 3, decode);
    NoNumberCharsNoTokens(text);
  }

  /** A decoder that never yields an object: the reply carries no usable JSON. */
  const NoJson: Decoder := _ => None

  /** A JSON stage that yields no weights leaves the weights exactly as they are
      for a reply with no usable JSON. */
  lemma JsonStageFailureFallsThrough(text: string, n: nat, decode: Decoder)
    requires n > 0
    requires WeightsFromJson(text, n, decode).0.None?
    ensures ParseWeights(text, n, decode).0 == ParseWeights(text, n, NoJson).0
  {
    assert WeightsFromJson(text, n, NoJson).0.None?;
  }

  /** A JSON `weights` list of the wrong length is ignored; its explanation is
      kept. */
  lemma WrongLengthJsonIgnored(text: string, n: nat, decode: Decoder, span: string, obj: JsonObject, items: seq<JsonValue>)
    requires n > 0 && |items| != n
    requires BraceSpan(text) == Some(span) && decode(span) == Some(obj) && obj.weights == Some(JArray(items))
    ensures ParseWeights(text, n, decode).0 == ParseWeights(text, n, NoJson).0
    ensures ParseWeights(text, n, decode).1 == JsonExplanation(obj, DefaultWeightsExplanation)
  {
    JsonStageFailureFallsThrough(text, n, decode);
  }
}

/** The pure parsing half of `Judge` (multi_ai/services/judge.py): reading a
    selection index or a weight vector out of the oracle's free-text reply.
    The regular expressions the source uses are written out as functions whose
    contracts say what the regular expression matches; `json.loads` is the
    `Decoder` parameter. */
module JudgeParsing {
  import opened Base
  import opened Text
  import opened Records

  /** `json.loads` applied to the brace span: the decoded object, or `None` when
      decoding raises. */
  type Decoder = string -> Option<JsonObject>

  /** The explanation `_parse_selected_index` starts from. */
  const DefaultSelectionExplanation := "Selected based on overall quality assessment."

  /** The explanation `_parse_weights` starts from. */
  const DefaultWeightsExplanation := "Weights assigned based on quality assessment across multiple criteria."

  // ---------------------------------------------------------------------------
  // re.search(r"\{.*\}", text): `.` does not match a newline, `.*` is greedy.
  // ---------------------------------------------------------------------------

  /** No newline in `s[i..j]`, so `.*` can match all of it. */
  predicate OnOneLine(s: string, i: nat, j: nat)
    requires i <= j <= |s|
  {
    forall k :: i <= k < j ==> s[k] != '\n'
  }

  /** `s[p..q + 1]` is a match of `\{.*\}`. */
  predicate BracePair(s: string, p: nat, q: nat) {
    p < q < |s| && s[p] == '{' && s[q] == '}' && OnOneLine(s, p, q)
  }

  /** Index of the first newline at or after `p`, or `|s|`. */
  function LineEnd(s: string, p: nat): (e: nat)
    requires p <= |s|
    ensures p <= e <= |s| && OnOneLine(s, p, e)
    ensures e < |s| ==> s[e] == '\n'
    decreases |s| - p
  {
    if p == |s| || s[p] == '\n' then p else LineEnd(s, p + 1)
  }

  /** Index of the last `}` in `s[lo..hi]`. */
  function LastCloseBefore(s: string, lo: nat, hi: nat): (r: Option<nat>)
    requires lo <= hi <= |s|
    ensures r.Some? ==> lo <= r.value < hi && s[r.value] == '}'
    ensures r.Some? ==> forall k :: r.value < k < hi ==> s[k] != '}'
    ensures r.None? ==> forall k :: lo <= k < hi ==> s[k] != '}'
    decreases hi - lo
  {
    if hi == lo then None
    else if s[hi - 1] == '}' then Some(hi - 1)
    else LastCloseBefore(s, lo, hi - 1)
  }

  /** The match of `\{.*\}` that a search starting at `p` finds, as the indices
      of its first and last characters: the leftmost `{` that has a `}` after it
      on its line, paired with the last `}` of that line. */
  function BraceMatchFrom(s: string, p: nat): (r: Option<(nat, nat)>)
    requires p <= |s|
    ensures r.Some? ==> p <= r.value.0 && BracePair(s, r.value.0, r.value.1)
    ensures r.Some? ==> forall k :: r.value.1 < k < |s| && s[k] == '}' ==> !OnOneLine(s, r.value.0, k)
    ensures forall a, b :: p <= a && (r.None? || a < r.value.0) ==> !BracePair(s, a, b)
    decreases |s| - p
  {
    if p == |s| then None
    else if s[p] == '{' then
      var e := LineEnd(s, p + 1);
      match LastCloseBefore(s, p + 1, e)
      case Some(q) =>
        assert OnOneLine(s, p, q);
        // A later `}` lies at or after the line end, so a newline separates it.
        assert forall k :: q < k < |s| && s[k] == '}' ==> !OnOneLine(s, p, k) by {
          forall k | q < k < |s| && s[k] == '}' ensures !OnOneLine(s, p, k) {
            assert e <= k && s[e] == '\n';
          }
        }
        Some((p, q))
      case None =>
        assert forall b :: !BracePair(s, p, b) by {
          forall b | p < b < |s| && s[b] == '}' ensures !OnOneLine(s, p, b) {
            assert e <= b && s[e] == '\n';
          }
        }
        BraceMatchFrom(s, p + 1)
    else BraceMatchFrom(s, p + 1)
  }

  /** `re.search(r"\{.*\}", s).group(0)`, or `None` when there is no match. */
  function BraceSpan(s: string): (r: Option<string>)
    ensures r.Some? ==> |r.value| >= 2 && r.value[0] == '{' && r.value[|r.value| - 1] == '}'
    ensures r.Some? ==> forall k :: 0 <= k < |r.value| ==> r.value[k] != '\n'
    ensures r.None? <==> forall a, b :: !BracePair(s, a, b)
  {
    match BraceMatchFrom(s, 0)
    case None => None
    case Some((p, q)) => Some(s[p..q + 1])
  }

  /** A text without `{` has no brace span. */
  lemma NoOpenBraceNoSpan(s: string)
    requires forall k :: 0 <= k < |s| ==> s[k] != '{'
    ensures BraceSpan(s) == None
  {
  }

  /** After a prefix without `{`, a one-line object that starts with `{` and ends
      with `}` is the brace span. */
  lemma SpanAfterPlainPrefix(prefix: string, obj: string)
    requires forall k :: 0 <= k < |prefix| ==> prefix[k] != '{'
    requires |obj| >= 2 && obj[0] == '{' && obj[|obj| - 1] == '}'
    requires forall k :: 0 <= k < |obj| ==> obj[k] != '\n'
    ensures BraceSpan(prefix + obj) == Some(obj)
  {
    var s := prefix + obj;
    assert OnOneLine(s, |prefix|, |s| - 1);
    assert BracePair(s, |prefix|, |s| - 1);
    var m := BraceMatchFrom(s, 0);
    assert m.Some?;
    var (p, q) := m.value;
    assert p == |prefix|;
    assert q == |s| - 1;
    assert s[p..q + 1] == obj;
  }

  // ---------------------------------------------------------------------------
  // re.search(r"\b(\d+)\b", text)
  // ---------------------------------------------------------------------------

  /** Characters matched by `\w` (ASCII letters, digits and underscore). */
  predicate IsWordChar(c: char) {
    ('a' <= c <= 'z') || ('A' <= c <= 'Z') || IsDigit(c) || c == '_'
  }

  /** End of the run of digits starting at `p`. */
  function DigitRunEnd(s: string, p: nat): (e: nat)
    requires p <= |s|
    ensures p <= e <= |s|
    ensures forall k :: p <= k < e ==> IsDigit(s[k])
    ensures e < |s| ==> !IsDigit(s[e])
    decreases |s| - p
  {
    if p < |s| && IsDigit(s[p]) then DigitRunEnd(s, p + 1) else p
  }

  /** `\b(\d+)\b` matches at `p`: a digit with no word character before it, whose
      run of digits has no word character after it. */
  predicate StandaloneRunAt(s: string, p: nat)
    requires p < |s|
  {
    && IsDigit(s[p])
    && (p == 0 || !IsWordChar(s[p - 1]))
    && (DigitRunEnd(s, p) == |s| || !IsWordChar(s[DigitRunEnd(s, p)]))
  }

  /** The first position at or after `p` where `\b(\d+)\b` matches. */
  function FirstStandaloneFrom(s: string, p: nat): (r: Option<nat>)
    requires p <= |s|
    ensures r.Some? ==> p <= r.value < |s| && StandaloneRunAt(s, r.value)
    ensures forall k :: p <= k < |s| && (r.None? || k < r.value) ==> !StandaloneRunAt(s, k)
    decreases |s| - p
  {
    if p == |s| then None
    else if StandaloneRunAt(s, p) then Some(p)
    else FirstStandaloneFrom(s, p + 1)
  }

  /** `int(re.search(r"\b(\d+)\b", s).group(1))`, or `None` when there is no match. */
  function StandaloneNumber(s: string): (r: Option<nat>)
  {
    match FirstStandaloneFrom(s, 0)
    case None => None
    case Some(p) =>
      var e := DigitRunEnd(s, p);
      assert AllDigits(s[p..e]);
      Some(DigitsValue(s[p..e]))
  }

  /** A match of `\b(\d+)\b` needs a digit. */
  lemma StandaloneNumberNeedsDigit(s: string)
    requires StandaloneNumber(s).Some?
    ensures HasDigit(s)
  {
    var p := FirstStandaloneFrom(s, 0).value;
    assert IsDigit(s[p]);
  }

  /** When the first digit of `s` starts a standalone run, that run is the match. */
  lemma StandaloneNumberAtFirstDigit(s: string, p: nat)
    requires p < |s| && StandaloneRunAt(s, p)
    requires forall k :: 0 <= k < p ==> !IsDigit(s[k])
    ensures StandaloneNumber(s) == Some(DigitsValue(s[p..DigitRunEnd(s, p)]))
  {
    var r := FirstStandaloneFrom(s, 0);
    assert r.Some?;
    assert r.value == p;
  }

  // ---------------------------------------------------------------------------
  // re.findall(r"[\d.]+", text) and float() of each token
  // ---------------------------------------------------------------------------

  predicate IsNumberChar(c: char) {
    IsDigit(c) || c == '.'
  }

  /** A match of `[\d.]+`. */
  predicate IsNumberToken(t: string) {
    |t| > 0 && forall k :: 0 <= k < |t| ==> IsNumberChar(t[k])
  }

  function NumberRunEnd(s: string, p: nat): (e: nat)
    requires p <= |s|
    ensures p <= e <= |s|
    ensures forall k :: p <= k < e ==> IsNumberChar(s[k])
    ensures e < |s| ==> !IsNumberChar(s[e])
    decreases |s| - p
  {
    if p < |s| && IsNumberChar(s[p]) then NumberRunEnd(s, p + 1) else p
  }

  /** `re.findall(r"[\d.]+", s)`: the maximal runs of digits and dots, left to right. */
  function NumericTokens(s: string): (ts: seq<string>)
    ensures forall i :: 0 <= i < |ts| ==> IsNumberToken(ts[i])
    decreases |s|
  {
    if |s| == 0 then []
    else if !IsNumberChar(s[0]) then NumericTokens(s[1..])
    else
      var e := NumberRunEnd(s, 0);
      [s[..e]] + NumericTokens(s[e..])
  }

  /** The digits and dots of `s`, in order. */
  function NumberChars(s: string): string {
    if |s| == 0 then "" else (if IsNumberChar(s[0]) then [s[0]] else "") + NumberChars(s[1..])
  }

  function Concat(ts: seq<string>): string {
    if |ts| == 0 then "" else ts[0] + Concat(ts[1..])
  }

  lemma {:induction false} NumberCharsAppend(a: string, b: string)
    ensures NumberChars(a + b) == NumberChars(a) + NumberChars(b)
  {
    if |a| == 0 {
      assert a + b == b;
    } else {
      var head := if IsNumberChar(a[0]) then [a[0]] else "";
      assert (a + b)[0] == a[0];
      assert (a + b)[1..] == a[1..] + b;
      NumberCharsAppend(a[1..], b);
      assert NumberChars(a + b) == head + (NumberChars(a[1..]) + NumberChars(b));
      assert head + (NumberChars(a[1..]) + NumberChars(b)) == (head + NumberChars(a[1..])) + NumberChars(b);
    }
  }

  lemma {:induction false} NumberCharsOfToken(t: string)
    requires forall k :: 0 <= k < |t| ==> IsNumberChar(t[k])
    ensures NumberChars(t) == t
  {
    if |t| > 0 {
      NumberCharsOfToken(t[1..]);
    }
  }

  /** The tokens, put together, are exactly the digits and dots of the text: no
      digit or dot is skipped and nothing else is taken. */
  lemma {:induction false} TokensCoverNumberChars(s: string)
    ensures Concat(NumericTokens(s)) == NumberChars(s)
  {
    if |s| == 0 {
    } else if !IsNumberChar(s[0]) {
      TokensCoverNumberChars(s[1..]);
    } else {
      var e := NumberRunEnd(s, 0);
      assert s == s[..e] + s[e..];
      NumberCharsAppend(s[..e], s[e..]);
      NumberCharsOfToken(s[..e]);
      TokensCoverNumberChars(s[e..]);
      assert ([s[..e]] + NumericTokens(s[e..]))[1..] == NumericTokens(s[e..]);
    }
  }

  /** A text without digits or dots has no tokens. */
  lemma {:induction false} NoNumberCharsNoTokens(s: string)
    requires forall k :: 0 <= k < |s| ==> !IsNumberChar(s[k])
    ensures NumericTokens(s) == []
  {
    if |s| > 0 {
      NoNumberCharsNoTokens(s[1..]);
    }
  }

  /** Characters that are neither digits nor dots start no token: `findall` skips
      them. */
  lemma {:induction false} TokensAfterGap(g: string, s: string)
    requires forall k :: 0 <= k < |g| ==> !IsNumberChar(g[k])
    ensures NumericTokens(g + s) == NumericTokens(s)
  {
    if |g| > 0 {
      assert (g + s)[1..] == g[1..] + s;
      TokensAfterGap(g[1..], s);
    } else {
      assert g + s == s;
    }
  }

  lemma {:induction false} NumberRunEndOfToken(t: string, s: string, p: nat)
    requires p <= |t| && forall k :: 0 <= k < |t| ==> IsNumberChar(t[k])
    requires |s| == 0 || !IsNumberChar(s[0])
    ensures NumberRunEnd(t + s, p) == |t|
    decreases |t| - p
  {
    if p < |t| {
      NumberRunEndOfToken(t, s, p + 1);
    }
  }

  /** A run of digits and dots that is not followed by another digit or dot is one
      whole token. With `TokensAfterGap` and the empty text this determines the
      tokens of every text: they are the maximal runs, left to right. */
  lemma TokenBeforeGap(t: string, s: string)
    requires IsNumberToken(t)
    requires |s| == 0 || !IsNumberChar(s[0])
    ensures NumericTokens(t + s) == [t] + NumericTokens(s)
  {
    NumberRunEndOfToken(t, s, 0);
    assert (t + s)[..|t|] == t;
    assert (t + s)[|t|..] == s;
  }

  /** Index of the first `.` in `t`. */
  function FirstDot(t: string): (r: Option<nat>)
    ensures r.Some? ==> r.value < |t| && t[r.value] == '.'
    ensures forall k :: 0 <= k < |t| && (r.None? || k < r.value) ==> t[k] != '.'
  {
    if |t| == 0 then None
    else if t[0] == '.' then Some(0)
    else match FirstDot(t[1..])
      case None => None
      case Some(d) => Some(d + 1)
  }

  function Pow10(n: nat): (r: real)
    ensures r >= 1.0
  {
    if n == 0 then 1.0 else 10.0 * Pow10(n - 1)
  }

  /** Python's `float(t)` for a token of digits and dots: it succeeds when the token
      has at most one dot and at least one digit. */
  function ParseNumberToken(t: string): Option<real>
    requires IsNumberToken(t)
  {
    match FirstDot(t)
    case None =>
      assert AllDigits(t);
      Some(DigitsValue(t) as real)
    case Some(d) =>
      var whole, fraction := t[..d], t[d + 1..];
      assert AllDigits(whole);
      if !AllDigits(fraction) || (|whole| == 0 && |fraction| == 0) then None
      else Some(DigitsValue(whole) as real + DigitsValue(fraction) as real / Pow10(|fraction|))
  }

  /** `float(str(n)) == n`. */
  lemma ParseNumberTokenOfDecimal(n: nat)
    ensures IsNumberToken(NatToString(n))
    ensures ParseNumberToken(NatToString(n)) == Some(n as real)
  {
    var t := NatToString(n);
    var d := FirstDot(t);
    assert d.Some? ==> IsDigit(t[d.value]);
  }

  /** `[float(t) for t in tokens]`, or `None` when one `float()` raises. */
  function TokenWeights(tokens: seq<string>): (r: Option<seq<real>>)
    requires forall i :: 0 <= i < |tokens| ==> IsNumberToken(tokens[i])
    ensures r.Some? ==> |r.value| == |tokens|
    ensures r.Some? ==> forall i :: 0 <= i < |tokens| ==> ParseNumberToken(tokens[i]) == Some(r.value[i])
    ensures r.None? ==> exists i :: 0 <= i < |tokens| && ParseNumberToken(tokens[i]).None?
  {
    if |tokens| == 0 then Some([])
    else match ParseNumberToken(tokens[0])
      case None => None
      case Some(x) =>
        match TokenWeights(tokens[1..])
        case None =>
          var i :| 0 <= i < |tokens[1..]| && ParseNumberToken(tokens[1..][i]).None?;
          assert ParseNumberToken(tokens[i + 1]).None?;
          None
        case Some(rest) => Some([x] + rest)
  }

  // ---------------------------------------------------------------------------
  // _parse_selected_index
  // ---------------------------------------------------------------------------

  /** The explanation taken from a decoded object: its `"explanation"` if that is a
      string, otherwise `default`. */
  function JsonExplanation(obj: JsonObject, default: string): string {
    match obj.explanation
    case Some(JString(e)) => e
    case _ => default
  }

  /** `int(v)` for a value that passes `isinstance(v, (int, str))` (`bool` is a
      subclass of `int`); `None` for other values and when `int()` raises. */
  function SelectionNumber(v: JsonValue): Option<int> {
    match v
    case JInt(i) => Some(i)
    case JBool(b) => Some(if b then 1 else 0)
    case JString(s) => ParseInt(s)
    case _ => None
  }

  /** The JSON stage of `_parse_selected_index`: the 0-based index when that stage
      returns, and the explanation in force when it ends either way. */
  function SelectionFromJson(text: string, decode: Decoder): (Option<int>, string) {
    match BraceSpan(text)
    case None => (None, DefaultSelectionExplanation)
    case Some(span) =>
      match decode(span)
      case None => (None, DefaultSelectionExplanation)
      case Some(obj) =>
        var explanation := JsonExplanation(obj, DefaultSelectionExplanation);
        match obj.selection
        case None => (None, explanation)
        case Some(v) =>
          match SelectionNumber(v)
          case None => (None, explanation)
          case Some(n) => (Some(n - 1), explanation)
  }

  /** The stages after the JSON one, on the cleaned reply: the whole text as an
      integer, then the first standalone run of digits; each gives its number
      minus one. Either needs a digit. */
  function FallbackIndex(cleaned: string): (r: Option<int>)
    ensures r.Some? ==> HasDigit(cleaned)
  {
    var whole := ParseInt(cleaned);
    if whole.Some? then
      ParseIntNeedsDigit(cleaned);
      Some(whole.value - 1)
    else
      var run := StandaloneNumber(cleaned);
      if run.Some? then
        StandaloneNumberNeedsDigit(cleaned);
        Some(run.value - 1)
      else None
  }

  /** The two stages in order: `int()` of the whole text wins; otherwise the first
      standalone run of digits; otherwise no index. */
  lemma FallbackStages(cleaned: string)
    ensures ParseInt(cleaned).Some? ==> FallbackIndex(cleaned) == Some(ParseInt(cleaned).value - 1)
    ensures ParseInt(cleaned).None? && StandaloneNumber(cleaned).Some? ==>
      FallbackIndex(cleaned) == Some(StandaloneNumber(cleaned).value - 1)
    ensures ParseInt(cleaned).None? && StandaloneNumber(cleaned).None? ==> FallbackIndex(cleaned) == None
  {
  }

  /** `judge_text.strip().replace("'", "").replace('"', "")`. */
  function Cleaned(text: string): string {
    RemoveQuotes(Strip(text))
  }

  /** `_parse_selected_index(text)`: the 0-based index the oracle chose (or `None`)
      and the explanation. */
  function ParseSelectedIndex(text: string, decode: Decoder): (r: (Option<int>, string))
    ensures r.1 == SelectionFromJson(text, decode).1
    ensures SelectionFromJson(text, decode).0.Some? ==> r.0 == SelectionFromJson(text, decode).0
    ensures SelectionFromJson(text, decode).0.None? ==> r.0 == FallbackIndex(Cleaned(text))
  {
    var stage := SelectionFromJson(text, decode);
    if stage.0.Some? then stage else (FallbackIndex(Cleaned(text)), stage.1)
  }

  // ---------------------------------------------------------------------------
  // _parse_weights
  // ---------------------------------------------------------------------------

  /** The number a JSON value stands for when it passes `isinstance(w, (int, float))`. */
  function NumericWeight(v: JsonValue): Option<real> {
    match v
    case JInt(i) => Some(i as real)
    case JFloat(f) => Some(f)
    case JBool(b) => Some(if b then 1.0 else 0.0)
    case _ => None
  }

  /** The JSON stage of `_parse_weights`: the weights when that stage returns (a
      list of exactly `n` numbers), and the explanation in force when it ends. */
  function WeightsFromJson(text: string, n: nat, decode: Decoder): (r: (Option<seq<real>>, string))
    ensures r.0.Some? ==> |r.0.value| == n
  {
    match BraceSpan(text)
    case None => (None, DefaultWeightsExplanation)
    case Some(span) =>
      match decode(span)
      case None => (None, DefaultWeightsExplanation)
      case Some(obj) =>
        var explanation := JsonExplanation(obj, DefaultWeightsExplanation);
        match obj.weights
        case Some(JArray(items)) =>
          if |items| == n && forall i :: 0 <= i < |items| ==> NumericWeight(items[i]).Some? then
            (Some(seq(|items|, i requires 0 <= i < |items| => NumericWeight(items[i]).value)), explanation)
          else (None, explanation)
        case _ => (None, explanation)
  }

  /** `[1.0 / n] * n`. */
  function Uniform(n: nat): seq<real>
    requires n > 0
  {
    seq(n, _ => 1.0 / n as real)
  }

  /** `_parse_weights(text, n)`: one weight per response and the explanation. The
      source divides by `n` before anything else, so `n` must be positive. */
  function ParseWeights(text: string, n: nat, decode: Decoder): (r: (seq<real>, string))
    requires n > 0
    ensures |r.0| == n
    ensures r.1 == WeightsFromJson(text, n, decode).1
    ensures WeightsFromJson(text, n, decode).0.Some? ==> r.0 == WeightsFromJson(text, n, decode).0.value
  {
    var (fromJson, explanation) := WeightsFromJson(text, n, decode);
    if fromJson.Some? then (fromJson.value, explanation)
    else
      var tokens := NumericTokens(text);
      if |tokens| == n then
        match TokenWeights(tokens)
        case Some(w) => (w, explanation)
        case None => (Uniform(n), explanation)
      else (Uniform(n), explanation)
  }
}

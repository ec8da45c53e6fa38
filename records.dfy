/** The records that flow between providers, the comparator and the judge. The
    source's dictionaries become datatypes whose optional fields stand for keys
    that a branch leaves out. */
module Records {
  import opened Base

  /** What a provider adapter's `query` returns: a success record carrying the
      response text, or a failure record carrying an error message. `error` is
      `None` for a failure record that has no `"error"` key. */
  datatype ProviderResponse =
    | Succeeded(provider: string, model: string, response: string)
    | Failed(provider: string, model: string, error: Option<string>)

  /** `[r for r in rs if r.get("success", False)]`. */
  function Successful(rs: seq<ProviderResponse>): (r: seq<ProviderResponse>)
    ensures |r| <= |rs|
    ensures forall i :: 0 <= i < |r| ==> r[i].Succeeded?
    ensures forall x :: x in r <==> x in rs && x.Succeeded?
    ensures (forall i :: 0 <= i < |rs| ==> rs[i].Succeeded?) ==> r == rs
    ensures (forall i :: 0 <= i < |rs| ==> rs[i].Failed?) ==> r == []
  {
    if |rs| == 0 then []
    else (if rs[0].Succeeded? then [rs[0]] else []) + Successful(rs[1..])
  }

  /** Filtering distributes over concatenation, so it keeps the input's order. */
  lemma {:induction false} SuccessfulAppend(a: seq<ProviderResponse>, b: seq<ProviderResponse>)
    ensures Successful(a + b) == Successful(a) + Successful(b)
  {
    if |a| > 0 {
      assert (a + b)[1..] == a[1..] + b;
      SuccessfulAppend(a[1..], b);
    } else {
      assert a + b == b;
    }
  }

  /** Some response succeeded exactly when the filtered list is not empty. */
  lemma SuccessfulNonEmpty(rs: seq<ProviderResponse>)
    ensures |Successful(rs)| > 0 <==> exists i :: 0 <= i < |rs| && rs[i].Succeeded?
  {
    var ok := Successful(rs);
    if |ok| > 0 {
      assert ok[0] in ok;
      var i :| 0 <= i < |rs| && rs[i] == ok[0];
      assert rs[i].Succeeded?;
    } else {
      forall i | 0 <= i < |rs| ensures rs[i].Failed? {
        assert rs[i] in rs && rs[i] !in ok;
      }
    }
  }

  predicate AllSucceeded(rs: seq<ProviderResponse>) {
    forall i :: 0 <= i < |rs| ==> rs[i].Succeeded?
  }

  /** The `"method"` of an evaluation outcome. */
  datatype Method = NoResponse | Single | Fallback | Select | Blend {
    function Name(): string {
      match this
      case NoResponse => "none"
      case Single => "single"
      case Fallback => "fallback"
      case Select => "select"
      case Blend => "blend"
    }
  }

  /** An evaluation outcome. `result` and `success` are always present (`result` is
      `None` where the source stores Python's `None`); `kind` is the `"method"` key; every other field is `None`
      exactly when the branch that built the dictionary leaves that key out. */
  datatype Outcome = Outcome(
    result: Option<string>,
    success: bool,
    kind: Option<Method>,
    reason: Option<string>,
    explanation: Option<string>,
    bestResponse: Option<ProviderResponse>,
    weights: Option<seq<real>>,
    responses: Option<seq<ProviderResponse>>,
    judgeResponse: Option<string>)

  /** A value that `json.loads` can produce. */
  datatype JsonValue =
    | JNull
    | JBool(b: bool)
    | JInt(i: int)
    | JFloat(f: real)
    | JString(s: string)
    | JArray(items: seq<JsonValue>)
    | JObject

  /** The three keys of a decoded JSON object that the judge reads; `None` means
      the key is absent. */
  datatype JsonObject = JsonObject(
    explanation: Option<JsonValue>,
    selection: Option<JsonValue>,
    weights: Option<JsonValue>)

  /** The exceptions that escape `Judge.evaluate`. */
  datatype Error = KeyError(key: int)
}

/** Turning the model's reply into an action object: the fenced-block search
    that `re.search(r"```json\n(.*?)\n```", content, re.DOTALL)` performs, the
    JSON decoding (`json.loads`, an oracle here) and the "must be a dict"
    check, each failure with its own error code. */
module Llm {
  import opened Common

  const OpenFence: string := "```json\n"
  const CloseFence: string := "\n```"

  predicate OccursAt(s: string, pat: string, k: nat) {
    k + |pat| <= |s| && s[k..k + |pat|] == pat
  }

  /** The first occurrence of `pat` in `s` at or after `from`. */
  function Find(s: string, pat: string, from: nat): (r: Option<nat>)
    ensures r.Some? ==> from <= r.value && OccursAt(s, pat, r.value)
    ensures forall k :: from <= k && (r.None? || k < r.value) ==> !OccursAt(s, pat, k)
    decreases |s| + 1 - from
  {
    if from + |pat| > |s| then None
    else if OccursAt(s, pat, from) then Some(from)
    else Find(s, pat, from + 1)
  }

  /** The pattern matches with the opening fence at `i` and the closing fence
      at `j`; the captured group is `s[i + 8..j]`. DOTALL lets `.` cross line
      breaks, so any text may lie between the fences. */
  predicate IsMatch(s: string, i: nat, j: nat) {
    OccursAt(s, OpenFence, i) && i + |OpenFence| <= j && OccursAt(s, CloseFence, j)
  }

  /** The span of the match `re.search` reports: the leftmost start that has
      any match, and for it the shortest group (the lazy `.*?`). */
  function Search(s: string): (r: Option<(nat, nat)>)
    ensures r.Some? ==> IsMatch(s, r.value.0, r.value.1)
    ensures r.Some? ==> forall i, j :: IsMatch(s, i, j) ==> r.value.0 < i || (r.value.0 == i && r.value.1 <= j)
    ensures r.None? <==> forall i, j :: !IsMatch(s, i, j)
  {
    match Find(s, OpenFence, 0)
    case None => None
    case Some(i) =>
      match Find(s, CloseFence, i + |OpenFence|)
      case None => None
      case Some(j) => assert IsMatch(s, i, j); Some((i, j))
  }

  /** `json_match.group(1)`, or None when there is no match. */
  function ExtractPayload(s: string): (r: Option<string>)
    ensures r.Some? <==> Search(s).Some?
    ensures r.Some? ==> r.value == s[Search(s).value.0 + |OpenFence|..Search(s).value.1]
  {
    match Search(s)
    case None => None
    case Some((i, j)) => Some(s[i + |OpenFence|..j])
  }

  /** A payload never contains the closing fence. */
  lemma PayloadHasNoCloseFence(s: string)
    requires ExtractPayload(s).Some?
    ensures forall k: nat :: !OccursAt(ExtractPayload(s).value, CloseFence, k)
  {
    var (i, j) := Search(s).value;
    var p := ExtractPayload(s).value;
    forall k: nat ensures !OccursAt(p, CloseFence, k) {
      if k + |CloseFence| <= |p| {
        var start := i + |OpenFence|;
        assert p[k..k + |CloseFence|] == s[start + k..start + k + |CloseFence|];
        assert !IsMatch(s, i, start + k);
      }
    }
  }

  /** Fencing a payload that does not itself contain the closing fence, and
      appending anything after it, gives back exactly that payload. */
  lemma {:induction false} FencedPayloadRoundTrip(p: string, rest: string)
    requires forall k: nat :: !OccursAt(p, CloseFence, k)
    ensures ExtractPayload(OpenFence + p + CloseFence + rest) == Some(p)
  {
    var s := OpenFence + p + CloseFence + rest;
    var start := |OpenFence|;
    var close := start + |p|;
    assert s[..start] == OpenFence;
    assert OccursAt(s, OpenFence, 0);
    assert s[start..close] == p;
    assert s[close..close + |CloseFence|] == CloseFence;
    assert OccursAt(s, CloseFence, close);
    forall j | start <= j < close ensures !OccursAt(s, CloseFence, j) {
      if j + |CloseFence| <= close {
        assert s[j..j + |CloseFence|] == p[j - start..j - start + |CloseFence|];
        assert !OccursAt(p, CloseFence, j - start);
      } else if j + |CloseFence| <= |s| {
        // an occurrence here would run into the closing fence, whose line
        // break stands where the pattern has a backtick
        var d := close - j;
        assert s[j..j + |CloseFence|][d] == s[close] == '\n';
        assert CloseFence[d] == '`';
      }
    }
    assert IsMatch(s, 0, close);
    assert Search(s) == Some((0, close));
  }

  /** What `json.loads` does with a string: a value, a `JSONDecodeError`, or
      another exception; each failure carries the exception's text. */
  datatype LoadResult = Loaded(value: Json) | DecodeError(reason: string) | ParseError(reason: string)

  function LlmError(message: string, code: string): Error {
    Error(LLMError, message, Some(code))
  }

  predicate IsNextActionCode(code: string) {
    code in {"LLM_INVOKE_ERROR", "MISSING_JSON_ERROR", "JSON_DECODE_ERROR", "JSON_PARSE_ERROR", "INVALID_RESPONSE_TYPE"}
  }

  /** `get_next_action` from the model's answer on: `reply` is the reply text
      or the text of the exception the model invocation raised. The returned
      dict is the decoded object itself; its action and args are not checked
      here. */
  function GetNextAction(reply: Result<string, string>, loads: string -> LoadResult, repr: Json -> string)
    : (r: Result<map<string, Json>, Error>)
    ensures r.Failure? ==> r.error.kind == LLMError && r.error.code.Some? && IsNextActionCode(r.error.code.value)
    ensures reply.Failure? ==> r.Failure? && r.error.code == Some("LLM_INVOKE_ERROR")
    ensures reply.Success? && ExtractPayload(reply.value).None? ==>
              r.Failure? && r.error.code == Some("MISSING_JSON_ERROR")
    ensures r.Success? ==> reply.Success? && ExtractPayload(reply.value).Some?
                           && loads(ExtractPayload(reply.value).value) == Loaded(JObject(r.value))
    ensures reply.Success? && ExtractPayload(reply.value).Some? ==>
              var loaded := loads(ExtractPayload(reply.value).value);
              && (loaded.DecodeError? ==> r.Failure? && r.error.code == Some("JSON_DECODE_ERROR"))
              && (loaded.ParseError? ==> r.Failure? && r.error.code == Some("JSON_PARSE_ERROR"))
              && (loaded.Loaded? && !loaded.value.JObject? ==>
                    r.Failure? && r.error.code == Some("INVALID_RESPONSE_TYPE"))
              && (loaded.Loaded? && loaded.value.JObject? ==> r == Success(loaded.value.fields))
  {
    match reply
    case Failure(e) => Failure(LlmError("Failed to invoke LLM: " + e, "LLM_INVOKE_ERROR"))
    case Success(content) =>
      match ExtractPayload(content)
      case None =>
        Failure(LlmError("No JSON object found in LLM response. Response was: " + content, "MISSING_JSON_ERROR"))
      case Some(payload) =>
        match loads(payload)
        case DecodeError(reason) =>
          Failure(LlmError("Failed to decode JSON from LLM. Response: " + content + ". Error: " + reason,
                           "JSON_DECODE_ERROR"))
        case ParseError(reason) =>
          Failure(LlmError("Failed to parse JSON from LLM: " + reason + ". Response: " + content,
                           "JSON_PARSE_ERROR"))
        case Loaded(JObject(fields)) => Success(fields)
        case Loaded(v) =>
          Failure(LlmError("LLM response is not a dictionary: " + PyStr(v, repr)
                           + " (type: <class '" + TypeName(v) + "'>)", "INVALID_RESPONSE_TYPE"))
  }

  /** Nothing is decoded when the invocation fails or the reply has no fenced
      block: the outcome does not depend on the decoder at all. */
  lemma NoDecodeWithoutPayload(reply: Result<string, string>, loads1: string -> LoadResult,
                               loads2: string -> LoadResult, repr: Json -> string)
    requires reply.Failure? || ExtractPayload(reply.value).None?
    ensures GetNextAction(reply, loads1, repr) == GetNextAction(reply, loads2, repr)
  {
  }

  /** A reply holding a fenced object decodes to that object. */
  lemma FencedObjectAccepted(p: string, rest: string, fields: map<string, Json>,
                             loads: string -> LoadResult, repr: Json -> string)
    requires forall k: nat :: !OccursAt(p, CloseFence, k)
    requires loads(p) == Loaded(JObject(fields))
    ensures GetNextAction(Success(OpenFence + p + CloseFence + rest), loads, repr) == Success(fields)
  {
    FencedPayloadRoundTrip(p, rest);
  }

  /** Without a backtick anywhere, a reply has no fenced block. */
  lemma NoBacktickNoPayload(s: string)
    requires '`' !in s
    ensures ExtractPayload(s) == None
  {
    forall i: nat, j: nat ensures !IsMatch(s, i, j) {
      if i + |OpenFence| <= |s| {
        assert s[i..i + |OpenFence|][0] == s[i];
      }
    }
  }

  /** A reply that is bare JSON, with no fence around it, is refused as
      MISSING_JSON_ERROR before any decoding. */
  lemma BareJsonIsMissingPayload(loads: string -> LoadResult, repr: Json -> string)
    ensures var r := GetNextAction(Success("{\"action\":\"finish\",\"args\":{\"result\":\"done\"}}"), loads, repr);
            r.Failure? && r.error.code == Some("MISSING_JSON_ERROR")
  {
    NoBacktickNoPayload("{\"action\":\"finish\",\"args\":{\"result\":\"done\"}}");
  }
}

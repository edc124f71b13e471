/**
 * The reply handling the five agents share: the outcome of `call_llm`, the
 * unwrapping of a Markdown code fence, and the fallback used for the
 * "LLM_ERROR" sentinel or a reply that does not decode. The language model and
 * the JSON decoder are outside the model: the reply is an input, and decoding
 * is a function passed in.
 */
module LlmReply {
  import opened Wrappers
  import opened Text

  /**
   * What calling the model gave: its text, or an exception with its message.
   * `call_llm` turns a failed request into the "LLM_ERROR" text, so `Raised`
   * is an exception escaping it before the request is sent.
   */
  datatype LlmCall = Returned(text: string) | Raised(message: string)

  const LLM_ERROR := "LLM_ERROR"
  const FALLBACK_RISK := "LLM unavailable — signal data still valid"
  const FALLBACK_REASONING := "Analysis unavailable."

  /** The two keys the agents read from the decoded object, each possibly absent. */
  datatype Decoded = Decoded(topRisks: Option<seq<string>>, reasoning: Option<string>)

  /** `json.loads` followed by `resp.get`: None when the text is not a JSON object. */
  type Decoder = string -> Option<Decoded>

  datatype Reply = Reply(topRisks: seq<string>, reasoning: string)

  const FALLBACK := Reply([FALLBACK_RISK], FALLBACK_REASONING)

  const JSON_FENCE := "```json"
  const FENCE := "```"

  /** The text inside a leading ```json or ``` fence, stripped; any other text unchanged. */
  function Unwrap(output: string): string {
    if StartsWith(output, JSON_FENCE) then Strip(Split(Last(Split(output, JSON_FENCE)), FENCE)[0])
    else if StartsWith(output, FENCE) then Strip(Split(Last(Split(output, FENCE)), FENCE)[0])
    else output
  }

  /** The agents' parse step: fallback for the sentinel or an undecodable reply, else the decoded keys with defaults. */
  function ParseReply(output: string, decode: Decoder): (r: Reply)
    ensures output == LLM_ERROR ==> r == FALLBACK
    ensures output != LLM_ERROR && decode(Unwrap(output)).None? ==> r == FALLBACK
    ensures output != LLM_ERROR && decode(Unwrap(output)).Some? ==>
              var d := decode(Unwrap(output)).value;
              r == Reply(d.topRisks.GetOr([FALLBACK_RISK]), d.reasoning.GetOr(FALLBACK_REASONING))
  {
    if output == LLM_ERROR then FALLBACK
    else match decode(Unwrap(output))
      case None => FALLBACK
      case Some(d) => Reply(d.topRisks.GetOr([FALLBACK_RISK]), d.reasoning.GetOr(FALLBACK_REASONING))
  }

  /**
   * The reply of an agent that calls the model without a guard: an exception
   * leaves the agent with its message, any returned text is parsed.
   */
  function AgentReply(call: LlmCall, decode: Decoder): (r: Result<Reply, string>)
    ensures r.Failure? <==> call.Raised?
    ensures call.Raised? ==> r.error == call.message
    ensures call.Returned? ==> r.value == ParseReply(call.text, decode)
    ensures call == Returned(LLM_ERROR) ==> r == Success(FALLBACK)
  {
    match call
    case Raised(msg) => Failure(msg)
    case Returned(text) => Success(ParseReply(text, decode))
  }

  /** The workload agent's reply: an exception from the call is read as the sentinel. */
  function GuardedReply(call: LlmCall, decode: Decoder): (r: Reply)
    ensures call.Raised? ==> r == FALLBACK
    ensures call.Returned? ==> r == ParseReply(call.text, decode)
  {
    ParseReply(if call.Raised? then LLM_ERROR else call.text, decode)
  }

  /** A text that does not start with a fence is decoded as it is. */
  lemma PlainReplyNotUnwrapped(output: string)
    requires !StartsWith(output, FENCE)
    ensures Unwrap(output) == output
  {
    if StartsWith(output, JSON_FENCE) {
      assert false;
    }
  }

  /** A longer pattern that starts with a shorter one cannot occur where the shorter one does not. */
  lemma LongerAbsent(s: string, short: string, long: string, n: nat)
    requires StartsWith(long, short)
    requires !OccursBefore(s, short, n)
    ensures !OccursBefore(s, long, n)
  {
    forall i: nat | i < n ensures !OccursAt(s, long, i) {
      assert !OccursAt(s, short, i);
      assert i <= |s| && |long| <= |s[i..]| ==> s[i..][..|long|][..|short|] == s[i..][..|short|];
    }
  }

  /** "```json" + body + "```" unwraps to the stripped body, when the body holds no fence. */
  lemma {:induction false} JsonFenceUnwrapped(body: string)
    requires !OccursBefore(body + FENCE, FENCE, |body|)
    ensures Unwrap(JSON_FENCE + body + FENCE) == Strip(body)
  {
    var s := JSON_FENCE + body + FENCE;
    var tail := body + FENCE;
    assert StartsWith(s, JSON_FENCE) by { assert s[..7] == JSON_FENCE; }
    assert s[|JSON_FENCE|..] == tail;
    assert !OccursBefore(tail, JSON_FENCE, |tail| + 1) by {
      LongerAbsent(tail, FENCE, JSON_FENCE, |body|);
      forall i: nat | |body| <= i < |tail| + 1 ensures !OccursAt(tail, JSON_FENCE, i) {
      }
    }
    SplitAbsent(tail, JSON_FENCE);
    assert Split(s, JSON_FENCE) == [[]] + Split(tail, JSON_FENCE);
    assert Last(Split(s, JSON_FENCE)) == tail;
    assert body + FENCE + [] == tail;
    SplitFirstPiece(body, FENCE, []);
  }
}

/** The control logic of app.py: the retry wrapper, "Restore Defaults",
    the normalisation of the final answer and the chat turn that appends
    to the session's message list. The Streamlit UI is not modelled. */
module App {
  import opened Wrappers
  import opened PyText
  import opened PyValues
  import opened OrderedMap
  import opened Chain
  import opened AgentFactory
  import opened AgentNaming

  function Pow(b: int, k: nat): int {
    if k == 0 then 1 else b * Pow(b, k - 1)
  }

  /** The value of `wait` before attempt `k`: multiplied by the base
      after every failed attempt. */
  function WaitBefore(initialWait: int, exponentialBase: int, k: nat): int {
    if k == 0 then initialWait else WaitBefore(initialWait, exponentialBase, k - 1) * exponentialBase
  }

  /** The wait before attempt `k` is `initial_wait * exponential_base ** k`. */
  lemma {:induction false} WaitBeforeIsPower(initialWait: int, exponentialBase: int, k: nat)
    ensures WaitBefore(initialWait, exponentialBase, k) == initialWait * Pow(exponentialBase, k)
  {
    if k > 0 {
      WaitBeforeIsPower(initialWait, exponentialBase, k - 1);
      calc {
        WaitBefore(initialWait, exponentialBase, k);
        WaitBefore(initialWait, exponentialBase, k - 1) * exponentialBase;
        (initialWait * Pow(exponentialBase, k - 1)) * exponentialBase;
        { assert (initialWait * Pow(exponentialBase, k - 1)) * exponentialBase
              == initialWait * (exponentialBase * Pow(exponentialBase, k - 1)); }
        initialWait * Pow(exponentialBase, k);
      }
    }
  }

  /** What the wrapped call finally does: return a value, re-raise the
      last error, raise the ValueError `time.sleep` gives for a negative
      wait, or (with no attempts at all) return `None`. */
  datatype RetryResult<T> = ReturnedValue(value: T) | Reraised(message: string)
                          | SleepRejected(wait: int) | ReturnedNone

  /** Lines 20-39, `retry_with_exponential_backoff(func, ...)` applied to
      arguments: `call(k)` is what the k-th call of `func` (from 0) returns
      or raises. `calls` is how many times `func` was called and `waits`
      the wait, in seconds, slept after each failure that was retried. */
  method RetryWithExponentialBackoff<T>(call: nat -> Outcome<T>, maxRetries: int,
                                        initialWait: int, exponentialBase: int)
    returns (r: RetryResult<T>, calls: nat, waits: seq<int>)
    ensures maxRetries <= 0 <==> calls == 0
    ensures calls == 0 ==> r == ReturnedNone && waits == []
    ensures calls <= maxRetries || calls == 0
    ensures forall k :: 0 <= k < calls - 1 ==> call(k).Failure?
    ensures calls > 0 ==> (r.ReturnedValue? <==> call(calls - 1).Success?)
    ensures calls > 0 && r.ReturnedValue? ==> call(calls - 1) == Success(r.value)
    ensures calls > 0 && call(calls - 1).Failure? && calls == maxRetries
      ==> r == Reraised(call(calls - 1).message)
    ensures calls > 0 && call(calls - 1).Failure? && calls < maxRetries
      ==> r == SleepRejected(WaitBefore(initialWait, exponentialBase, calls - 1)) && r.wait < 0
    ensures calls > 0 ==> |waits| == calls - 1
    ensures forall k :: 0 <= k < |waits| ==> waits[k] == WaitBefore(initialWait, exponentialBase, k) && waits[k] >= 0
  {
    r, calls, waits := ReturnedNone, 0, [];
    var wait := initialWait;
    var attempt := 0;
    while attempt < maxRetries
      invariant 0 <= attempt && (attempt == 0 || attempt < maxRetries)
      invariant calls == 0 && r == ReturnedNone
      invariant forall k :: 0 <= k < attempt ==> call(k).Failure?
      invariant |waits| == attempt
      invariant forall k :: 0 <= k < attempt ==> waits[k] == WaitBefore(initialWait, exponentialBase, k) && waits[k] >= 0
      invariant wait == WaitBefore(initialWait, exponentialBase, attempt)
      decreases maxRetries - attempt
    {
      var o := call(attempt);
      match o
      case Success(v) =>
        r, calls := ReturnedValue(v), attempt + 1;
        return;
      case Failure(m) =>
        if attempt == maxRetries - 1 {
          r, calls := Reraised(m), attempt + 1;
          return;
        }
        if wait < 0 {
          r, calls := SleepRejected(wait), attempt + 1;
          return;
        }
        waits := waits + [wait];
        wait := wait * exponentialBase;
        attempt := attempt + 1;
    }
  }

  /** With the defaults (3 attempts, 1 second, base 2) a call that always
      fails is made three times, with waits of 1 and 2 seconds between. */
  method DefaultRetryOfFailingCall(message: string) returns (r: RetryResult<Value>, calls: nat, waits: seq<int>)
    ensures r == Reraised(message) && calls == 3 && waits == [1, 2]
  {
    r, calls, waits := RetryWithExponentialBackoff((k: nat) => Failure(message), 3, 1, 2);
    assert WaitBefore(1, 2, 1) == 2;
  }

  /** A negative initial wait ends the wrapper at the first failure:
      `time.sleep(-1)` raises before any retry. */
  method NegativeInitialWaitRaises(message: string) returns (r: RetryResult<Value>, calls: nat, waits: seq<int>)
    ensures r == SleepRejected(-1) && calls == 1 && waits == []
  {
    r, calls, waits := RetryWithExponentialBackoff((k: nat) => Failure(message), 3, -1, 2);
    assert WaitBefore(-1, 2, 0) == -1;
  }

  /** A negative base gives a negative second wait: one wait of 1 second
      is slept, then `time.sleep(-2)` raises after the second call. */
  method NegativeBaseRaises(message: string) returns (r: RetryResult<Value>, calls: nat, waits: seq<int>)
    ensures r == SleepRejected(-2) && calls == 2 && waits == [1]
  {
    r, calls, waits := RetryWithExponentialBackoff((k: nat) => Failure(message), 3, 1, -2);
    assert WaitBefore(1, -2, 1) == -2;
  }

  /** How many of `prompts`, from the first, have a template that parses
      before the first one whose template is rejected. */
  function AcceptedPrefix(prompts: seq<string>): (k: nat)
    ensures k <= |prompts|
    ensures forall i :: 0 <= i < k ==> TemplateAccepted(prompts[i])
    ensures k < |prompts| ==> !TemplateAccepted(prompts[k])
  {
    if prompts == [] || !TemplateAccepted(prompts[0]) then 0 else 1 + AcceptedPrefix(prompts[1..])
  }

  /** Within the accepted prefix's reach, position `i` is inside it
      exactly when its prompt is accepted. */
  lemma AcceptedPrefixAt(prompts: seq<string>, i: nat)
    requires i <= AcceptedPrefix(prompts) && i < |prompts|
    ensures i < AcceptedPrefix(prompts) <==> TemplateAccepted(prompts[i])
  {
    var k := AcceptedPrefix(prompts);
    if i == k {
      assert !TemplateAccepted(prompts[k]);
    } else {
      assert TemplateAccepted(prompts[i]);
    }
  }

  function Min(a: int, b: int): int {
    if a < b then a else b
  }

  /** Restoring the application's own defaults never raises: every
      default prompt gives a template that parses. */
  lemma DefaultsRestoreFully()
    ensures AcceptedPrefix(DefaultPrompts()) == 4
  {
    DefaultPromptsAccepted();
    var ps := DefaultPrompts();
    assert forall i :: 0 <= i < 4 ==> TemplateAccepted(ps[i]);
  }

  /** Lines 76-78: `for agent, default_prompt in zip(agents, default_prompts):
      agent.update_system_prompt(default_prompt)`. The agents are updated
      in order; a prompt whose template is rejected raises out of the loop,
      leaving that agent with the new prompt and its old executor and the
      agents after it untouched. */
  method RestoreDefaults(agents: seq<Agent>, defaults: seq<string>) returns (r: Outcome<()>)
    requires forall i, j :: 0 <= i < j < |agents| ==> agents[i] != agents[j]
    modifies set i | 0 <= i < |agents| :: agents[i]
    ensures var k := AcceptedPrefix(defaults[..Min(|agents|, |defaults|)]);
      && (r.Success? <==> k == Min(|agents|, |defaults|))
      && (forall i :: 0 <= i < k ==>
            agents[i].State() == Updated(old(agents[i].State()), defaults[i]) && agents[i].Synced())
      && (r.Failure? ==> r.message == TemplateRejected)
      && (r.Failure? ==> agents[k].State() == AfterRejectedUpdate(old(agents[k].State()), defaults[k]))
      && (forall i :: (if r.Success? then k else k + 1) <= i < |agents| ==>
            agents[i].State() == old(agents[i].State()))
  {
    var n := Min(|agents|, |defaults|);
    ghost var k := AcceptedPrefix(defaults[..n]);
    r := Success(());
    var i := 0;
    while i < n
      invariant 0 <= i <= n && i <= k
      invariant forall j :: 0 <= j < i ==>
        agents[j].State() == Updated(old(agents[j].State()), defaults[j]) && agents[j].Synced()
      invariant forall j :: i <= j < |agents| ==> agents[j].State() == old(agents[j].State())
    {
      var o := agents[i].UpdateSystemPrompt(defaults[i]);
      assert defaults[..n][i] == defaults[i];
      AcceptedPrefixAt(defaults[..n], i);
      if o.Failure? {
        r := o;
        return;
      }
      i := i + 1;
    }
  }

  /** Lines 111-116: a dict holding 'output' is unwrapped, a string is
      stripped, anything else is kept. */
  function NormalizeFinalOutput(v: Value): (r: Value)
    ensures v.Mapping? && "output" in v.entries ==> r == v.entries["output"]
    ensures v.Text? ==> r.Text? && r.s == Strip(v.s)
    ensures !v.Text? && !(v.Mapping? && "output" in v.entries) ==> r == v
  {
    if v.Mapping? && "output" in v.entries then v.entries["output"]
    else if v.Text? then Text(Strip(v.s))
    else v
  }

  /** A string answer is normalised once and for all. */
  lemma NormalizeTextIdempotent(s: string)
    ensures NormalizeFinalOutput(NormalizeFinalOutput(Text(s))) == NormalizeFinalOutput(Text(s))
  {
    StripIdempotent(s);
  }

  /** `str(KeyError(k))` for a key without quotes, backslashes or
      unprintable characters, such as "Agent 0", the only key the chain
      raises on: the key in single quotes. */
  function KeyErrorMessage(key: string): string {
    "'" + key + "'"
  }

  /** One call of `run_chain_with_retry` as the retry wrapper sees it. */
  function ChainAttempt(c: ChainResult): (o: Outcome<Response>)
    ensures o.Success? <==> c.Returned?
    ensures o.Success? ==> o.value == c.response
    ensures o.Failure? ==> o.message == KeyErrorMessage(c.missingKey)
  {
    match c
    case Returned(resp) => Success(resp)
    case KeyError(k) => Failure(KeyErrorMessage(k))
  }

  function UserMessage(prompt: string): Message {
    Message("user", Text(prompt))
  }

  /** What the assistant shows for a question whose history (the current
      question included) is `history`: the normalised "Agent 4" entry of
      the trace, or nothing when the chain raised or has no such entry. */
  function TurnReply(agents: seq<AgentCall>, prompt: string, history: seq<Message>): (r: Option<Value>)
    ensures r.Some? <==> ChainSpec(agents, prompt, Some(history)).Returned?
                         && "Agent 4" in Keys(ChainSpec(agents, prompt, Some(history)).response.agentOutcomes)
    ensures r.Some? ==> exists v :: Get(ChainSpec(agents, prompt, Some(history)).response.agentOutcomes, "Agent 4") == Some(v)
                                   && r.value == NormalizeFinalOutput(v)
  {
    match ChainSpec(agents, prompt, Some(history))
    case KeyError(_) => None
    case Returned(resp) =>
      match Get(resp.agentOutcomes, "Agent 4")
      case None => None
      case Some(v) => Some(NormalizeFinalOutput(v))
  }

  /** With the application's four agents the turn always has a reply:
      the normalised output of the last agent. */
  lemma FourAgentsAlwaysReply(agents: seq<AgentCall>, prompt: string, history: seq<Message>)
    requires |agents| == 4
    ensures ChainSpec(agents, prompt, Some(history)).Returned?
    ensures TurnReply(agents, prompt, history)
      == Some(NormalizeFinalOutput(ChainSpec(agents, prompt, Some(history)).response.output))
  {
    ChainShape(agents, prompt, Some(history));
    var resp := ChainSpec(agents, prompt, Some(history)).response;
    assert AgentName(4) == "Agent 4";
    GetAt(resp.agentOutcomes, 3);
  }

  /** The history the chain receives already ends with the current question. */
  lemma HistoryEndsWithQuestion(messages: seq<Message>, prompt: string)
    ensures Formatted(messages + [UserMessage(prompt)])
      == Formatted(messages) + [HumanMessage(Text(prompt))]
  {
    FormattedAppend(messages, [UserMessage(prompt)]);
    assert Formatted([UserMessage(prompt)]) == [HumanMessage(Text(prompt))] by {
      assert [UserMessage(prompt)][..0] == [];
    }
  }

  /** The session state: `st.session_state.messages`. */
  class ChatSession {
    var messages: seq<Message>

    /** Lines 81-82. */
    constructor ()
      ensures messages == []
    {
      messages := [];
    }

    /** Lines 88-120: one question. An empty input is falsy and does
        nothing. Otherwise the user turn is appended, the chain runs under
        the retry wrapper (defaults: 3 attempts, waits 1 and 2) on the
        session's list itself, and the normalised "Agent 4" entry is
        appended as the assistant turn; when the chain keeps raising, or
        the trace has no "Agent 4", only the user turn remains. */
    method SubmitTurn(prompt: string, agents: seq<AgentCall>) returns (shown: Option<Value>)
      modifies this
      ensures prompt == "" ==> messages == old(messages) && shown == None
      ensures prompt != "" ==>
        var history := old(messages) + [UserMessage(prompt)];
        && shown == TurnReply(agents, prompt, history)
        && messages == history + (if shown.Some? then [Message("assistant", shown.value)] else [])
    {
      shown := None;
      if prompt == "" {
        return;
      }
      messages := messages + [UserMessage(prompt)];
      var chatHistory := messages;
      // The modelled chain is a function of its inputs, so every attempt
      // of `run_chain_with_retry` has the outcome of the first.
      var chainResult := RunChain(agents, prompt, Some(chatHistory));
      var attempt := ChainAttempt(chainResult);
      var response, _, _ := RetryWithExponentialBackoff((k: nat) => attempt, 3, 1, 2);
      if !response.ReturnedValue? {
        return;
      }
      match Get(response.value.agentOutcomes, "Agent 4")
      case None =>
        return;
      case Some(finalOutput) =>
        var output := NormalizeFinalOutput(finalOutput);
        messages := messages + [Message("assistant", output)];
        shown := Some(output);
    }
  }
}

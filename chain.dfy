/** The sequential chain of langgraph_chain.py: the function `run_chain`
    that `create_sequential_chain(agents)` returns. */
module Chain {
  import opened Wrappers
  import opened PyText
  import opened PyValues
  import opened OrderedMap
  import opened AgentNaming

  /** One entry of the session's message list: `{"role": .., "content": ..}`. */
  datatype Message = Message(role: string, content: Value)

  /** The history as the agents receive it. */
  datatype HistoryMessage = HumanMessage(content: Value) | AIMessage(content: Value)

  /** An agent as the chain sees it: a call on (input, formatted history)
      that returns a result or raises. */
  type AgentCall = (string, seq<HistoryMessage>) -> Outcome<Value>

  /** What one message contributes to the formatted history. */
  function Convert(m: Message): seq<HistoryMessage> {
    if m.role == "user" then [HumanMessage(m.content)]
    else if m.role == "assistant" then [AIMessage(m.content)]
    else []
  }

  /** The formatted history: user and assistant messages converted, in
      order; every other role dropped. */
  function Formatted(h: seq<Message>): seq<HistoryMessage> {
    if h == [] then [] else Formatted(h[..|h| - 1]) + Convert(h[|h| - 1])
  }

  /** Formatting works message by message, so it keeps the original order. */
  lemma {:induction false} FormattedAppend(a: seq<Message>, b: seq<Message>)
    ensures Formatted(a + b) == Formatted(a) + Formatted(b)
  {
    if b != [] {
      assert (a + b)[..|a + b| - 1] == a + b[..|b| - 1];
      FormattedAppend(a, b[..|b| - 1]);
    } else {
      assert a + b == a;
    }
  }

  /** A formatted message is exactly the conversion of some user or
      assistant message of the history. */
  lemma {:induction false} FormattedMembers(h: seq<Message>, x: HistoryMessage)
    ensures x in Formatted(h) <==> exists i :: 0 <= i < |h| && Convert(h[i]) == [x]
  {
    if h != [] {
      var init := h[..|h| - 1];
      FormattedMembers(init, x);
      if exists i :: 0 <= i < |init| && Convert(init[i]) == [x] {
        var i :| 0 <= i < |init| && Convert(init[i]) == [x];
        assert h[i] == init[i];
      }
      if exists i :: 0 <= i < |h| && Convert(h[i]) == [x] {
        var i :| 0 <= i < |h| && Convert(h[i]) == [x];
        if i < |init| {
          assert init[i] == h[i];
        }
      }
    }
  }

  /** Lines 10-15: the loop that builds `formatted_history`. */
  method FormatHistory(chatHistory: seq<Message>) returns (formatted: seq<HistoryMessage>)
    ensures formatted == Formatted(chatHistory)
  {
    formatted := [];
    var i := 0;
    while i < |chatHistory|
      invariant i <= |chatHistory|
      invariant formatted == Formatted(chatHistory[..i])
    {
      var message := chatHistory[i];
      assert chatHistory[..i + 1][..i] == chatHistory[..i];
      if message.role == "user" {
        formatted := formatted + [HumanMessage(message.content)];
      } else if message.role == "assistant" {
        formatted := formatted + [AIMessage(message.content)];
      }
      i := i + 1;
    }
    assert chatHistory[..i] == chatHistory;
  }

  // The fixed texts of the two templates of lines 29 and 34.
  const QuestionIntro: string := "Original question: "
  const ParagraphBreak: string := "\n\n"
  const AnalysisLabel: string := "Previous analysis: "
  const AnalysisIntro: string := ParagraphBreak + AnalysisLabel
  const SuccessClosing: string := "\n\nBased on this information and the chat history, please provide your analysis or improvement."
  const ErrorText: string := "Previous agent encountered an error"
  const ErrorNotice: string := ParagraphBreak + ErrorText
  const FailureClosing: string := ". Please provide your best analysis or response based on the original question and chat history."

  /** The next agent's input after a success with result text `previous`. */
  function SuccessTemplate(question: string, previous: string): string {
    QuestionIntro + question + AnalysisIntro + previous + SuccessClosing
  }

  /** The next agent's input after a failure. */
  function FailureTemplate(question: string): string {
    QuestionIntro + question + ErrorNotice + FailureClosing
  }

  /** What the trace records for an outcome: the raw result, or the error text. */
  function Recorded(o: Outcome<Value>): Value {
    match o
    case Success(r) => r
    case Failure(m) => Text("Error: " + m)
  }

  /** The loop's variables: the trace `agent_outcomes` and `current_input`. */
  datatype ChainState = ChainState(outcomes: seq<Entry<Value>>, currentInput: string)

  /** The `current_input` after the agent at index `i` of `n` produced
      `o`: the success template (only if a later agent follows; otherwise
      the input is left as it was) or the failure template. */
  function NextInput(question: string, o: Outcome<Value>, i: nat, n: nat, current: string): string {
    match o
    case Success(r) => if i < n - 1 then SuccessTemplate(question, Str(r)) else current
    case Failure(_) => FailureTemplate(question)
  }

  /** One iteration of the loop of lines 20-34, for the agent at index `i`:
      the trace gains the entry f"Agent {i+1}" in both branches. */
  function Step(agents: seq<AgentCall>, question: string, history: seq<HistoryMessage>,
                s: ChainState, i: nat): ChainState
    requires i < |agents|
  {
    var o := agents[i](s.currentInput, history);
    ChainState(s.outcomes + [Entry(AgentName(i + 1), Recorded(o))],
               NextInput(question, o, i, |agents|, s.currentInput))
  }

  /** The loop's state after the first `k` agents have run. */
  function RunAgents(agents: seq<AgentCall>, question: string, history: seq<HistoryMessage>,
                     k: nat): ChainState
    requires k <= |agents|
  {
    if k == 0 then ChainState([], question)
    else Step(agents, question, history, RunAgents(agents, question, history, k - 1), k - 1)
  }

  /** The input the agent at index `j` receives. */
  function InputOf(agents: seq<AgentCall>, question: string, history: seq<HistoryMessage>,
                   j: nat): string
    requires j < |agents|
  {
    RunAgents(agents, question, history, j).currentInput
  }

  /** What `agent[j]` returns or raises during the run. */
  function OutcomeOf(agents: seq<AgentCall>, question: string, history: seq<HistoryMessage>,
                     j: nat): Outcome<Value>
    requires j < |agents|
  {
    agents[j](InputOf(agents, question, history, j), history)
  }

  /** The dict `run_chain` returns. */
  datatype Response = Response(output: Value, agentOutcomes: seq<Entry<Value>>)

  /** `run_chain` either returns, or raises `KeyError` on the final lookup. */
  datatype ChainResult = Returned(response: Response) | KeyError(missingKey: string)

  function HistoryOrEmpty(chatHistory: Option<seq<Message>>): seq<Message> {
    if chatHistory.None? then [] else chatHistory.value
  }

  /** `run_chain(input_text, chat_history)` as a function of its inputs. */
  function ChainSpec(agents: seq<AgentCall>, inputText: string,
                     chatHistory: Option<seq<Message>>): ChainResult
  {
    var history := Formatted(HistoryOrEmpty(chatHistory));
    var final := RunAgents(agents, inputText, history, |agents|);
    match Get(final.outcomes, AgentName(|agents|))
    case None => KeyError(AgentName(|agents|))
    case Some(v) => Returned(Response(v, final.outcomes))
  }

  /** After `k` agents the trace holds exactly `k` entries, keyed
      "Agent 1".."Agent k" in execution order, each recording what that
      agent returned or raised on its own input. */
  lemma {:induction false} TraceAfter(agents: seq<AgentCall>, question: string,
                                      history: seq<HistoryMessage>, k: nat)
    requires k <= |agents|
    ensures |RunAgents(agents, question, history, k).outcomes| == k
    ensures forall j :: 0 <= j < k ==>
      RunAgents(agents, question, history, k).outcomes[j]
        == Entry(AgentName(j + 1), Recorded(OutcomeOf(agents, question, history, j)))
  {
    if k > 0 {
      TraceAfter(agents, question, history, k - 1);
    }
  }

  /** No two entries of the trace share a key, so the dict the source
      builds has one entry per agent. */
  lemma TraceKeysDistinct(agents: seq<AgentCall>, question: string,
                          history: seq<HistoryMessage>, k: nat)
    requires k <= |agents|
    ensures DistinctKeys(RunAgents(agents, question, history, k).outcomes)
  {
    TraceAfter(agents, question, history, k);
    var d := RunAgents(agents, question, history, k).outcomes;
    forall i, j | 0 <= i < j < |d|
      ensures d[i].key != d[j].key
    {
      AgentNameInjective(i + 1, j + 1);
    }
  }

  /** The next agent's key is not yet in the trace, so the dict
      assignment of the source appends it. */
  lemma NextKeyIsNew(agents: seq<AgentCall>, question: string,
                     history: seq<HistoryMessage>, k: nat)
    requires k < |agents|
    ensures AgentName(k + 1) !in Keys(RunAgents(agents, question, history, k).outcomes)
  {
    TraceAfter(agents, question, history, k);
    var d := RunAgents(agents, question, history, k).outcomes;
    forall j | 0 <= j < k
      ensures Keys(d)[j] != AgentName(k + 1)
    {
      AgentNameInjective(j + 1, k + 1);
    }
  }

  /** One iteration, written as the dict assignment of the source, is the
      step of the specification. */
  lemma StepIsAssignment(agents: seq<AgentCall>, question: string,
                         history: seq<HistoryMessage>, i: nat)
    requires i < |agents|
    ensures var s := RunAgents(agents, question, history, i);
      var o := agents[i](s.currentInput, history);
      RunAgents(agents, question, history, i + 1)
        == ChainState(Put(s.outcomes, AgentName(i + 1), Recorded(o)),
                      NextInput(question, o, i, |agents|, s.currentInput))
  {
    NextKeyIsNew(agents, question, history, i);
  }

  /** Lines 17-34: the loop over the agents, filling `agent_outcomes` in
      place and reassigning `current_input`. */
  method RunAgentsLoop(agents: seq<AgentCall>, inputText: string, formatted: seq<HistoryMessage>)
    returns (agentOutcomes: seq<Entry<Value>>, currentInput: string)
    ensures ChainState(agentOutcomes, currentInput) == RunAgents(agents, inputText, formatted, |agents|)
  {
    agentOutcomes := [];
    currentInput := inputText;
    for i := 0 to |agents|
      invariant ChainState(agentOutcomes, currentInput) == RunAgents(agents, inputText, formatted, i)
    {
      var agentName := AgentName(i + 1);
      StepIsAssignment(agents, inputText, formatted, i);
      match agents[i](currentInput, formatted)
      case Success(result) =>
        agentOutcomes := Put(agentOutcomes, agentName, result);
        if i < |agents| - 1 {
          currentInput := SuccessTemplate(inputText, Str(result));
        }
      case Failure(message) =>
        agentOutcomes := Put(agentOutcomes, agentName, Text("Error: " + message));
        currentInput := FailureTemplate(inputText);
    }
  }

  /** `run_chain`: format the history, run every agent in order, return
      the last agent's entry together with the whole trace. */
  method RunChain(agents: seq<AgentCall>, inputText: string, chatHistory: Option<seq<Message>>)
    returns (r: ChainResult)
    ensures r == ChainSpec(agents, inputText, chatHistory)
  {
    var history: seq<Message>;
    if chatHistory.None? {
      history := [];
    } else {
      history := chatHistory.value;
    }
    var formatted := FormatHistory(history);
    var agentOutcomes, _ := RunAgentsLoop(agents, inputText, formatted);
    match Get(agentOutcomes, AgentName(|agents|))
    case None =>
      r := KeyError(AgentName(|agents|));
    case Some(finalOutput) =>
      r := Returned(Response(finalOutput, agentOutcomes));
  }

  /** The run over N agents returns exactly when N >= 1; its trace has N
      distinct entries "Agent 1".."Agent N" in order, every agent having
      run whatever the failures; its output is the entry of "Agent N"
      verbatim, an error text included. With no agents the lookup of
      "Agent 0" raises. */
  lemma ChainShape(agents: seq<AgentCall>, inputText: string, chatHistory: Option<seq<Message>>)
    ensures ChainSpec(agents, inputText, chatHistory).Returned? <==> |agents| >= 1
    ensures |agents| == 0 ==> ChainSpec(agents, inputText, chatHistory) == KeyError("Agent 0")
    ensures ChainSpec(agents, inputText, chatHistory).Returned? ==>
      var history := Formatted(HistoryOrEmpty(chatHistory));
      var resp := ChainSpec(agents, inputText, chatHistory).response;
      && |resp.agentOutcomes| == |agents|
      && DistinctKeys(resp.agentOutcomes)
      && (forall j :: 0 <= j < |agents| ==>
           resp.agentOutcomes[j]
             == Entry(AgentName(j + 1), Recorded(OutcomeOf(agents, inputText, history, j))))
      && resp.output == resp.agentOutcomes[|agents| - 1].value
  {
    var history := Formatted(HistoryOrEmpty(chatHistory));
    var n := |agents|;
    TraceAfter(agents, inputText, history, n);
    TraceKeysDistinct(agents, inputText, history, n);
    var d := RunAgents(agents, inputText, history, n).outcomes;
    if n > 0 {
      GetAt(d, n - 1);
    } else {
      assert NatToString(0) == "0";
    }
  }

  /** A missing history behaves exactly like an empty one. */
  lemma NoHistoryIsEmptyHistory(agents: seq<AgentCall>, inputText: string)
    ensures ChainSpec(agents, inputText, None) == ChainSpec(agents, inputText, Some([]))
  {
  }

  /** Agent 1 receives the question verbatim. */
  lemma FirstInputIsQuestion(agents: seq<AgentCall>, question: string, history: seq<HistoryMessage>)
    requires |agents| >= 1
    ensures InputOf(agents, question, history, 0) == question
  {
  }

  /** After a success with result `r`, the next agent gets the question
      and `str(r)` in the success template. */
  lemma InputAfterSuccess(agents: seq<AgentCall>, question: string,
                          history: seq<HistoryMessage>, j: nat)
    requires j + 1 < |agents| && OutcomeOf(agents, question, history, j).Success?
    ensures InputOf(agents, question, history, j + 1)
      == SuccessTemplate(question, Str(OutcomeOf(agents, question, history, j).value))
  {
  }

  /** After a failure, the next agent gets the failure template. */
  lemma InputAfterFailure(agents: seq<AgentCall>, question: string,
                          history: seq<HistoryMessage>, j: nat)
    requires j + 1 < |agents| && OutcomeOf(agents, question, history, j).Failure?
    ensures InputOf(agents, question, history, j + 1) == FailureTemplate(question)
  {
  }

  /** The success template carries the question and the previous result. */
  lemma SuccessTemplateContents(question: string, previous: string)
    ensures IsInfix(question, SuccessTemplate(question, previous))
    ensures IsInfix(AnalysisLabel + previous, SuccessTemplate(question, previous))
  {
    var t := SuccessTemplate(question, previous);
    assert t == QuestionIntro + question + (AnalysisIntro + previous + SuccessClosing);
    InfixOfConcat(QuestionIntro, question, AnalysisIntro + previous + SuccessClosing);
    assert t == (QuestionIntro + question + ParagraphBreak) + (AnalysisLabel + previous) + SuccessClosing;
    InfixOfConcat(QuestionIntro + question + ParagraphBreak, AnalysisLabel + previous, SuccessClosing);
  }

  /** The failure template keeps the question and names the error. */
  lemma FailureTemplateContents(question: string)
    ensures IsInfix(question, FailureTemplate(question))
    ensures IsInfix(ErrorText, FailureTemplate(question))
  {
    var t := FailureTemplate(question);
    assert t == QuestionIntro + question + (ErrorNotice + FailureClosing);
    InfixOfConcat(QuestionIntro, question, ErrorNotice + FailureClosing);
    assert t == (QuestionIntro + question + ParagraphBreak) + ErrorText + FailureClosing;
    InfixOfConcat(QuestionIntro + question + ParagraphBreak, ErrorText, FailureClosing);
  }

  /** No success template is the failure template, so the two cases are
      always told apart by the next agent. */
  lemma TemplatesDiffer(question: string, previous: string)
    ensures SuccessTemplate(question, previous) != FailureTemplate(question)
  {
    var k := |QuestionIntro| + |question| + 12;
    assert SuccessTemplate(question, previous)[k] == AnalysisIntro[12] == 'n';
    assert FailureTemplate(question)[k] == ErrorNotice[12] == 'g';
  }
}

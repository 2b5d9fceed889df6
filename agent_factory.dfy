/** The `Agent` class of agent_factory.py and the four agents the module
    creates. The language model and the LangChain executor are not
    modelled; an executor is represented by what it is built from. */
module AgentFactory {
  import opened Wrappers
  import opened PyText
  import opened PyValues
  import opened PyFormat
  import opened AgentNaming

  /** A LangChain tool (the agents are given none). */
  datatype Tool = Tool(name: string)

  /** The model client's configuration (lines 24-30; the API key is left out). */
  datatype LlmConfig = LlmConfig(model: string, convertSystemMessageToHuman: bool)

  const GeminiFlash: LlmConfig := LlmConfig("gemini-1.5-flash-exp-0827", true)

  /** The executor `_create_agent` builds: the human message template with
      the system prompt baked in, the model, the tools and `verbose=True`. */
  datatype Executor = Executor(template: string, llm: LlmConfig, tools: seq<Tool>, verbose: bool)

  /** The placeholder the template keeps for the input. */
  const InputPlaceholder: string := "{input}"

  /** Line 36: f"System: {self.system_prompt}\nHuman: {{input}}" — the
      doubled braces leave a literal `{input}` placeholder behind. */
  function HumanTemplate(systemPrompt: string): string {
    "System: " + systemPrompt + "\nHuman: " + InputPlaceholder
  }

  /** Formatting a template whose only placeholder is the trailing
      `{input}`: the placeholder is replaced by `input`. */
  function FillInput(template: string, input: string): (r: Option<string>)
    ensures r.Some? <==> |template| >= |InputPlaceholder| && template[|template| - |InputPlaceholder|..] == InputPlaceholder
    ensures r.Some? ==> |r.value| == |template| - |InputPlaceholder| + |input|
    ensures r.Some? ==> r.value[..|template| - |InputPlaceholder|] == template[..|template| - |InputPlaceholder|]
    ensures r.Some? ==> r.value[|template| - |InputPlaceholder|..] == input
  {
    var n := |template| - |InputPlaceholder|;
    if n >= 0 && template[n..] == InputPlaceholder then Some(template[..n] + input) else None
  }

  /** For a prompt without braces, the human message the model sees is
      "System: " + prompt + "\nHuman: " + input. */
  lemma RenderedHumanMessage(systemPrompt: string, input: string)
    requires BraceFree(systemPrompt)
    ensures FillInput(HumanTemplate(systemPrompt), input) == Some("System: " + systemPrompt + "\nHuman: " + input)
  {
    var t := HumanTemplate(systemPrompt);
    var head := "System: " + systemPrompt + "\nHuman: ";
    assert t == head + InputPlaceholder;
    assert t[..|t| - |InputPlaceholder|] == head;
    assert t[|t| - |InputPlaceholder|..] == InputPlaceholder;
  }

  /** `HumanMessagePromptTemplate.from_template` (line 36) accepts the
      template built from `systemPrompt`; otherwise it raises ValueError. */
  predicate TemplateAccepted(systemPrompt: string) {
    FormatParses(HumanTemplate(systemPrompt))
  }

  /** The message an agent raises when its template is rejected. */
  const TemplateRejected: string := "ValueError: invalid format string"

  predicate BraceFree(s: string) {
    forall k :: 0 <= k < |s| ==> !IsBrace(s[k])
  }

  /** A prompt without braces always gives a template that parses. */
  lemma PlainPromptAccepted(p: string)
    requires BraceFree(p)
    ensures TemplateAccepted(p)
  {
    var t := HumanTemplate(p);
    var o := |t| - 7;
    assert t[o..] == "{input}";
    LiteralSkip(t, 0, o);
    FieldSkip(t, o + 1, |t| - 1);
  }

  /** A single `}` in a prompt makes the template fail to parse. */
  lemma LoneClosingBraceRejected(p: string, q: string)
    requires BraceFree(p)
    requires q == [] || q[0] != '}'
    ensures !TemplateAccepted(p + "}" + q)
  {
    var t := HumanTemplate(p + "}" + q);
    var o := 8 + |p|;
    assert t[..o] == "System: " + p;
    LiteralSkip(t, 0, o);
    assert t[o] == '}';
    assert t[o + 1] != '}' by {
      if q == [] { assert t[o + 1] == '\n'; } else { assert t[o + 1] == q[0]; }
    }
  }

  /** A single `{` in a prompt makes the template fail to parse: the field
      it opens is still unclosed when the text ends, since the trailing
      `{input}` is read as nested inside the field's format spec. */
  lemma LoneOpeningBraceRejected(p: string, q: string)
    requires BraceFree(p)
    requires forall k :: 0 <= k < |q| ==> !IsNameSpecial(q[k])
    ensures !TemplateAccepted(p + "{" + q)
  {
    var t := HumanTemplate(p + "{" + q);
    var o := 8 + |p|;
    var c := o + 1 + |q| + 6;
    assert |t| == c + 9;
    assert t[..o] == "System: " + p;
    assert t[o + 1..c] == q + "\nHuman";
    assert t[c..] == ": {input}";
    LiteralSkip(t, 0, o);
    assert t[o] == '{' && t[o + 1] != '{';
    FieldSkip(t, o + 1, c);
    assert t[c] == ':' && t[c + 1] == ' ' && t[c + 2] == '{' && t[c + 8] == '}';
    assert FieldParses(t, c) == SpecParses(t, c + 1, 1);
    assert SpecParses(t, c + 1, 1) == SpecParses(t, c + 3, 2);
    SpecSkip(t, c + 3, c + 8, 2);
    assert SpecParses(t, c + 8, 2) == SpecParses(t, c + 9, 1);
  }

  /** For example, the prompt "a { b" is rejected. */
  lemma SingleBracePromptRejected()
    ensures !TemplateAccepted("a { b")
  {
    LoneOpeningBraceRejected("a ", " b");
    assert "a " + "{" + " b" == "a { b";
  }

  /** The character after `!` is the conversion even when it is a brace:
      a prompt holding the field `{name!}}` between brace-free texts is
      accepted. */
  lemma ConversionMayBeBrace(p: string, name: string, q: string)
    requires BraceFree(p) && BraceFree(q)
    requires forall k :: 0 <= k < |name| ==> !IsNameSpecial(name[k])
    ensures TemplateAccepted(p + "{" + name + "!}}" + q)
  {
    var t := HumanTemplate(p + "{" + name + "!}}" + q);
    var o := 8 + |p|;
    var b := o + 1 + |name|;
    assert |t| == b + 3 + |q| + 15;
    assert t[..o] == "System: " + p;
    assert t[o + 1..b] == name;
    assert t[o] == '{' && t[b] == '!' && t[b + 1] == '}' && t[b + 2] == '}';
    assert t[b + 3..|t| - 7] == q + "\nHuman: ";
    assert t[|t| - 7..] == "{input}";
    LiteralSkip(t, 0, o);
    assert t[o + 1] != '{';
    FieldSkip(t, o + 1, b);
    LiteralSkip(t, b + 3, |t| - 7);
    FieldSkip(t, |t| - 6, |t| - 1);
  }

  /** For example, the prompt "x{a!}}y" is accepted: a field `a`
      converted by `}`. */
  lemma ConversionBracePromptAccepted()
    ensures TemplateAccepted("x{a!}}y")
  {
    ConversionMayBeBrace("x", "a", "y");
    assert "x" + "{" + "a" + "!}}" + "y" == "x{a!}}y";
  }

  /** `_create_agent()` for the given prompt, model and tools. */
  function BuildExecutor(systemPrompt: string, llm: LlmConfig, tools: seq<Tool>): (e: Executor)
    ensures e.template == HumanTemplate(systemPrompt) && e.llm == llm && e.tools == tools && e.verbose
  {
    Executor(HumanTemplate(systemPrompt), llm, tools, true)
  }

  /** `{"input": input_text}`, the payload `run` hands to the executor. */
  function Payload(inputText: Value): (p: map<string, Value>)
    ensures p.Keys == {"input"} && p["input"] == inputText
  {
    map["input" := inputText]
  }

  /** The observable state of an agent. */
  datatype AgentState = AgentState(name: string, systemPrompt: string, llm: LlmConfig,
                                   tools: seq<Tool>, executor: Executor)

  /** The executor was built from the current prompt. */
  predicate StateSynced(s: AgentState) {
    s.executor == BuildExecutor(s.systemPrompt, s.llm, s.tools)
  }

  /** The state after `update_system_prompt(newPrompt)` when the new
      template parses. */
  function Updated(s: AgentState, newPrompt: string): (t: AgentState)
    ensures t.systemPrompt == newPrompt && t.name == s.name && t.llm == s.llm && t.tools == s.tools
    ensures t.executor == BuildExecutor(newPrompt, s.llm, s.tools)
  {
    s.(systemPrompt := newPrompt, executor := BuildExecutor(newPrompt, s.llm, s.tools))
  }

  /** The state `update_system_prompt(newPrompt)` leaves when the new
      template does not parse: line 53 has already stored the prompt, and
      the raise at line 54 keeps the old executor. */
  function AfterRejectedUpdate(s: AgentState, newPrompt: string): (t: AgentState)
    ensures t.systemPrompt == newPrompt && t.name == s.name && t.llm == s.llm && t.tools == s.tools
    ensures t.executor == s.executor
  {
    s.(systemPrompt := newPrompt)
  }

  /** An accepted update leaves the executor built from the new prompt. */
  lemma UpdatedIsSynced(s: AgentState, p: string)
    ensures StateSynced(Updated(s, p))
  {
  }

  /** Different prompts give different templates. */
  lemma HumanTemplateInjective(p: string, q: string)
    ensures HumanTemplate(p) == HumanTemplate(q) ==> p == q
  {
    if HumanTemplate(p) == HumanTemplate(q) {
      assert |p| == |q|;
      assert p == HumanTemplate(p)[8..8 + |p|];
      assert q == HumanTemplate(q)[8..8 + |q|];
    }
  }

  /** A rejected update to a different prompt leaves a synced agent out of
      sync: it keeps answering with the executor of its former prompt. */
  lemma RejectedUpdateDesyncs(s: AgentState, p: string)
    requires StateSynced(s) && p != s.systemPrompt
    ensures !StateSynced(AfterRejectedUpdate(s, p))
  {
    HumanTemplateInjective(p, s.systemPrompt);
  }

  /** Updating twice with the same prompt is the same as updating once. */
  lemma UpdateIdempotent(s: AgentState, p: string)
    ensures Updated(Updated(s, p), p) == Updated(s, p)
  {
  }

  /** Repeating a rejected update changes nothing more. */
  lemma RejectedUpdateIdempotent(s: AgentState, p: string)
    ensures AfterRejectedUpdate(AfterRejectedUpdate(s, p), p) == AfterRejectedUpdate(s, p)
  {
  }

  /** An accepted update repairs whatever a rejected one left behind. */
  lemma AcceptedAfterRejectedWins(s: AgentState, p: string, q: string)
    ensures Updated(AfterRejectedUpdate(s, p), q) == Updated(s, q)
  {
  }

  /** The last update decides the prompt, whatever came before it. */
  lemma LastUpdateWins(s: AgentState, p: string, q: string)
    ensures Updated(Updated(s, p), q) == Updated(s, q)
  {
  }

  class Agent {
    var name: string
    var systemPrompt: string
    var llm: LlmConfig
    var tools: seq<Tool>
    var executor: Executor

    /** The executor was built from the current prompt. Assigning
        `system_prompt` directly (as app.py:72 does) breaks this until
        the next `update_system_prompt`, and so does a rejected update. */
    ghost predicate Synced()
      reads this
    {
      StateSynced(State())
    }

    function State(): AgentState
      reads this
    {
      AgentState(name, systemPrompt, llm, tools, executor)
    }

    /** Lines 21-32 when the template built from the prompt parses; when
        it does not, `__init__` raises, which `CreateAgent` models. */
    constructor (name: string, systemPrompt: string)
      requires TemplateAccepted(systemPrompt)
      ensures this.name == name && this.systemPrompt == systemPrompt
      ensures llm == GeminiFlash && tools == []
      ensures Synced()
    {
      this.name := name;
      this.systemPrompt := systemPrompt;
      this.llm := GeminiFlash;
      this.tools := [];
      this.executor := BuildExecutor(systemPrompt, GeminiFlash, []);
    }

    /** Lines 52-54: store the prompt, then rebuild the executor from it,
        which raises when the new template does not parse. */
    method UpdateSystemPrompt(newPrompt: string) returns (r: Outcome<()>)
      modifies this
      ensures r.Success? <==> TemplateAccepted(newPrompt)
      ensures r.Success? ==> State() == Updated(old(State()), newPrompt) && Synced()
      ensures r.Failure? ==> State() == AfterRejectedUpdate(old(State()), newPrompt) && r.message == TemplateRejected
    {
      systemPrompt := newPrompt;
      if !TemplateAccepted(systemPrompt) {
        return Failure(TemplateRejected);
      }
      executor := BuildExecutor(systemPrompt, llm, tools);
      return Success(());
    }

    /** Lines 56-57: `self.agent.invoke({"input": input_text})`, with the
        executor's invocation supplied as `invoke`. */
    method Run(invoke: (Executor, map<string, Value>) -> Outcome<Value>, inputText: Value)
      returns (o: Outcome<Value>)
      ensures o == invoke(executor, map["input" := inputText])
    {
      o := invoke(executor, Payload(inputText));
    }
  }

  /** Lines 59-60, `create_agent(name, system_prompt)`: a new agent, or the
      ValueError its template raises. */
  method CreateAgent(name: string, systemPrompt: string) returns (r: Outcome<Agent>)
    ensures r.Success? <==> TemplateAccepted(systemPrompt)
    ensures r.Success? ==> fresh(r.value) && r.value.name == name && r.value.systemPrompt == systemPrompt
                           && r.value.llm == GeminiFlash && r.value.tools == [] && r.value.Synced()
    ensures r.Failure? ==> r.message == TemplateRejected
  {
    if !TemplateAccepted(systemPrompt) {
      return Failure(TemplateRejected);
    }
    var agent := new Agent(name, systemPrompt);
    return Success(agent);
  }

  // Stand-ins for the four role prompts AGENT1_PROMPT..AGENT4_PROMPT
  // (lines 63-140); only their being distinct matters to the model.
  const Agent1Prompt: string := "analyse"
  const Agent2Prompt: string := "propose"
  const Agent3Prompt: string := "refine"
  const Agent4Prompt: string := "synthesise"

  function DefaultPrompts(): (ps: seq<string>)
    ensures |ps| == 4
    ensures forall i, j :: 0 <= i < j < 4 ==> ps[i] != ps[j]
  {
    [Agent1Prompt, Agent2Prompt, Agent3Prompt, Agent4Prompt]
  }

  /** None of the default prompts contains a brace, so all their
      templates parse. */
  lemma DefaultPromptsAccepted()
    ensures TemplateAccepted(Agent1Prompt) && TemplateAccepted(Agent2Prompt)
    ensures TemplateAccepted(Agent3Prompt) && TemplateAccepted(Agent4Prompt)
  {
    StandInsBraceFree();
    PlainPromptAccepted(Agent1Prompt);
    PlainPromptAccepted(Agent2Prompt);
    PlainPromptAccepted(Agent3Prompt);
    PlainPromptAccepted(Agent4Prompt);
  }

  lemma StandInsBraceFree()
    ensures BraceFree(Agent1Prompt) && BraceFree(Agent2Prompt)
    ensures BraceFree(Agent3Prompt) && BraceFree(Agent4Prompt)
  {
  }

  /** Lines 143-146: the module's four agents. */
  method CreateAgents() returns (agents: seq<Agent>)
    ensures |agents| == 4
    ensures forall i :: 0 <= i < 4 ==> fresh(agents[i])
    ensures forall i, j :: 0 <= i < j < 4 ==> agents[i] != agents[j]
    ensures agents[0].name == AgentName(1) && agents[1].name == AgentName(2)
    ensures agents[2].name == AgentName(3) && agents[3].name == AgentName(4)
    ensures forall i :: 0 <= i < 4 ==>
      && agents[i].systemPrompt == DefaultPrompts()[i]
      && agents[i].tools == []
      && agents[i].Synced()
  {
    DefaultPromptsAccepted();
    FirstFourNames();
    var agent1 := new Agent("Agent 1", Agent1Prompt);
    var agent2 := new Agent("Agent 2", Agent2Prompt);
    var agent3 := new Agent("Agent 3", Agent3Prompt);
    var agent4 := new Agent("Agent 4", Agent4Prompt);
    agents := [agent1, agent2, agent3, agent4];
  }
}

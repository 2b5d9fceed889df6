# CoT_Chat_Gemini: a verified model of the four-agent chain

The application answers a chat question by running four language-model
agents one after another. Agent 1 analyses the question, Agent 2 proposes
approaches, Agent 3 refines them and Agent 4 writes the answer. Each agent
after the first receives the original question together with the previous
agent's result. If the previous agent raised instead, it receives a fixed
"encountered an error" text. Every outcome goes into an ordered dict keyed
"Agent 1".."Agent N", and the last entry is the answer.

This project models that orchestration and the state rules around it:

- `chain.dfy` (module `Chain`) follows `langgraph_chain.py`. It covers the
  history conversion, the loop over the agents with its two input
  templates, the outcome trace, and the final lookup that raises
  `KeyError` when there are no agents. The loop is an imperative method
  proved equal to a specification fold (`RunAgents`). Lemmas about that
  fold state the properties.
- `agent_factory.dfy` (module `AgentFactory`) follows `agent_factory.py`.
  It has the `Agent` class (name, prompt, tools, executor), the human
  message template, `update_system_prompt`, `run`, and the four agents
  the module creates.
- `app.py` is modelled in `app.dfy` (module `App`). It covers the retry
  wrapper with exponential backoff and "Restore Defaults". It also covers
  normalising the final answer and a chat turn, which appends the user
  message and then the assistant message to the session's list.
- Shared building blocks are `wrappers.dfy` (`Option`, and `Outcome`,
  which is return-or-raise) and `pytext.dfy` (`str(n)`, `str.isspace`,
  `str.strip`, substring containment). `pyvalues.dfy` has the Python
  objects the agents return (`Value`, whose `Str` is `str()`) and an
  insertion-ordered dict (`OrderedMap`) with Python's assignment
  semantics. `pyformat.dfy` (`PyFormat`) decides whether Python's
  format-string parser accepts a text, which decides whether an agent's
  template can be built. `agent_naming.dfy` (`AgentNaming`) holds the
  name "Agent {i}" that the factory gives its agents and the chain uses
  as trace keys.

The language model is a parameter. The chain sees each agent as a total
function from (input, formatted history) to `Success(result)` or
`Failure(message)`. The retry wrapper sees the wrapped function as
`call: nat -> Outcome<T>`, the outcome of its k-th call. `Agent.Run`
receives the executor's invocation as a function.

Facts about the code that the model follows:

- The code accepts history roles other than user and assistant and drops
  them (langgraph_chain.py:11-15).
- `Agent.run` takes only the input; the history is not passed to the
  model separately (agent_factory.py:56-57).
- The retry wrapper also wraps the chain call of every turn
  (app.py:97-102), and it is modelled.
- Building an agent's executor parses "System: " + prompt +
  "\nHuman: {input}" as a Python format string (agent_factory.py:36). A
  prompt with an unmatched `{` or `}` (for example "a { b") makes that raise ValueError, both in
  `Agent(...)` and in `update_system_prompt`; in the latter the prompt has
  already been stored (line 53), so the agent keeps its old executor.
- `time.sleep` raises ValueError for a negative wait (app.py:37), which
  ends the retry wrapper early.
- The answer the app shows is read from `agent_outcomes["Agent 4"]`, not
  from `output` (app.py:109). `FourAgentsAlwaysReply` proves the two
  agree for the four-agent chain.

## Model

| member | source | states |
|---|---|---|
| `Chain.FormatHistory` | langgraph_chain.py:10-15 | the loop's result is the formatting of the whole history |
| `Chain.FormattedAppend` | langgraph_chain.py:10-15 | formatting works message by message: formatting `a + b` is formatting `a` followed by formatting `b`, so the original order is kept |
| `Chain.FormattedMembers` | langgraph_chain.py:11-15 | a message is in the formatted history iff some history message with role "user" (as Human) or "assistant" (as AI) converts to it; other roles contribute nothing |
| `Chain.NoHistoryIsEmptyHistory` | langgraph_chain.py:6-7 | a missing history gives the same run as an empty one |
| `PyText.NatToString` | langgraph_chain.py:21 | `str(n)` is a non-empty string of decimal digits with no leading zero |
| `PyText.ParseNatToString` | langgraph_chain.py:21 | reading the decimal text of `n` back gives `n` |
| `PyText.NatToStringInjective` | langgraph_chain.py:21 | distinct numbers have distinct decimal texts |
| `AgentNaming.AgentNameInjective` | langgraph_chain.py:21 | keys "Agent {a}" and "Agent {b}" are equal only when a == b |
| `AgentNaming.FirstFourNames` | agent_factory.py:143-146 | the factory's names "Agent 1".."Agent 4" are the chain's keys for positions 1..4 |
| `PyValues.Str` | langgraph_chain.py:29 | `str()` of a string result is the string itself |
| `OrderedMap.Put` | langgraph_chain.py:25 | dict assignment with a new key appends the entry; with an existing key the key order is unchanged |
| `OrderedMap.GetPut` | langgraph_chain.py:25 | after `d[k] = v`, `d[k]` is `v` |
| `OrderedMap.PutOtherKey` | langgraph_chain.py:32 | `d[k] = v` changes no other key's lookup |
| `OrderedMap.Get` | langgraph_chain.py:37 | the lookup fails (KeyError) exactly when the key is absent, and otherwise returns the value of an entry with that key |
| `OrderedMap.GetAt` | langgraph_chain.py:37 | with distinct keys, looking up entry i's key finds entry i's value |
| `Chain.TraceAfter` | langgraph_chain.py:20-32 | after k agents the trace has exactly k entries; entry j is keyed "Agent {j+1}" and holds agent j's result, or "Error: " + message, for the input that agent received |
| `Chain.TraceKeysDistinct` | langgraph_chain.py:21-32 | no two trace entries share a key, so the dict has one entry per agent |
| `Chain.StepIsAssignment` | langgraph_chain.py:22-34 | one iteration, done by dict assignment, appends the agent's entry and sets the next input by the template rule |
| `Chain.RunAgentsLoop` | langgraph_chain.py:17-34 | the loop leaves the trace and the current input the specification fold prescribes |
| `Chain.RunChain` | langgraph_chain.py:5-42 | `run_chain` returns exactly what the specification `ChainSpec` gives: the last agent's entry and the whole trace, or KeyError |
| `Chain.ChainShape` | langgraph_chain.py:17-42 | the run returns iff there is at least one agent; with none it raises KeyError('Agent 0'); otherwise the trace has N distinct entries "Agent 1".."Agent N" in order, every agent having run whatever the failures, with the same formatted history, and the output is the "Agent N" entry verbatim, an error text included |
| `Chain.FirstInputIsQuestion` | langgraph_chain.py:18 | agent 1 receives the question verbatim |
| `Chain.InputAfterSuccess` | langgraph_chain.py:25-29 | after agent j succeeds with r and another agent follows, the next input is the success template of the question and str(r) |
| `Chain.InputAfterFailure` | langgraph_chain.py:31-34 | after agent j raises and another agent follows, the next input is the failure template of the question |
| `Chain.SuccessTemplateContents` | langgraph_chain.py:29 | the success template contains the question and "Previous analysis: " followed by the previous result |
| `Chain.FailureTemplateContents` | langgraph_chain.py:34 | the failure template contains the question and "Previous agent encountered an error" |
| `Chain.TemplatesDiffer` | langgraph_chain.py:29-34 | no success template equals the failure template |
| `AgentFactory.Agent.constructor` | agent_factory.py:21-32 | for a prompt whose template parses: name and prompt stored unchanged, no tools, the Gemini model, and an executor built from the prompt (the raising case is `CreateAgent`) |
| `AgentFactory.CreateAgent` | agent_factory.py:59-60 | a new agent, as the constructor describes, exactly when the prompt's template parses; otherwise the ValueError and no agent |
| `AgentFactory.FillInput` | agent_factory.py:36 | filling the template replaces its trailing `{input}` placeholder by the input; the `None` result for a text without that placeholder is the model's own convention, and no template built here lacks it |
| `PyFormat.NoBracesParse` | agent_factory.py:36 | a text without braces is always accepted by Python's format-string parser |
| `AgentFactory.PlainPromptAccepted` | agent_factory.py:36 | a prompt without braces gives a template that parses |
| `AgentFactory.LoneClosingBraceRejected` | agent_factory.py:36 | a prompt whose first brace is a single `}` gives a template that raises ValueError |
| `AgentFactory.LoneOpeningBraceRejected` | agent_factory.py:36 | a prompt whose only brace is a single `{`, with no `}`, `[`, `:` or `!` after it, gives a template that raises ValueError |
| `AgentFactory.ConversionMayBeBrace` | agent_factory.py:36 | the character after `!` is a conversion even when it is `}`: a field `{name!}}` between brace-free texts is accepted |
| `AgentFactory.ConversionBracePromptAccepted` | agent_factory.py:36 | the prompt "x{a!}}y" is accepted |
| `AgentFactory.SingleBracePromptRejected` | agent_factory.py:36 | the prompt "a { b" is rejected |
| `AgentFactory.HumanTemplate` | agent_factory.py:36 | the template text: "System: " + prompt + "\nHuman: {input}", the doubled braces leaving a literal `{input}` placeholder |
| `PyFormat.FormatParses` | agent_factory.py:36 | whether Python's `string.Formatter().parse` accepts a text; LangChain's `from_template` raises ValueError when it does not |
| `AgentFactory.TemplateAccepted` | agent_factory.py:36 | whether the template built from a prompt parses, that is whether building the executor does not raise |
| `AgentFactory.BuildExecutor` | agent_factory.py:34-50 | the executor carries the prompt's template, the agent's model, its tools and verbose=True |
| `AgentFactory.RenderedHumanMessage` | agent_factory.py:36 | for a prompt without braces, the human message is "System: " + prompt + "\nHuman: " + input |
| `AgentFactory.Updated` | agent_factory.py:52-54 | updating sets the new prompt, rebuilds the executor from it, and keeps name, model and tools |
| `AgentFactory.AfterRejectedUpdate` | agent_factory.py:52-54 | a rejected update stores the new prompt and keeps the old executor, name, model and tools |
| `AgentFactory.UpdatedIsSynced` | agent_factory.py:52-54 | after an accepted update the executor is built from the new prompt |
| `AgentFactory.RejectedUpdateDesyncs` | agent_factory.py:52-54 | a rejected update to a different prompt leaves a synced agent with an executor that no longer matches its prompt |
| `AgentFactory.Agent.UpdateSystemPrompt` | agent_factory.py:52-54 | the update succeeds exactly when the new template parses; then the new state is the old one updated with the prompt and the executor matches it; otherwise it raises, with the new prompt stored and the old executor kept |
| `AgentFactory.UpdateIdempotent` | agent_factory.py:52-54 | updating twice with the same prompt equals updating once |
| `AgentFactory.LastUpdateWins` | agent_factory.py:52-54 | of two accepted updates in a row, the second alone decides the state |
| `AgentFactory.RejectedUpdateIdempotent` | agent_factory.py:52-54 | repeating a rejected update equals doing it once |
| `AgentFactory.AcceptedAfterRejectedWins` | agent_factory.py:52-54 | an accepted update after a rejected one gives the state the accepted update alone gives |
| `AgentFactory.Payload` | agent_factory.py:57 | the executor's input is a dict with the single key "input" holding the argument |
| `AgentFactory.Agent.Run` | agent_factory.py:56-57 | `run(x)` is the current executor invoked on `{"input": x}` |
| `AgentFactory.DefaultPrompts` | agent_factory.py:143-146 | there are four default prompts and they are pairwise distinct |
| `AgentFactory.DefaultPromptsAccepted` | agent_factory.py:143-146 | the templates of the four default prompts parse, so building the module's agents does not raise |
| `AgentFactory.CreateAgents` | agent_factory.py:143-146 | four distinct fresh agents, named `AgentName(1)`..`AgentName(4)` (the chain's keys), carrying the four default prompts in order, with no tools and a matching executor |
| `App.RetryWithExponentialBackoff` | app.py:20-39 | at most max_retries calls; the first success is returned and no call follows it; if all max_retries calls fail, the last error is re-raised with no wait after it; a failure before the last attempt whose wait is negative raises the sleep's ValueError instead of retrying; with max_retries <= 0 nothing is called and None is returned; one non-negative wait before each retry |
| `App.WaitBeforeIsPower` | app.py:29-38 | the wait before retry k+1 is initial_wait * exponential_base^k |
| `App.DefaultRetryOfFailingCall` | app.py:20-39 | with the defaults, a call that always fails is tried 3 times, with waits of 1 and 2 seconds, and its error is re-raised |
| `App.NegativeInitialWaitRaises` | app.py:29-37 | with initial_wait = -1, a call that always fails is made once and `time.sleep(-1)` raises |
| `App.NegativeBaseRaises` | app.py:29-38 | with exponential_base = -2, a call that always fails is made twice, one wait of 1 is slept, and `time.sleep(-2)` raises |
| `App.AcceptedPrefix` | app.py:77-78 | counts the leading prompts whose templates parse: all before it parse, and the one at it (if any) is rejected |
| `App.DefaultsRestoreFully` | app.py:76-78 | all four default prompts are accepted, so "Restore Defaults" never raises |
| `App.RestoreDefaults` | app.py:76-78 | agents paired by zip are updated in order; it succeeds exactly when every paired default is accepted; each agent before the first rejected default gets that default with its executor rebuilt; the rejected one keeps its old executor under the new prompt and the loop stops there, leaving later agents untouched |
| `PyText.TrimStart` | app.py:116 | `lstrip` drops only leading whitespace, and the result starts with a non-space |
| `PyText.TrimEnd` | app.py:116 | `rstrip` drops only trailing whitespace, and the result ends with a non-space |
| `PyText.Strip` | app.py:116 | `strip` returns a slice of the string with only whitespace outside it and no whitespace at either end |
| `PyText.StripIdempotent` | app.py:116 | stripping twice equals stripping once |
| `App.NormalizeFinalOutput` | app.py:111-116 | a dict holding 'output' becomes that value; a string becomes its stripped form; anything else is unchanged |
| `App.NormalizeTextIdempotent` | app.py:115-116 | a normalised string answer is not changed by normalising again |
| `App.KeyErrorMessage` | app.py:103-105 | `str(KeyError('Agent 0'))`, for the only key the chain raises on, is `'Agent 0'`; other keys are not needed by the model |
| `App.ChainAttempt` | app.py:97-99 | one call of `run_chain_with_retry` succeeds exactly when the chain returns, with its response; otherwise it raises the KeyError for the missing key |
| `App.TurnReply` | app.py:108-116 | a reply exists exactly when the chain returns and its trace has an "Agent 4" entry; the reply is that entry normalised |
| `App.FourAgentsAlwaysReply` | app.py:108-116 | with four agents the chain returns, and the turn's answer is the normalised chain output (the "Agent 4" entry) |
| `App.HistoryEndsWithQuestion` | app.py:89-99 | the history handed to the chain ends with the current question as a Human message |
| `App.ChatSession.constructor` | app.py:81-82 | a new session has no messages |
| `App.ChatSession.SubmitTurn` | app.py:88-120 | an empty prompt changes nothing; otherwise the user message is appended first and the chain runs on the list that includes it; then the normalised "Agent 4" entry is appended as the assistant message, unless the chain kept raising or has no such entry |

## Left out

- The language model, LangChain's `AgentExecutor`, the prompt and parser pipeline and `format_to_openai_function_messages` (agent_factory.py:24-30, 40-50) are foreign library and network calls. Agents are functions passed in.
- The mismatch between the chain and `Agent.run` is left out (langgraph_chain.py:24, agent_factory.py:56-57). The chain passes a dict, which `run` wraps again under "input". The chain's agents are abstract functions, not `Agent` objects.
- AgentFactory.RenderedHumanMessage: stated only for prompts without braces. In an accepted prompt with braces, `{{` and `}}` render as single braces, and a field such as the one in `{"a": 1}` makes invocation raise for its missing variable.
- AgentFactory.FillInput: the system prompt is treated as literal text. In a prompt that the parser accepts, LangChain reads `{{` and `}}` as single braces and other fields as further placeholders (whose missing values raise at invocation); the model substitutes only the trailing `{input}`.
- PyFormat.FormatParses: only acceptance by Python's format-string parser is modelled, not the fields it returns or the text of its error (all are `TemplateRejected`). Checks on variable names that some LangChain versions add are left out.
- The Streamlit UI is left out: rendering, sidebar widgets, `st.error`, `st.warning`, `st.stop`, the expander (app.py:62-75, 84-87, 123-130). Line 72 assigns `system_prompt` directly without rebuilding the executor. That is why executor/prompt agreement (`Synced`) is a postcondition of the constructor and of `UpdateSystemPrompt`, not an invariant of the class.
- Credential loading (`dotenv`, `os.getenv`, `st.secrets`; agent_factory.py:10-18, app.py:11-18) is environment I/O.
- App.RetryWithExponentialBackoff: `time.sleep` also raises (OverflowError or OSError) for a wait of about 2**63 nanoseconds, roughly 9.2e9 seconds, or more; the model sleeps any non-negative wait, because that limit is platform-dependent. The application passes 1 and 2, so its waits are 1 and 2 seconds.
- App.RetryWithExponentialBackoff: `time.sleep` and the warning text are not performed. The waits are returned as a list; the ValueError of a negative wait is the result `SleepRejected`, without Python's message text. `initial_wait` and `exponential_base` are integers (Python also accepts floats). Only `Exception` subclasses are modelled as failures.
- The model initialisation under retry (app.py:41-52) is left out. It is one more application of the retry wrapper to a library call.
- The texts of AGENT1_PROMPT..AGENT4_PROMPT (agent_factory.py:63-140) are replaced by four distinct stand-in strings. The stand-ins contain no braces, like the real texts, so `DefaultPromptsAccepted` and `DefaultsRestoreFully` carry over to the real prompts.
- `str()` of a non-string agent result is Python's repr. The model carries that text inside the value rather than computing it.
- Chat messages always have "role" and "content" keys, so the `KeyError` a malformed message would raise is not modelled. LangChain also rejects message content that is not a string; the model does not.
- Concurrency across browser sessions is left out: the module-level agents are shared without locks, and a prompt update racing an in-flight run is not modelled.

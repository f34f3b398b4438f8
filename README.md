# Agent control loop of the GDPR auditor, in Dafny

This project models the control loop of the GDPR compliance auditor agent (`run_audit` in
`agent.py`). The agent drives a language model that may ask for tools to be run, runs those
tool calls against a tool-provider process, and feeds the results back into the conversation.
It repeats this until the model gives a final answer or ten iterations have passed.

The model has three modules:

- `Messages` (`messages.dfy`): the history entries (system, human, assistant with its tool
  calls, tool result), what a model invocation returns, and two predicates over histories.
  `Answers` says that a tool message echoes a call's identifier and name. `ValidExchanges`
  says that every assistant reply is followed by exactly one answering tool message per tool
  call, in request order, and that a reply without tool calls comes last.
- `ToolResults` (`tool_results.dfy`): turning one tool outcome into the text of its tool
  message. Text items are concatenated in order. The placeholder
  `"Tool executed (no text output returned)."` is used for missing or empty content. Output
  over 20,000 characters is cut and `"... [Truncated]"` is appended. Any exception becomes
  `"Error executing tool: " + message`. `NormaliseResult` is the imperative accumulation
  loop. It is proved equal to the function `Normalised`, and lemmas about `Normalised`
  prove the properties. The function `JoinText` is the item-by-item accumulation of the
  text (agent.py:97-101).
- `Agent` (`agent.dfy`): the class `AuditRun` holds the `messages` list and the `iteration`
  counter, as the source does. `Run` is the bounded `while` loop and `DispatchToolCalls` is
  the `for` loop over tool calls. Both are proved against the reference functions `RunLoop`
  and `Dispatched`. The function `OutcomeOf` is the post-loop check (agent.py:119-120),
  which turns the loop's final state into the report and the "max iterations reached" flag.
  Lemmas about those functions give the bound, the append-only history,
  the ordered pairing of results with calls, the stop on a plain reply, failure containment
  and the exhaustion flag.

The two external collaborators are parameters:

- The model is a function from the history to a reply `(content, toolCalls)`, or to the
  exception it raised.
- The tool gateway is a function from a tool call to its outcome. The outcome is a result
  whose content list may be missing, or a raised exception. The gateway also receives the
  history up to that call. This stands for the external browser state the tool provider has
  reached, so the same call can give different results at different points of the run.

Behaviour of the code that is easy to overlook:

- The placeholder replaces only missing or empty content. A non-empty content list with no
  text items gives `""`, not the placeholder (`NonTextOnlyGivesEmpty`).
- Tool calls are issued and answered strictly one after another. There is no concurrent
  execution and no reordering.
- Arguments are not validated against the tool's schema. They are forwarded unchanged.
- The "max iterations reached" diagnostic is given whenever the counter is at 10 after the
  loop. This includes a final answer given on the tenth iteration
  (`FinalAnswerOnLastIteration`).

## Model

| member | source | states |
|---|---|---|
| `Agent.AuditRun.constructor` | agent.py:55-63 | The history starts as exactly `[SystemMessage(prompt), HumanMessage("Audit this URL: " + target)]`, with the counter at 0. |
| `Agent.AuditRun.Run` | agent.py:61-120 | The `while` loop leaves exactly the history, the counter and the outcome that the reference loop `RunLoop` gives from the old state. |
| `Agent.AuditRun.DispatchToolCalls` | agent.py:85-117 | Executing the calls one by one appends exactly `Dispatched(...)`: one tool message per call, in request order. The counter is unchanged. |
| `Agent.RunAudit` | agent.py:55-120 | A whole run's history begins with the initial two messages. Everything after them is valid exchanges. It holds at most 10 assistant replies. A report is the text of the last message, a reply without tool calls. The history and the outcome are exactly the ones the reference loop `RunLoop` builds from the initial history. |
| `Agent.Dispatched` | agent.py:85-117 | Dispatching k tool calls appends exactly k messages. |
| `Agent.DispatchedAt` | agent.py:85-117 | The i-th appended message is a tool message with the i-th call's id and name. Its content is the normalised outcome of the i-th call, made after the i earlier results were appended. |
| `Agent.DispatchedAnswers` | agent.py:85-117 | Every appended message answers the call at the same position: same id, same name. |
| `Agent.DispatchedHasNoReply` | agent.py:85-117 | The messages appended for the tool calls of one reply contain no assistant message: they add nothing to the count of model replies. |
| `Agent.LoopBounded` | agent.py:62-72 | The counter never exceeds 10. Every iteration appends exactly one model reply, except an iteration whose model invocation raised. So at most 10 replies are appended. |
| `Agent.LoopAppendsExchanges` | agent.py:67-117 | The loop only appends to the history. What it appends is valid exchanges: each reply is followed by exactly one answering tool message per call, in order, before the next reply. A reply without tool calls can only come last. |
| `Agent.FinalAnswerIsLast` | agent.py:72-80 | When the loop ends with a final answer, that answer is the last message of the history and makes no tool call. Nothing is appended after it. |
| `Agent.PlainReplyEnds` | agent.py:67-80 | A reply without tool calls at any iteration, the tenth included (counter below 10 before the increment), ends the loop at the next counter value. The reply is the last message appended, and its text is the final answer. |
| `Agent.NoAnswerMeansExhausted` | agent.py:67-120 | The loop ends without a final answer only when the counter has reached 10. So a run that completes without a report always gives the "max iterations reached" diagnostic. |
| `Agent.AlwaysDelegatingExhausts` | agent.py:67-120 | If the model asks for tools on every reply, the loop runs all 10 iterations. It produces no report and gives the "max iterations reached" diagnostic. |
| `Agent.ToolFailureContained` | agent.py:92-117 | A tool call that raises still gets its tool message, holding `"Error executing tool: " + message`. The loop then continues to the next iteration exactly as after a successful call. |
| `Agent.PlainFirstReply` | agent.py:67-80 | A first reply without tool calls ends the run at iteration 1. The report is that reply's text verbatim. Nothing is appended after the reply, and no diagnostic is given. |
| `Agent.FinalAnswerOnLastIteration` | agent.py:119-120 | A final answer on the tenth iteration still gives the "max iterations reached" diagnostic. |
| `ToolResults.NormaliseResult` | agent.py:92-110 | Accumulating the text items in a loop, applying the placeholder and truncation, and capturing exceptions gives exactly `Normalised(outcome)`. |
| `ToolResults.Truncate` | agent.py:105-107 | The result is at most 20,015 characters long. A string of at most 20,000 characters is unchanged. A longer one becomes its first 20,000 characters followed by `"... [Truncated]"`. |
| `ToolResults.TruncateIdempotent` | agent.py:105-107 | Applying the truncation rule twice gives the same string as applying it once. |
| `ToolResults.JoinTextReadable` | agent.py:97-101 | When no item raises, the parsed text is the in-order concatenation of the texts of the items that have one. Items without text are skipped. This is proved against the independent left-to-right definition `ConcatTexts`. |
| `ToolResults.JoinTextFirstError` | agent.py:97-110 | When the item at i is the first whose text raises, parsing fails with that item's error. |
| `ToolResults.JoinTextErrorPersists` | agent.py:97-110 | Once parsing a prefix has raised, the remaining items do not change the result. |
| `ToolResults.NonTextOnlyGivesEmpty` | agent.py:97-103 | A non-empty content list with no text items gives `""`, not the placeholder. |
| `ToolResults.SuccessfulCallContent` | agent.py:94-107 | For a call that raises nothing, the content is the truncated text of its items, or the truncated placeholder when the content is missing or empty. It is never longer than 20,015 characters. |
| `ToolResults.FailureContained` | agent.py:92-110 | An exception from the call or from parsing gives `"Error executing tool: " + message`, with no truncation. |
| `ToolResults.OnlyErrorsExceedBound` | agent.py:105-110 | Any content longer than 20,015 characters is an error text. |
| `ToolResults.ShortOutputKept` | agent.py:97-107 | A tool answering `"Hello"` gets exactly `"Hello"`. |
| `ToolResults.LongOutputTruncated` | agent.py:105-107 | A tool answering 25,000 `'a'`s gets the first 20,000 followed by `"... [Truncated]"`. |

## Left out

- Tool-provider setup (agent.py:32-53) is not modelled. This covers the `npx` subprocess, the stdio transport, session initialisation and tool discovery. It is process and I/O plumbing. The tool catalog plays no part in the loop beyond what the model is told.
- The Gemini client and `bind_tools` are not modelled. The model is a function parameter from the history to a reply or an exception.
- `async`/`await` and `asyncio.run` are not modelled. The awaits run one at a time, so the model is sequential code.
- All printing, the logging configuration and the `KeyboardInterrupt` handler are not modelled. The printed report is the `report` of the outcome, and the printed diagnostic is `maxIterationsReached`.
- `RunAudit` returns the outcome and the final history. The source returns nothing and only prints. The history is returned so that its properties can be stated.
- Exception messages (`str(e)`) and the prompt text are opaque strings.
- A model invocation that raises ends the run as `Crashed`. In the source the exception propagates out of `run_audit` and skips the post-loop check.
- The `isError` flag of a tool result is not modelled, because the source never reads it. A tool that reports an error as text content is treated like any other text.
- Tool arguments are held as a map from names to JSON text. They are never inspected, only forwarded.
- Only one parsing exception is modelled: an item whose `text` is not a string, so that appending it raises. Other malformed responses are modelled as the call itself raising.
- When a reply has both text and tool calls, the text stays in the history but is otherwise ignored. This matches the source. No other interpretation is modelled.

# Agent Neo, modelled in Dafny

Agent Neo is a small conversational front-end. An interactive loop reads lines from the user. It passes each line that is not a command to an agent. The agent keeps the conversation history and relays the message, with that history and a system prompt, to a language-model backend through LiteLLM. By default it streams the answer to the console chunk by chunk.

This project models the three parts of the program that hold logic:

- `provider.dfy` (module `Provider`) models `LiteLLMProvider`. It builds the message list of a completion request: the system prompt when it is truthy, then the prior conversation, then the new user message. It also filters a streamed response down to its non-empty chunks. The `litellm.completion` call is an abstract `Backend` value. That value holds two total functions of the request: one gives the non-streaming outcome (a content string, or a raised exception), and the other gives what a streaming call delivers (the optional `delta.content` of each chunk in arrival order, then the exception the stream raised, if any).
- `agent.dfy` (module `Agent`) models `AgentNeo`, a class whose `conversation` field is a `seq<Message>`. A successful `chat` appends a user entry and then an assistant entry. A failed call appends nothing, because the appends come only after the whole response has arrived. `clear_history` empties the history. `Respond` is the function that specifies one turn, and `Chat` is proved against it.
- `cli.dfy` (module `Cli`) models the `main` loop. `Classify` strips a line and decides between skip, quit/exit, clear (both case-insensitive) and a chat turn. `Step` is one pass of the loop body, and `Replay` runs it over a sequence of input events: a line, a keyboard interrupt, or the end of the input. `RunMain` is the loop itself, written as a `while` loop that drives a real `AgentNeo` and is proved equal to `Replay`. The backend that answers the k-th chat call of a session is `network(k)`, so successive calls may succeed or fail independently.
- `runtime.dfy` (module `Runtime`) holds the Python behaviour these parts rely on: `None`, raised exceptions, truthiness of a string, `"".join`, `str.strip()` with Python's whitespace set, and `str.lower()`.

The source has no loop in which the model calls tools. The only agent that uses tools (`src/agent_neo/strands_agent.py`) hands the tool functions to the Strands library, and that library's dispatch is not part of this model.

## Model

| member | source | states |
|---|---|---|
| `Provider.Messages` | src/agent_neo/provider.py:37-50 | When the prompt is truthy, the first message is `{system, system_prompt}`; otherwise the list starts with the prior conversation. The prior conversation follows unchanged and in order (nothing for None or an empty list). The last message is `{user, message}`. The length is the sum of those parts. |
| `Provider.LiteLLMProvider.BuildMessages` | src/agent_neo/provider.py:44-50 | The list grown step by step in a fresh local variable is exactly `Messages`. |
| `Provider.LiteLLMProvider.Chat` | src/agent_neo/provider.py:52-76 | Sends one non-streaming request over `Messages` with the provider's model, base address and timeout. Returns the backend's content, or lets its exception escape. |
| `Provider.LiteLLMProvider.ChatStream` | src/agent_neo/provider.py:78-105 | Sends one streaming request over the same message list as `Chat`. Yields exactly `Chunks` of the delivered deltas, then passes on the stream's failure. |
| `Provider.LiteLLMProvider.constructor` | src/agent_neo/provider.py:20-35 | Stores the model, base address and timeout. |
| `Provider.Chunks` | src/agent_neo/provider.py:102-105 | Every yielded chunk is non-empty, and there is at most one per delta. |
| `Provider.ChunksAppend` | src/agent_neo/provider.py:102-105 | Filtering works delta by delta in arrival order: the chunks of `a + b` are the chunks of `a` followed by those of `b`. |
| `Provider.ChunksJoinAsContents` | src/agent_neo/provider.py:102-105 | Dropping empty and missing contents loses no text: the join of the chunks equals the join of all non-None deltas. |
| `Agent.AgentNeo.constructor` | src/agent_neo/agent.py:15-29 | A new agent has an empty conversation, the given system prompt and streaming flag, and a provider with the 120-second timeout. |
| `Agent.CreateAgent` | src/agent_neo/agent.py:69-78 | Creates a fresh agent with the default system prompt and the requested streaming flag. |
| `Agent.AgentNeo.Sent` | src/agent_neo/agent.py:40-56 | The request of a turn carries the system prompt (unless empty), then the pre-turn history, which does not yet hold the new message, then the message as the single last user entry. It is the same in both modes apart from the stream flag. |
| `Agent.Record` | src/agent_neo/agent.py:58-60 | After a success, the history grows by exactly 2. Earlier entries are unchanged, and the two new ones are `{user, message}` and `{assistant, response}`. After an exception the history is unchanged. |
| `Agent.RecordKeepsPaired` | src/agent_neo/agent.py:58-60 | Recording a turn keeps the history a sequence of user/assistant pairs. |
| `Agent.StreamedTurn` | src/agent_neo/agent.py:40-50 | In streaming mode, the turn fails exactly when the stream raises, and then only the chunks delivered before the failure were printed. Otherwise the response is the in-order join of all delivered contents, and what is printed is those chunks followed by a newline. |
| `Agent.PlainTurn` | src/agent_neo/agent.py:51-56 | In non-streaming mode, the turn prints nothing and returns or raises what the backend answers to the request with the pre-turn history. |
| `Agent.AgentNeo.Respond` | src/agent_neo/agent.py:40-56 | Definition of one turn: the response or raised exception, and the text printed on the way. `Chat` is proved against it, and its properties are stated by `StreamedTurn` and `PlainTurn`. |
| `Agent.AgentNeo.Chat` | src/agent_neo/agent.py:31-62 | The response and printed text are those of `Respond` on the pre-turn history. The new history is `Record` of the old one. The returned value is the content of the assistant entry just appended. |
| `Agent.AgentNeo.ClearHistory` | src/agent_neo/agent.py:64-66 | The history is empty afterwards, whatever it held, so clearing twice is the same as clearing once. |
| `Agent.StreamingMatchesNonStreaming` | src/agent_neo/agent.py:40-56 | A streaming agent and a non-streaming agent give the same response and the same new history when the backend, asked the same request with only the stream flag set, streams without failure deltas that join to its non-streaming answer. |
| `Agent.HelloScenario` | src/agent_neo/agent.py:31-62 | "Hello" to a backend answering "Hi there!" (streamed with an empty and a missing delta) returns "Hi there!". The history becomes exactly that exchange. |
| `Runtime.JoinAppend` | src/agent_neo/agent.py:50 | `"".join` of a concatenation is the concatenation of the joins. |
| `Runtime.StripLeftDropsSpace` | src/agent_neo/main.py:16 | Leading-whitespace removal keeps a suffix. Every dropped character is whitespace, and the first kept one is not. |
| `Runtime.StripRightDropsSpace` | src/agent_neo/main.py:16 | Trailing-whitespace removal keeps a prefix. Every dropped character is whitespace, and the last kept one is not. |
| `Runtime.StripTrims` | src/agent_neo/main.py:16 | `strip()` returns the infix between the leading and trailing whitespace. The result neither starts nor ends with whitespace, and it is empty exactly when the line is all whitespace. |
| `Runtime.StripIdempotent` | src/agent_neo/main.py:16 | Stripping a stripped text changes nothing. |
| `Runtime.Lower` | src/agent_neo/main.py:21-25 | `lower()` keeps the length and lowers each character on its own. |
| `Runtime.StripLower` | src/agent_neo/main.py:16-25 | Stripping and lowering commute. |
| `Cli.Classify` | src/agent_neo/main.py:16-31 | The line is stripped before any check. It is skipped exactly when the stripped text is empty. A chat turn is given the stripped, non-empty text. |
| `Cli.BlankLinesSkipped` | src/agent_neo/main.py:16-19 | A line is skipped exactly when it consists only of whitespace. |
| `Cli.SaidTextIsStripped` | src/agent_neo/main.py:16-31 | The text passed to `chat` is already stripped, and classifying it again gives the same turn. |
| `Cli.ClassifyIgnoresCase` | src/agent_neo/main.py:21-28 | Two lines that agree once lowered lead to the same command, or are both chat turns. |
| `Cli.ClassifyExamples` | src/agent_neo/main.py:21-23 | The one example `" QUIT\n"` is classified as quit. |
| `Cli.ChatTurn` | src/agent_neo/main.py:30-38 | Definition of a chat turn inside the loop; its effects are stated by `Step`, `ShownReplyIsStored` and `FailedTurnReported`. |
| `Cli.ShownReplyIsStored` | src/agent_neo/main.py:30-32 | After a successful streamed turn, the text shown after the prompt is exactly `"Agent Neo: "`, the assistant entry just stored in the history, the stream's closing newline, and the loop's newline. A non-streaming agent shows only the prefix and the newline, because the loop discards the value `chat` returns. |
| `Cli.Dispatch` | src/agent_neo/main.py:18-31 | Definition of what the loop does with a read line; its effects are stated by `Step`. |
| `Cli.Step` | src/agent_neo/main.py:14-38 | A pass prints the prompt and reads one input. An empty line changes nothing else. `quit`/`exit` stops without a chat call and keeps the history. `clear` empties the history and goes on. Any other text is exactly one chat call. An interrupt stops the loop, and so does the end of the input (the corrected handling; see Findings). A stopped loop reads nothing more. |
| `Cli.Replay` | src/agent_neo/main.py:14-38 | Definition of the corrected `while True` loop over a sequence of inputs, one `Step` per input. |
| `Cli.FailedTurnReported` | src/agent_neo/main.py:37-38 | A chat turn that raises a backend error is reported as `"\nError: " + str(e)`. The loop goes on with the history it had before the turn. |
| `Cli.StoppedIsFinal` | src/agent_neo/main.py:21-23 | Once the loop has stopped, further inputs change nothing. |
| `Cli.ReplayAppend` | src/agent_neo/main.py:14-38 | Running the loop over two input sequences in turn is running it over their concatenation. |
| `Cli.IgnoredAfterStop` | src/agent_neo/main.py:21-23 | Inputs after the one that ends the loop have no effect. |
| `Cli.QuitEndsSession` | src/agent_neo/main.py:21-23 | `quit`/`exit` in any letter case ends the session at once, with no chat call, no history change and no further input read. |
| `Cli.OneCallPerChatLine` | src/agent_neo/main.py:30-31 | While the loop runs, the number of chat calls equals the number of input lines that are neither empty nor a command. Every input is read exactly once. |
| `Cli.CallsCountReadChatLines` | src/agent_neo/main.py:14-38 | Whether the loop is still running or has ended by `quit`, an interrupt or the end of input, it has read a prefix of the inputs. It has made exactly one chat call per chat-turn line in that prefix. |
| `Cli.ReplayKeepsPaired` | src/agent_neo/main.py:25-31 | The history that the loop leaves behind is always a sequence of user/assistant pairs. |
| `Cli.EndOfInputEndsSession` | src/agent_neo/main.py:34-36 | With the corrected handling, the end of the input ends the session the way an interrupt does, with no chat call and no history change. |
| `Cli.StepAsWritten` | src/agent_neo/main.py:14-38 | Definition of one pass as written: an EOFError from `input()` is reported as an error and the loop goes on. Every other input is handled as by `Step`. |
| `Cli.ReplayAsWritten` | src/agent_neo/main.py:14-38 | Definition of the loop as written over a sequence of inputs. |
| `Cli.StoppedIsFinalAsWritten` | src/agent_neo/main.py:21-23 | As written too, once the loop has stopped, further inputs change nothing. |
| `Cli.OneCallPerChatLineAsWritten` | src/agent_neo/main.py:30-31 | As written too, while the loop runs, the number of chat calls equals the number of chat lines, and every input is read exactly once. |
| `Cli.CallsCountReadChatLinesAsWritten` | src/agent_neo/main.py:14-38 | As written too, the loop has read a prefix of the inputs and made exactly one chat call per chat-turn line in it. |
| `Cli.ReplayAsWrittenKeepsPaired` | src/agent_neo/main.py:25-31 | As written too, the history the loop leaves behind is a sequence of user/assistant pairs. |
| `Cli.AsWrittenEofNeverStops` | src/agent_neo/main.py:14-38 | As written, however many EOFErrors `input()` raises, the loop keeps running with no chat call and the history unchanged. It reads each of them once. For each one it prints the prompt and then `"\nError: " + str(e)`, in order, after the earlier output. |
| `Cli.Serve` | src/agent_neo/main.py:15-38 | One pass of the loop body on a running loop (the corrected loop; see Findings), which drives the agent's `ClearHistory` and `Chat`. The new history, the printed text, the call count and whether the loop goes on are exactly one `Step`. |
| `Cli.RunMain` | src/agent_neo/main.py:6-38 | Prints the banner, creates a streaming agent, and runs the loop (the corrected loop; see Findings). The final history, the printed text and the number of inputs read are those of `Replay` from an empty session. |

## Left out

- Tool calling is not modelled. The source has no tool-call loop: `src/agent_neo/strands_agent.py` passes the tools to the Strands `Agent`, whose dispatch is foreign code. So there are no `tool` messages and no four-entry history growth.
- `src/agent_neo/tools.py` is not part of this model. Every branch in it depends on `httpx` and `datetime` calls and on the library's exception hierarchy.
- `src/agent_neo/strands_agent.py`, `src/agent_neo/config.py` and `test_gateway.py` are not part of this model. The first only constructs foreign objects, the second only holds constants, and the third only talks to a live gateway.
- `src/agent_neo/provider.py:11` imports `API_BASE` and `MODEL_ID`, which `config.py` does not define (it defines `GATEWAY_BASE` and `GATEWAY_MODEL`). The model therefore takes the model identifier and base address as parameters of the agent. Only the timeout constant (120 seconds) is kept.
- The network call inside `litellm.completion` is an abstract `Backend` function of the request. Within one session the loop consults `network(k)` for the k-th call, so a retried request can get a different answer. The model does not capture a non-streaming content of None.
- Console output is a list of printed pieces (the transcript); flushing is not modelled. Reading from the console is a sequence of input events, and the prompt printed by `input()` is part of the transcript.
- Keyboard interrupts are modelled when they arrive during `input()` or during the backend call or stream. An interrupt during printing, during `clear_history`, or between the two history appends (src/agent_neo/agent.py:59-60) is not modelled. Such an interrupt would leave a user entry without its assistant entry.
- `chat_stream` is a lazy generator. The model computes its chunks at once, and the agent then prints them one by one. The printed text, the response and the history come out the same, because the agent consumes the generator immediately and completely.
- `Runtime.Lower`: lowers ASCII letters only, because Python's full Unicode case mapping is not modelled. This matters only for comparing a line with `quit`, `exit` and `clear`.
- Messages are records with a role of system, user or assistant and a text content. The untyped dictionaries of the source, and the aliasing of those dictionaries between the caller's list and the built list, are not modelled. Dafny sequences are values, so `_build_messages` cannot change the caller's list.
- `Cli.Step`: ends the loop at the end of the input, which is the corrected handling described under Findings. `Cli.Replay`, `Cli.RunMain`, `Cli.Serve` and the lemmas over `Replay` (`StoppedIsFinal`, `ReplayAppend`, `IgnoredAfterStop`, `QuitEndsSession`, `OneCallPerChatLine`, `CallsCountReadChatLines`, `ReplayKeepsPaired`, `EndOfInputEndsSession`) therefore model the corrected loop. The code as written is `Cli.StepAsWritten` and `Cli.ReplayAsWritten`, with `StoppedIsFinalAsWritten`, `OneCallPerChatLineAsWritten`, `CallsCountReadChatLinesAsWritten`, `ReplayAsWrittenKeepsPaired` and `AsWrittenEofNeverStops` stated over it.

## Findings

| source | as written | input that shows it | evidently intended | confidence | as-written member | corrected member |
|---|---|---|---|---|---|---|
| src/agent_neo/main.py:14-38 | At the end of the input, `input()` raises EOFError. Only `except Exception` catches it, so the error is printed and the loop reads again. On a closed or exhausted standard input every further read raises again, and the loop never ends. | Standard input that runs out without a `quit` line, e.g. lines piped from a file | End the session at the end of the input, as for a keyboard interrupt | medium, not executed | `Cli.AsWrittenEofNeverStops` | `Cli.EndOfInputEndsSession` |

/** Agent Neo: a conversational agent that keeps the conversation history
    and relays each user message, with that history, to its provider. */
module Agent {
  import opened Runtime
  import opened Provider

  const SYSTEM_PROMPT: string := "You are Agent Neo, a helpful AI assistant running on a Raspberry Pi with the AI HAT+ 2. Be concise and helpful."

  /** Request timeout in seconds. */
  const REQUEST_TIMEOUT: real := 120.0

  /** What one chat call does: its response or the exception that escaped
      it, and the text it printed on the way. */
  datatype Turn = Turn(result: Result<string>, printed: seq<string>)

  /** The history after a chat call with the given outcome: a user entry
      holding the message and an assistant entry holding the response are
      appended after a success; nothing changes after an exception. */
  function Record(history: seq<Message>, message: string, result: Result<string>): (h: seq<Message>)
    ensures result.Raise? ==> h == history
    ensures result.Ok? ==>
      && |h| == |history| + 2 && h[..|history|] == history
      && h[|history|] == Message(User, message) && h[|history| + 1] == Message(Assistant, result.value)
  {
    if result.Ok? then history + [Message(User, message), Message(Assistant, result.value)] else history
  }

  /** A history made of user/assistant pairs, as chat calls build it. */
  predicate Paired(history: seq<Message>) {
    |history| % 2 == 0
    && forall k :: 0 <= k < |history| ==> history[k].role == (if k % 2 == 0 then User else Assistant)
  }

  /** Recording a chat call keeps a history made of pairs. */
  lemma RecordKeepsPaired(history: seq<Message>, message: string, result: Result<string>)
    requires Paired(history)
    ensures Paired(Record(history, message, result))
  {
    var h := Record(history, message, result);
    if result.Ok? {
      forall k | 0 <= k < |h|
        ensures h[k].role == (if k % 2 == 0 then User else Assistant)
      {
        if k < |history| {
          assert h[k] == h[..|history|][k];
        }
      }
    }
  }

  class AgentNeo {
    const client: LiteLLMProvider
    const systemPrompt: string
    const stream: bool
    var conversation: seq<Message>

    /** A new agent over a provider for `model` at `apiBase`, with an empty
        conversation. */
    constructor (systemPrompt: string, stream: bool, model: string, apiBase: string)
      ensures this.systemPrompt == systemPrompt && this.stream == stream
      ensures client.model == model && client.apiBase == apiBase && client.timeout == REQUEST_TIMEOUT
      ensures conversation == []
    {
      client := new LiteLLMProvider(model, apiBase, REQUEST_TIMEOUT);
      this.systemPrompt := systemPrompt;
      this.stream := stream;
      conversation := [];
    }

    /** The request a chat call on `history` sends: the system prompt unless
        it is empty, the pre-turn history (which does not hold the new
        message yet), and the new message as the one last user entry. */
    function Sent(history: seq<Message>, message: string): (request: Request)
      ensures request.stream == stream
      ensures request.model == client.model && request.apiBase == client.apiBase && request.timeout == client.timeout
      ensures request.messages
        == (if systemPrompt != "" then [Message(System, systemPrompt)] else []) + history + [Message(User, message)]
    {
      var messages := Messages(message, Some(history), Some(systemPrompt));
      var off := if systemPrompt != "" then 1 else 0;
      assert messages[off..off + |history|] == history;
      Request(client.model, client.apiBase, messages, stream, client.timeout)
    }

    /** What a chat call on `history` does: the request goes out with the
        pre-turn history; streaming, every chunk is printed as it arrives and
        the response is the chunks joined, printed with a closing newline. */
    function Respond(history: seq<Message>, message: string, backend: Backend): Turn {
      var request := Sent(history, message);
      if stream then
        var reply := backend.stream(request);
        var chunks := Chunks(reply.deltas);
        if reply.failure.Some? then Turn(Raise(reply.failure.value), chunks)
        else Turn(Ok(Join(chunks)), chunks + ["\n"])
      else Turn(backend.complete(request), [])
    }

    /** `chat`: one turn; the history grows only once the response is complete. */
    method Chat(message: string, backend: Backend) returns (response: Result<string>, printed: seq<string>)
      modifies this
      ensures Turn(response, printed) == Respond(old(conversation), message, backend)
      ensures conversation == Record(old(conversation), message, response)
    {
      var text: string;
      printed := [];
      if stream {
        var chunks, failure := client.ChatStream(message, Some(conversation), Some(systemPrompt), backend);
        var parts: seq<string> := [];
        var i := 0;
        while i < |chunks|
          invariant 0 <= i <= |chunks|
          invariant parts == chunks[..i] && printed == chunks[..i]
        {
          printed := printed + [chunks[i]];
          parts := parts + [chunks[i]];
          i := i + 1;
        }
        assert parts == chunks;
        if failure.Some? {
          response := Raise(failure.value);
          return;
        }
        printed := printed + ["\n"];
        text := Join(parts);
      } else {
        var reply := client.Chat(message, Some(conversation), Some(systemPrompt), backend);
        if reply.Raise? {
          response := reply;
          return;
        }
        text := reply.value;
      }
      conversation := conversation + [Message(User, message)];
      conversation := conversation + [Message(Assistant, text)];
      response := Ok(text);
    }

    /** `clear_history`: the history is empty afterwards, whatever it held. */
    method ClearHistory()
      modifies this
      ensures conversation == []
    {
      conversation := [];
    }
  }

  /** A streaming turn: it fails exactly when the stream raises, and then
      only the chunks delivered before the failure were printed; otherwise
      the response is every content the stream delivered, joined in arrival
      order, and the printed text is that response and a newline. */
  lemma StreamedTurn(agent: AgentNeo, history: seq<Message>, message: string, backend: Backend)
    requires agent.stream
    ensures var reply := backend.stream(agent.Sent(history, message));
      var t := agent.Respond(history, message, backend);
      && (t.result.Raise? <==> reply.failure.Some?)
      && (t.result.Raise? ==> t.result.exc == reply.failure.value && t.printed == Chunks(reply.deltas))
      && (t.result.Ok? ==> t.result.value == Join(Contents(reply.deltas))
                           && t.printed == Chunks(reply.deltas) + ["\n"]
                           && Join(t.printed) == t.result.value + "\n")
  {
    var reply := backend.stream(agent.Sent(history, message));
    var chunks := Chunks(reply.deltas);
    ChunksJoinAsContents(reply.deltas);
    JoinAppend(chunks, ["\n"]);
    assert Join(["\n"]) == Join([]) + "\n";
  }

  /** A non-streaming turn prints nothing and returns, or raises, what the
      backend answers to the request carrying the pre-turn history. */
  lemma PlainTurn(agent: AgentNeo, history: seq<Message>, message: string, backend: Backend)
    requires !agent.stream
    ensures agent.Respond(history, message, backend)
         == Turn(backend.complete(agent.Sent(history, message)), [])
  {
  }

  /** `create_agent`: an agent with the default system prompt. */
  method CreateAgent(stream: bool, model: string, apiBase: string) returns (agent: AgentNeo)
    ensures fresh(agent)
    ensures agent.systemPrompt == SYSTEM_PROMPT && agent.stream == stream && agent.conversation == []
    ensures agent.client.model == model && agent.client.apiBase == apiBase && agent.client.timeout == REQUEST_TIMEOUT
  {
    agent := new AgentNeo(SYSTEM_PROMPT, stream, model, apiBase);
  }

  /** Streaming and non-streaming agents with the same configuration agree
      on a turn when the backend, asked the plain agent's request with only
      the stream flag set, streams without failure deltas whose contents
      join to what it answers without streaming. */
  lemma StreamingMatchesNonStreaming(streaming: AgentNeo, plain: AgentNeo, history: seq<Message>, message: string, backend: Backend)
    requires streaming.stream && !plain.stream
    requires streaming.systemPrompt == plain.systemPrompt
    requires streaming.client.model == plain.client.model && streaming.client.apiBase == plain.client.apiBase
    requires streaming.client.timeout == plain.client.timeout
    requires var request := plain.Sent(history, message);
      var reply := backend.stream(request.(stream := true));
      reply.failure == None && backend.complete(request) == Ok(Join(Contents(reply.deltas)))
    ensures streaming.Respond(history, message, backend).result == plain.Respond(history, message, backend).result
    ensures Record(history, message, streaming.Respond(history, message, backend).result)
         == Record(history, message, plain.Respond(history, message, backend).result)
  {
    assert streaming.Sent(history, message) == plain.Sent(history, message).(stream := true);
    StreamedTurn(streaming, history, message, backend);
  }

  /** A turn against a stub backend that answers "Hi there!" (streamed as
      two chunks, an empty delta and a delta without content) leaves the
      history holding exactly that exchange, streaming or not. */
  lemma HelloScenario(agent: AgentNeo)
    ensures var backend := Backend(_ => Ok("Hi there!"), _ => DeltaStream([Some("Hi"), Some(""), None, Some(" there!")], None));
      var t := agent.Respond([], "Hello", backend);
      && t.result == Ok("Hi there!")
      && Record([], "Hello", t.result) == [Message(User, "Hello"), Message(Assistant, "Hi there!")]
  {
    var deltas := [Some("Hi"), Some(""), None, Some(" there!")];
    assert Contents(deltas[..1]) == ["Hi"] by {
      assert deltas[..1][..0] == [];
    }
    assert Contents(deltas[..2]) == ["Hi", ""] by {
      assert deltas[..2][..1] == deltas[..1];
    }
    assert Contents(deltas[..3]) == ["Hi", ""] by {
      assert deltas[..3][..2] == deltas[..2];
    }
    assert Contents(deltas) == ["Hi", "", " there!"] by {
      assert deltas[..3] == deltas[..|deltas| - 1];
    }
    assert Join(["Hi", "", " there!"]) == "Hi there!" by {
      assert ["Hi", "", " there!"][..2][..1] == ["Hi"];
    }
    if agent.stream {
      StreamedTurn(agent, [], "Hello", Backend(_ => Ok("Hi there!"), _ => DeltaStream(deltas, None)));
    }
  }
}

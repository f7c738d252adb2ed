/** The LiteLLM provider: it builds the message list of a completion request
    and relays the backend's answer, whole or as a stream of deltas. The
    `litellm.completion` call itself is the abstract `Backend`. */
module Provider {
  import opened Runtime

  datatype Role = System | User | Assistant

  /** One `{"role": ..., "content": ...}` entry of a message list. */
  datatype Message = Message(role: Role, content: string)

  /** The arguments of one `litellm.completion` call. */
  datatype Request = Request(model: string, apiBase: string, messages: seq<Message>, stream: bool, timeout: real)

  /** What a streaming call delivers: the `delta.content` of each chunk in
      arrival order (None when a chunk carries no content), then the
      exception the call or the iteration raised, if any. */
  datatype DeltaStream = DeltaStream(deltas: seq<Option<string>>, failure: Option<Exception>)

  /** The model backend behind `litellm.completion`: for a non-streaming
      request, the content of the first choice or the exception raised; for
      a streaming request, the stream it delivers. */
  datatype Backend = Backend(complete: Request -> Result<string>, stream: Request -> DeltaStream)

  /** The prior conversation a request carries: nothing for None or an empty list. */
  function Prior(conversation: Option<seq<Message>>): seq<Message> {
    if conversation.Some? then conversation.value else []
  }

  /** The message list of a request: the system prompt first when it is
      truthy, then the prior conversation unchanged and in order, and last
      the new user message. */
  function Messages(message: string, conversation: Option<seq<Message>>, systemPrompt: Option<string>): (r: seq<Message>)
    ensures |r| == (if Truthy(systemPrompt) then 1 else 0) + |Prior(conversation)| + 1
    ensures Truthy(systemPrompt) ==> r[0] == Message(System, systemPrompt.value)
    ensures var offset := if Truthy(systemPrompt) then 1 else 0;
      forall k :: 0 <= k < |Prior(conversation)| ==> r[offset + k] == Prior(conversation)[k]
    ensures r[|r| - 1] == Message(User, message)
  {
    (if Truthy(systemPrompt) then [Message(System, systemPrompt.value)] else [])
    + Prior(conversation) + [Message(User, message)]
  }

  /** The contents a stream delivers, in arrival order, with every None dropped. */
  function Contents(deltas: seq<Option<string>>): seq<string> {
    if deltas == [] then [] else
    var last := deltas[|deltas| - 1];
    Contents(deltas[..|deltas| - 1]) + (if last.Some? then [last.value] else [])
  }

  /** The chunks `chat_stream` yields for the given deltas: the non-empty
      contents, in arrival order. */
  function Chunks(deltas: seq<Option<string>>): (chunks: seq<string>)
    ensures |chunks| <= |deltas|
    ensures forall k :: 0 <= k < |chunks| ==> chunks[k] != ""
  {
    if deltas == [] then [] else
    var last := deltas[|deltas| - 1];
    Chunks(deltas[..|deltas| - 1]) + (if Truthy(last) then [last.value] else [])
  }

  /** Filtering is done chunk by chunk: the chunks of a stream delivered in
      two parts are those of the first part followed by those of the second. */
  lemma {:induction false} ChunksAppend(a: seq<Option<string>>, b: seq<Option<string>>)
    ensures Chunks(a + b) == Chunks(a) + Chunks(b)
  {
    if b != [] {
      assert (a + b)[..|a + b| - 1] == a + b[..|b| - 1];
      ChunksAppend(a, b[..|b| - 1]);
    } else {
      assert a + b == a;
    }
  }

  /** Dropping the empty contents loses no text: the join of the yielded
      chunks is the join of every content the stream delivered. */
  lemma {:induction false} ChunksJoinAsContents(deltas: seq<Option<string>>)
    ensures Join(Chunks(deltas)) == Join(Contents(deltas))
  {
    if deltas != [] {
      var init, last := deltas[..|deltas| - 1], deltas[|deltas| - 1];
      ChunksJoinAsContents(init);
      var kept := if Truthy(last) then [last.value] else [];
      var all := if last.Some? then [last.value] else [];
      JoinAppend(Chunks(init), kept);
      JoinAppend(Contents(init), all);
      assert Join(kept) == Join(all) by {
        if last.Some? {
          assert Join([last.value]) == Join([]) + last.value;
        }
      }
    }
  }

  class LiteLLMProvider {
    const model: string
    const apiBase: string
    const timeout: real

    constructor (model: string, apiBase: string, timeout: real)
      ensures this.model == model && this.apiBase == apiBase && this.timeout == timeout
    {
      this.model := model;
      this.apiBase := apiBase;
      this.timeout := timeout;
    }

    /** `_build_messages`: grows a fresh list step by step. */
    method BuildMessages(message: string, conversation: Option<seq<Message>>, systemPrompt: Option<string>)
      returns (messages: seq<Message>)
      ensures messages == Messages(message, conversation, systemPrompt)
    {
      messages := [];
      if Truthy(systemPrompt) {
        messages := messages + [Message(System, systemPrompt.value)];
      }
      if conversation.Some? && conversation.value != [] {
        messages := messages + conversation.value;
      }
      messages := messages + [Message(User, message)];
    }

    /** `chat`: one non-streaming completion over the built message list;
        its content is returned, and whatever the call raises escapes. */
    method Chat(message: string, conversation: Option<seq<Message>>, systemPrompt: Option<string>, backend: Backend)
      returns (response: Result<string>)
      ensures response == backend.complete(Request(model, apiBase, Messages(message, conversation, systemPrompt), false, timeout))
    {
      var messages := BuildMessages(message, conversation, systemPrompt);
      response := backend.complete(Request(model, apiBase, messages, false, timeout));
    }

    /** `chat_stream`: one streaming completion over the same message list as
        `Chat`; the non-empty contents are yielded in arrival order, and a
        failure of the stream escapes after the chunks delivered before it. */
    method ChatStream(message: string, conversation: Option<seq<Message>>, systemPrompt: Option<string>, backend: Backend)
      returns (chunks: seq<string>, failure: Option<Exception>)
      ensures var reply := backend.stream(Request(model, apiBase, Messages(message, conversation, systemPrompt), true, timeout));
        chunks == Chunks(reply.deltas) && failure == reply.failure
    {
      var messages := BuildMessages(message, conversation, systemPrompt);
      var reply := backend.stream(Request(model, apiBase, messages, true, timeout));
      chunks := [];
      var i := 0;
      while i < |reply.deltas|
        invariant 0 <= i <= |reply.deltas|
        invariant chunks == Chunks(reply.deltas[..i])
      {
        var content := reply.deltas[i];
        assert reply.deltas[..i + 1][..i] == reply.deltas[..i];
        if content.Some? && content.value != "" {
          chunks := chunks + [content.value];
        }
        i := i + 1;
      }
      assert reply.deltas[..i] == reply.deltas;
      failure := reply.failure;
    }
  }
}

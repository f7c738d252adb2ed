/** The interactive command loop: each input line is stripped, then skipped
    when empty, ends the session on `quit` or `exit`, clears the history on
    `clear`, and is otherwise one chat turn. A turn that raises is reported
    and the loop goes on; an interrupt ends it. */
module Cli {
  import opened Runtime
  import opened Provider
  import opened Agent

  const BANNER: seq<string> := [
    "Agent Neo - Powered by hailo-ollama on Raspberry Pi AI HAT+ 2\n",
    "Type 'quit' or 'exit' to end the conversation.\n",
    "Type 'clear' to clear conversation history.\n\n"]
  const PROMPT: string := "You: "
  const GOODBYE: string := "Goodbye!\n"
  const INTERRUPTED_GOODBYE: string := "\nGoodbye!\n"
  const CLEARED: string := "Conversation history cleared.\n\n"
  const REPLY_PREFIX: string := "Agent Neo: "

  /** What the loop prints for an exception `e` that escaped a turn. */
  function ErrorReport(reason: string): string {
    "\nError: " + reason + "\n\n"
  }

  /** What `input()` hands the loop: a line, a keyboard interrupt, or the end
      of the input (an EOFError carrying its message). */
  datatype InputEvent = Line(text: string) | Interrupted | EndOfInput(reason: string)

  /** What the loop does with one line. */
  datatype Command = Skip | Quit | Clear | Say(text: string)

  /** The decision the loop takes on a line, after stripping it: an empty
      line is skipped, `quit`/`exit` and `clear` are recognised in any letter
      case, and any other text is said to the agent as stripped. */
  function Classify(line: string): (c: Command)
    ensures c.Say? ==> c.text == Strip(line) && c.text != ""
    ensures c == Skip <==> Strip(line) == ""
  {
    var text := Strip(line);
    if text == "" then Skip
    else if Lower(text) == "quit" || Lower(text) == "exit" then Quit
    else if Lower(text) == "clear" then Clear
    else Say(text)
  }

  /** A line is skipped exactly when it is all whitespace. */
  lemma BlankLinesSkipped(line: string)
    ensures Classify(line) == Skip <==> forall k :: 0 <= k < |line| ==> IsSpace(line[k])
  {
    var _ := StripTrims(line);
  }

  /** The text said to the agent is already stripped: classifying it again
      says the same text. */
  lemma SaidTextIsStripped(line: string)
    requires Classify(line).Say?
    ensures Strip(Classify(line).text) == Classify(line).text
    ensures Classify(Classify(line).text) == Classify(line)
  {
    StripIdempotent(line);
  }

  /** Letter case never changes the decision: two lines that agree once
      lowered are both said to the agent or both get the same command. */
  lemma ClassifyIgnoresCase(a: string, b: string)
    requires Lower(a) == Lower(b)
    ensures Classify(a).Say? == Classify(b).Say?
    ensures !Classify(a).Say? ==> Classify(a) == Classify(b)
  {
    StripLower(a);
    StripLower(b);
    assert Lower(Strip(a)) == Lower(Strip(b));
    assert |Strip(a)| == |Lower(Strip(a))|;
  }

  /** An upper-case `quit` between a space and a newline still ends the
      session. */
  lemma ClassifyExamples()
    ensures Classify(" QUIT\n") == Quit
  {
    assert StripLeft(" QUIT\n") == "QUIT\n" by {
      assert " QUIT\n"[1..] == "QUIT\n";
    }
    assert StripRight("QUIT\n") == "QUIT" by {
      assert "QUIT\n"[..4] == "QUIT";
    }
    assert Lower("QUIT") == "quit";
  }

  /** The loop's state between two inputs: the agent's history, what has
      been printed, how many chat calls were made, whether the loop still
      runs, and how many inputs it has read. */
  datatype Session = Session(history: seq<Message>, transcript: seq<string>, calls: nat, running: bool, read: nat)

  /** The session at the start of the loop, over a new agent. */
  const START: Session := Session([], [], 0, true, 0)

  /** What the loop prints once a chat turn is over: a newline after a
      response, a goodbye after an interrupt, the error otherwise. */
  function Outcome(result: Result<string>): string {
    match result
    case Ok(_) => "\n"
    case Raise(KeyboardInterrupt) => INTERRUPTED_GOODBYE
    case Raise(BackendError(reason)) => ErrorReport(reason)
  }

  /** One chat turn of the loop, after the prompt: the turn's printing, its
      effect on the history, and the end of the loop on an interrupt. */
  function ChatTurn(agent: AgentNeo, s: Session, text: string, network: nat -> Backend): Session {
    var t := agent.Respond(s.history, text, network(s.calls));
    Session(Record(s.history, text, t.result),
            s.transcript + [REPLY_PREFIX] + t.printed + [Outcome(t.result)],
            s.calls + 1,
            s.running && t.result != Raise(KeyboardInterrupt),
            s.read)
  }

  /** After a successful streamed turn the user sees exactly the reply the
      history stores: the reply prefix, the assistant entry just appended,
      the newline that ends the stream, and the newline the loop prints. A
      non-streaming agent prints nothing of its reply, and the loop discards
      the returned value, so only the prefix and the newline appear. */
  lemma ShownReplyIsStored(agent: AgentNeo, s: Session, text: string, network: nat -> Backend)
    requires agent.Respond(s.history, text, network(s.calls)).result.Ok?
    ensures var r := ChatTurn(agent, s, text, network);
      && |r.history| == |s.history| + 2 && |r.transcript| >= |s.transcript|
      && Join(r.transcript[|s.transcript|..])
         == REPLY_PREFIX + (if agent.stream then r.history[|r.history| - 1].content + "\n" else "") + "\n"
  {
    var backend := network(s.calls);
    var t := agent.Respond(s.history, text, backend);
    var r := ChatTurn(agent, s, text, network);
    var shown := r.transcript[|s.transcript|..];
    assert shown == [REPLY_PREFIX] + t.printed + ["\n"];
    JoinFramed(REPLY_PREFIX, t.printed, "\n");
    if agent.stream {
      StreamedTurn(agent, s.history, text, backend);
    } else {
      PlainTurn(agent, s.history, text, backend);
      assert Join(t.printed) == "";
    }
  }

  /** What the loop does with a line once it has read it. */
  function Dispatch(agent: AgentNeo, s: Session, command: Command, network: nat -> Backend): Session {
    match command
    case Skip => s
    case Quit => s.(transcript := s.transcript + [GOODBYE], running := false)
    case Clear => s.(history := [], transcript := s.transcript + [CLEARED])
    case Say(text) => ChatTurn(agent, s, text, network)
  }

  /** One pass of the loop body over one input: the prompt, then the
      input's effect. The backend answering the k-th chat call of the
      session is `network(k)`. */
  function Step(agent: AgentNeo, s: Session, event: InputEvent, network: nat -> Backend): (r: Session)
    ensures !s.running ==> r == s
    ensures s.running ==> r.read == s.read + 1 && |r.transcript| > |s.transcript| && r.transcript[|s.transcript|] == PROMPT
    ensures r.calls == if s.running && event.Line? && Classify(event.text).Say? then s.calls + 1 else s.calls
    ensures s.running && event.Line? && Classify(event.text) == Skip ==>
      r == s.(transcript := s.transcript + [PROMPT], read := s.read + 1)
    ensures s.running && event.Line? && Classify(event.text) == Quit ==> !r.running && r.history == s.history
    ensures s.running && event.Line? && Classify(event.text) == Clear ==> r.running && r.history == []
    ensures s.running && event.Line? && Classify(event.text).Say? ==>
      var t := agent.Respond(s.history, Classify(event.text).text, network(s.calls));
      && r.history == Record(s.history, Classify(event.text).text, t.result)
      && (r.running <==> t.result != Raise(KeyboardInterrupt))
    ensures s.running && !event.Line? ==> !r.running && r.history == s.history
  {
    if !s.running then s
    else
      var s1 := s.(transcript := s.transcript + [PROMPT], read := s.read + 1);
      match event
      case Line(raw) => Dispatch(agent, s1, Classify(raw), network)
      case Interrupted => s1.(transcript := s1.transcript + [INTERRUPTED_GOODBYE], running := false)
      case EndOfInput(_) => s1.(transcript := s1.transcript + [INTERRUPTED_GOODBYE], running := false)
  }

  /** A chat turn that raises an error is reported, and the loop goes on
      with the history it had before the turn. */
  lemma FailedTurnReported(agent: AgentNeo, s: Session, line: string, network: nat -> Backend)
    requires s.running && Classify(line).Say?
    requires agent.Respond(s.history, Classify(line).text, network(s.calls)).result.Raise?
    requires agent.Respond(s.history, Classify(line).text, network(s.calls)).result.exc.BackendError?
    ensures var t := agent.Respond(s.history, Classify(line).text, network(s.calls));
      var r := Step(agent, s, Line(line), network);
      && r.running && r.history == s.history
      && r.transcript == s.transcript + [PROMPT, REPLY_PREFIX] + t.printed + [ErrorReport(t.result.exc.reason)]
  {
  }

  /** The loop run over a sequence of inputs. */
  function Replay(agent: AgentNeo, s: Session, events: seq<InputEvent>, network: nat -> Backend): Session {
    if events == [] then s
    else Step(agent, Replay(agent, s, events[..|events| - 1], network), events[|events| - 1], network)
  }

  /** Once the loop has ended, no further input is read. */
  lemma {:induction false} StoppedIsFinal(agent: AgentNeo, s: Session, events: seq<InputEvent>, network: nat -> Backend)
    requires !s.running
    ensures Replay(agent, s, events, network) == s
  {
    if events != [] {
      StoppedIsFinal(agent, s, events[..|events| - 1], network);
    }
  }

  /** Running the loop over two input sequences in turn is running it over
      their concatenation. */
  lemma {:induction false} ReplayAppend(agent: AgentNeo, s: Session, a: seq<InputEvent>, b: seq<InputEvent>, network: nat -> Backend)
    ensures Replay(agent, s, a + b, network) == Replay(agent, Replay(agent, s, a, network), b, network)
  {
    if b == [] {
      assert a + b == a;
    } else {
      assert (a + b)[..|a + b| - 1] == a + b[..|b| - 1];
      ReplayAppend(agent, s, a, b[..|b| - 1], network);
    }
  }

  /** The inputs that follow the end of the loop have no effect. */
  lemma IgnoredAfterStop(agent: AgentNeo, s: Session, a: seq<InputEvent>, b: seq<InputEvent>, network: nat -> Backend)
    requires !Replay(agent, s, a, network).running
    ensures Replay(agent, s, a + b, network) == Replay(agent, s, a, network)
  {
    ReplayAppend(agent, s, a, b, network);
    StoppedIsFinal(agent, Replay(agent, s, a, network), b, network);
  }

  /** `quit` or `exit`, in any letter case and surrounded by any whitespace,
      ends the loop at once: no chat call, no change to the history, and no
      later input read. */
  lemma QuitEndsSession(agent: AgentNeo, s: Session, line: string, rest: seq<InputEvent>, network: nat -> Backend)
    requires s.running && Classify(line) == Quit
    ensures var r := Replay(agent, s, [Line(line)] + rest, network);
      !r.running && r.history == s.history && r.calls == s.calls && r.read == s.read + 1
  {
    assert Replay(agent, s, [Line(line)], network) == Step(agent, s, Line(line), network);
    IgnoredAfterStop(agent, s, [Line(line)], rest, network);
  }

  /** How many inputs are chat turns: lines that are neither empty nor a command. */
  function ChatLines(events: seq<InputEvent>): nat {
    if events == [] then 0
    else
      var last := events[|events| - 1];
      ChatLines(events[..|events| - 1]) + (if last.Line? && Classify(last.text).Say? then 1 else 0)
  }

  /** While the loop runs, every chat turn input makes exactly one chat call
      and no other input makes any. */
  lemma {:induction false} OneCallPerChatLine(agent: AgentNeo, s: Session, events: seq<InputEvent>, network: nat -> Backend)
    requires Replay(agent, s, events, network).running
    ensures Replay(agent, s, events, network).calls == s.calls + ChatLines(events)
    ensures Replay(agent, s, events, network).read == s.read + |events|
  {
    if events != [] {
      var before := Replay(agent, s, events[..|events| - 1], network);
      assert before.running;
      OneCallPerChatLine(agent, s, events[..|events| - 1], network);
    }
  }

  /** Whether or not the loop has ended, it has read a prefix of the inputs
      and made exactly one chat call per chat turn input in that prefix. */
  lemma {:induction false} CallsCountReadChatLines(agent: AgentNeo, s: Session, events: seq<InputEvent>, network: nat -> Backend)
    ensures var r := Replay(agent, s, events, network);
      && s.read <= r.read <= s.read + |events|
      && r.calls == s.calls + ChatLines(events[..r.read - s.read])
  {
    if events == [] {
      assert events[..0] == [];
    } else {
      var init, last := events[..|events| - 1], events[|events| - 1];
      var before := Replay(agent, s, init, network);
      var r := Step(agent, before, last, network);
      assert Replay(agent, s, events, network) == r;
      CallsCountReadChatLines(agent, s, init, network);
      if before.running {
        OneCallPerChatLine(agent, s, init, network);
        assert r.read - s.read == |events|;
        assert events[..|events|] == events;
        assert ChatLines(events) == ChatLines(init) + (if last.Line? && Classify(last.text).Say? then 1 else 0);
      } else {
        var k := before.read - s.read;
        assert r == before;
        assert init[..k] == events[..k];
      }
    }
  }

  /** The history the loop leaves is made of user/assistant pairs. */
  lemma {:induction false} ReplayKeepsPaired(agent: AgentNeo, s: Session, events: seq<InputEvent>, network: nat -> Backend)
    requires Paired(s.history)
    ensures Paired(Replay(agent, s, events, network).history)
  {
    if events != [] {
      var before := Replay(agent, s, events[..|events| - 1], network);
      ReplayKeepsPaired(agent, s, events[..|events| - 1], network);
      var event := events[|events| - 1];
      if before.running && event.Line? && Classify(event.text).Say? {
        var text := Classify(event.text).text;
        RecordKeepsPaired(before.history, text, agent.Respond(before.history, text, network(before.calls)).result);
      }
    }
  }

  /** The end of the input ends the loop, with no chat call and no change
      to the history. */
  lemma EndOfInputEndsSession(agent: AgentNeo, s: Session, reason: string, rest: seq<InputEvent>, network: nat -> Backend)
    requires s.running
    ensures var r := Replay(agent, s, [EndOfInput(reason)] + rest, network);
      !r.running && r.history == s.history && r.calls == s.calls && r.read == s.read + 1
  {
    assert Replay(agent, s, [EndOfInput(reason)], network) == Step(agent, s, EndOfInput(reason), network);
    IgnoredAfterStop(agent, s, [EndOfInput(reason)], rest, network);
  }

  /** One pass of the loop body as written: `input()` raising EOFError is
      caught by the handler for every other exception, reported, and the
      loop reads again. */
  function StepAsWritten(agent: AgentNeo, s: Session, event: InputEvent, network: nat -> Backend): Session {
    if s.running && event.EndOfInput? then
      s.(transcript := s.transcript + [PROMPT, ErrorReport(event.reason)], read := s.read + 1)
    else Step(agent, s, event, network)
  }

  /** The loop as written, run over a sequence of inputs. */
  function ReplayAsWritten(agent: AgentNeo, s: Session, events: seq<InputEvent>, network: nat -> Backend): Session {
    if events == [] then s
    else StepAsWritten(agent, ReplayAsWritten(agent, s, events[..|events| - 1], network), events[|events| - 1], network)
  }

  /** As written, the loop never ends once its input is exhausted: every
      further `input()` raises EOFError again, and however many times it
      does, the loop is still running, having printed the prompt and an
      error report for each of them and made no chat call. */
  lemma {:induction false} AsWrittenEofNeverStops(agent: AgentNeo, s: Session, events: seq<InputEvent>, network: nat -> Backend)
    requires s.running
    requires forall k :: 0 <= k < |events| ==> events[k].EndOfInput?
    ensures var r := ReplayAsWritten(agent, s, events, network);
      r.running && r.history == s.history && r.calls == s.calls && r.read == s.read + |events|
    ensures var r := ReplayAsWritten(agent, s, events, network);
      && |r.transcript| == |s.transcript| + 2 * |events| && r.transcript[..|s.transcript|] == s.transcript
      && forall k :: 0 <= k < |events| ==>
           r.transcript[|s.transcript| + 2 * k] == PROMPT
           && r.transcript[|s.transcript| + 2 * k + 1] == ErrorReport(events[k].reason)
  {
    if events != [] {
      var init, last := events[..|events| - 1], events[|events| - 1];
      AsWrittenEofNeverStops(agent, s, init, network);
      var before := ReplayAsWritten(agent, s, init, network);
      var r := ReplayAsWritten(agent, s, events, network);
      assert r.transcript == before.transcript + [PROMPT, ErrorReport(last.reason)];
      var n := |s.transcript|;
      forall k | 0 <= k < |events|
        ensures r.transcript[n + 2 * k] == PROMPT && r.transcript[n + 2 * k + 1] == ErrorReport(events[k].reason)
      {
        if k < |init| {
          assert r.transcript[n + 2 * k] == before.transcript[n + 2 * k];
          assert r.transcript[n + 2 * k + 1] == before.transcript[n + 2 * k + 1];
          assert events[k] == init[k];
        }
      }
    }
  }

  /** As written too, once the loop has ended no further input is read. */
  lemma {:induction false} StoppedIsFinalAsWritten(agent: AgentNeo, s: Session, events: seq<InputEvent>, network: nat -> Backend)
    requires !s.running
    ensures ReplayAsWritten(agent, s, events, network) == s
  {
    if events != [] {
      StoppedIsFinalAsWritten(agent, s, events[..|events| - 1], network);
    }
  }

  /** As written too, while the loop runs every chat turn input makes exactly
      one chat call, no other input makes any, and every input is read once. */
  lemma {:induction false} OneCallPerChatLineAsWritten(agent: AgentNeo, s: Session, events: seq<InputEvent>, network: nat -> Backend)
    requires ReplayAsWritten(agent, s, events, network).running
    ensures ReplayAsWritten(agent, s, events, network).calls == s.calls + ChatLines(events)
    ensures ReplayAsWritten(agent, s, events, network).read == s.read + |events|
  {
    if events != [] {
      var before := ReplayAsWritten(agent, s, events[..|events| - 1], network);
      assert before.running;
      OneCallPerChatLineAsWritten(agent, s, events[..|events| - 1], network);
    }
  }

  /** As written too, the loop has read a prefix of the inputs and made
      exactly one chat call per chat turn input in that prefix. */
  lemma {:induction false} CallsCountReadChatLinesAsWritten(agent: AgentNeo, s: Session, events: seq<InputEvent>, network: nat -> Backend)
    ensures var r := ReplayAsWritten(agent, s, events, network);
      && s.read <= r.read <= s.read + |events|
      && r.calls == s.calls + ChatLines(events[..r.read - s.read])
  {
    if events == [] {
      assert events[..0] == [];
    } else {
      var init, last := events[..|events| - 1], events[|events| - 1];
      var before := ReplayAsWritten(agent, s, init, network);
      var r := StepAsWritten(agent, before, last, network);
      assert ReplayAsWritten(agent, s, events, network) == r;
      CallsCountReadChatLinesAsWritten(agent, s, init, network);
      if before.running {
        OneCallPerChatLineAsWritten(agent, s, init, network);
        assert r.read == before.read + 1;
        assert r.calls == if last.Line? && Classify(last.text).Say? then before.calls + 1 else before.calls;
        assert events[..|events|] == events;
        assert ChatLines(events) == ChatLines(init) + (if last.Line? && Classify(last.text).Say? then 1 else 0);
      } else {
        var k := before.read - s.read;
        assert r == before;
        assert init[..k] == events[..k];
      }
    }
  }

  /** As written too, the history the loop leaves is made of user/assistant pairs. */
  lemma {:induction false} ReplayAsWrittenKeepsPaired(agent: AgentNeo, s: Session, events: seq<InputEvent>, network: nat -> Backend)
    requires Paired(s.history)
    ensures Paired(ReplayAsWritten(agent, s, events, network).history)
  {
    if events != [] {
      var before := ReplayAsWritten(agent, s, events[..|events| - 1], network);
      ReplayAsWrittenKeepsPaired(agent, s, events[..|events| - 1], network);
      var event := events[|events| - 1];
      if before.running && event.Line? && Classify(event.text).Say? {
        var text := Classify(event.text).text;
        RecordKeepsPaired(before.history, text, agent.Respond(before.history, text, network(before.calls)).result);
      }
    }
  }

  /** One pass of the `while True` body on a running loop: the prompt, the
      input, and what the loop does with it. */
  method Serve(agent: AgentNeo, event: InputEvent, log: seq<string>, calls: nat, read: nat, network: nat -> Backend)
    returns (log': seq<string>, calls': nat, running: bool)
    modifies agent
    ensures Step(agent, Session(old(agent.conversation), log, calls, true, read), event, network)
         == Session(agent.conversation, log', calls', running, read + 1)
  {
    log' := log + [PROMPT];
    calls' := calls;
    running := true;
    match event {
      case Interrupted =>
        log' := log' + [INTERRUPTED_GOODBYE];
        running := false;
      case EndOfInput(_) =>
        log' := log' + [INTERRUPTED_GOODBYE];
        running := false;
      case Line(raw) =>
        match Classify(raw) {
          case Skip =>
          case Quit =>
            log' := log' + [GOODBYE];
            running := false;
          case Clear =>
            agent.ClearHistory();
            log' := log' + [CLEARED];
          case Say(text) =>
            log' := log' + [REPLY_PREFIX];
            var response, printed := agent.Chat(text, network(calls));
            calls' := calls + 1;
            log' := log' + printed;
            match response {
              case Ok(_) =>
                log' := log' + ["\n"];
              case Raise(KeyboardInterrupt) =>
                log' := log' + [INTERRUPTED_GOODBYE];
                running := false;
              case Raise(BackendError(reason)) =>
                log' := log' + [ErrorReport(reason)];
            }
        }
    }
  }

  /** `main`: prints the banner, creates a streaming agent and runs the
      loop until an input ends it or the inputs run out. */
  method RunMain(model: string, apiBase: string, events: seq<InputEvent>, network: nat -> Backend)
    returns (agent: AgentNeo, transcript: seq<string>, consumed: nat)
    ensures fresh(agent) && agent.stream && agent.systemPrompt == SYSTEM_PROMPT
    ensures agent.client.model == model && agent.client.apiBase == apiBase
    ensures var r := Replay(agent, START, events, network);
      agent.conversation == r.history && transcript == BANNER + r.transcript && consumed == r.read
  {
    agent := CreateAgent(true, model, apiBase);
    var log: seq<string> := [];
    var calls: nat := 0;
    var running := true;
    var i := 0;
    while i < |events| && running
      invariant 0 <= i <= |events|
      invariant agent.stream && agent.systemPrompt == SYSTEM_PROMPT
      invariant Replay(agent, START, events[..i], network) == Session(agent.conversation, log, calls, running, i)
    {
      ghost var before := Session(agent.conversation, log, calls, running, i);
      assert events[..i + 1][..i] == events[..i];
      assert Replay(agent, START, events[..i + 1], network) == Step(agent, before, events[i], network);
      log, calls, running := Serve(agent, events[i], log, calls, i, network);
      i := i + 1;
    }
    if running {
      assert events[..i] == events;
    } else {
      IgnoredAfterStop(agent, START, events[..i], events[i..], network);
      assert events[..i] + events[i..] == events;
    }
    transcript := BANNER + log;
    consumed := i;
  }
}

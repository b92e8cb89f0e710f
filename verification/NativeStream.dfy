/** The native stream as the object whose fields every event updates, with the emitter it publishes
    through. */
module NativeStreamObjects {
  import opened Wrappers
  import opened Utf8
  import opened Batching
  import opened AnswerEmitters
  import opened NativeStreams
  import opened NativeTheorems

  /** How the handling of an event ends; a failed emit ends it wherever it happens. */
  datatype End = Good | Faulted(fault: Fault) | EmitFailed

  /** Nothing that is out is taken back. */
  lemma AnswerExtends(s: State, item: string, text: Text)
    ensures s.emitter.batches <= Answer(s, item, text).state.emitter.batches
  {
    if !s.completed && Ready(s.emitter) && NoLongRun(text, MAX_DELTA) {
      AddExtends(s.emitter, text);
    }
    hide Add;
  }

  lemma {:induction false} PartsExtend(s: State, parts: seq<ContentPart>)
    ensures s.emitter.batches <= AnswerParts(s, parts).state.emitter.batches
    decreases |parts|
  {
    hide Answer;
    if parts != [] {
      AnswerExtends(s, "", parts[0].text);
      var r := if parts[0].isText then Answer(s, "", parts[0].text) else Next(s);
      if r.Next? {
        PartsExtend(r.state, parts[1..]);
      }
    }
  }

  class NativeStream {
    const emitter: AnswerEmitter
    var session: string
    var message: string
    var completed: bool
    var items: map<string, Text>
    var pi: Pi
    /** The whole answer, kept when no receiver is there to take it. */
    var reply: Text

    ghost predicate Represents(s: State)
      reads this, emitter
    {
      && session == s.session && message == s.message && completed == s.completed && items == s.items && pi == s.pi
      && if emitter.emits then emitter.View() == s.emitter && |s.emitter.batches| <= emitter.accepts && reply == []
         else reply == Whole(s.answered) && emitter.View() == NewEmitter()
    }

    /** The object has done what r says, unless the receiver failed first: then it has exactly the
        batches that it accepted. */
    ghost predicate Ended(r: Reply, end: End)
      reads this, emitter
    {
      if emitter.emits && |r.state.emitter.batches| > emitter.accepts
      then end.EmitFailed? && emitter.batches == r.state.emitter.batches[..emitter.accepts]
      else Represents(r.state) && end == if r.Next? then Good else Faulted(r.fault)
    }

    constructor (expected: string, emits: bool, accepts: nat)
      ensures Represents(NewStream(expected)) && Delivers(NewStream(expected)) && fresh(emitter)
      ensures emitter.emits == emits && emitter.accepts == accepts
    {
      emitter := new AnswerEmitter(emits, accepts);
      session, message, completed, items, reply := "", "", false, map[], [];
      pi := Pi(expected, NoRole, false, false, NoReason);
      new;
      NewDelivers(expected);
    }

    method Flush(ghost s: State) returns (end: End)
      requires Represents(s)
      modifies this, emitter
      ensures Ended(Next(Flushed(s)), end)
    {
      var ok := emitter.Flush();
      end := if ok then Good else EmitFailed;
    }

    /** Whatever was answered goes out before the failure that the CLI reported. */
    method FailNative(ghost s: State) returns (end: End)
      requires Represents(s)
      modifies this, emitter
      ensures Ended(Failed(s), end)
    {
      end := Flush(s);
      if end.Good? {
        end := Faulted(NativeFailure);
      }
    }

    method SetSession(id: string, ghost s: State) returns (end: End)
      requires Represents(s)
      modifies `session
      ensures Ended(NativeStreams.SetSession(s, id), end) && !end.EmitFailed?
    {
      hide SafeSession;
      if id == "" {
        return Good;
      }
      if !SafeSession(id) || (session != "" && session != id) {
        return Faulted(Malformed);
      }
      session := id;
      end := Good;
    }

    method Answer(item: string, text: Text, ghost s: State) returns (end: End)
      requires Represents(s) && Delivers(s) && Valid(text)
      modifies this, emitter
      ensures Ended(NativeStreams.Answer(s, item, text), end)
    {
      AddSound(s.emitter, text);
      hide Valid;
      hide NoLongRun;
      hide Batching.Add;
      hide TextOf;
      if completed {
        return Faulted(Malformed);
      }
      if !emitter.emits {
        ghost var more := s.answered + [Delta(item, text)];
        assert more[..|more| - 1] == s.answered;
        reply := reply + text;
      }
      var ok := emitter.Add(text);
      end := if ok then Good else EmitFailed;
    }

    method AnswerSnapshot(id: string, text: Text, ghost s: State) returns (end: End)
      requires Represents(s) && Delivers(s) && Valid(text)
      modifies this, emitter
      ensures Ended(Snapshot(s, id, text), end)
    {
      hide Valid;
      hide NativeStreams.Answer;
      hide Sound;
      hide TextOf;
      var previous := if id in items then items[id] else [];
      if !(|previous| <= |text| && text[..|previous|] == previous) {
        return Faulted(Malformed);
      }
      NewPartValid(s, id, text);
      items := items[id := text];
      end := Answer(id, text[|previous|..], s.(items := s.items[id := text]));
    }

    lemma NewPartValid(s: State, id: string, text: Text)
      requires Delivers(s) && Valid(text)
      ensures var previous := if id in s.items then s.items[id] else [];
              IsPrefix(previous, text) ==> Valid(text[|previous|..]) && Delivers(s.(items := s.items[id := text]))
    {
      var previous := if id in s.items then s.items[id] else [];
      assert Valid([]);
      if IsPrefix(previous, text) {
        ValidRest(text, |previous|);
      }
      hide Valid;
      hide Sound;
      hide TextOf;
    }

    method ConsumeCodex(e: CodexEvent, ghost s: State) returns (end: End)
      requires Represents(s) && Delivers(s) && CodexText(e)
      modifies this, emitter
      ensures Ended(NativeStreams.ConsumeCodex(s, e), end)
    {
      hide Valid;
      hide Delivers;
      hide Flushed;
      hide Failed;
      hide NativeStreams.SetSession;
      if e.kind.NoKind? {
        return Faulted(Malformed);
      }
      if e.kind.Error? || e.kind.TurnFailed? || e.hasError {
        end := FailNative(s);
        return;
      }
      end := Good;
      match e.kind {
        case ThreadStarted =>
          if e.thread == "" {
            return Faulted(Malformed);
          }
          end := SetSession(e.thread, s);
        case TurnStarted =>
          if completed {
            return Faulted(Malformed);
          }
        case TurnCompleted =>
          if completed {
            return Faulted(Malformed);
          }
          completed := true;
          end := Flush(s.(completed := true));
        case ItemStarted | ItemUpdated | ItemCompleted => end := ConsumeItem(e, s);
        case _ =>
      }
    }

    method ConsumeItem(e: CodexEvent, ghost s: State) returns (end: End)
      requires ItemEvent(e.kind) && !e.hasError && Represents(s) && Delivers(s) && CodexText(e)
      modifies this, emitter
      ensures Ended(NativeStreams.ConsumeCodex(s, e), end)
    {
      hide Valid;
      hide Delivers;
      hide Snapshot;
      hide NativeStreams.Answer;
      if e.item.None? {
        return Faulted(Malformed);
      }
      var item := e.item.value;
      if !item.isMessage {
        return Good;
      }
      if item.id != "" {
        end := AnswerSnapshot(item.id, item.text, s);
      } else if e.kind != ItemCompleted {
        end := Faulted(Malformed);
      } else {
        end := Answer("", item.text, s);
      }
    }

    method ConsumeOpenCode(e: OpenCodeEvent, ghost s: State) returns (end: End)
      requires Represents(s) && Delivers(s) && OpenCodeText(e)
      modifies this, emitter
      ensures Ended(NativeStreams.ConsumeOpenCode(s, e), end)
    {
      hide Valid;
      hide Delivers;
      hide Failed;
      hide NativeStreams.SetSession;
      hide TextOpenCode;
      hide FinishOpenCode;
      if e.kind.NoStep? {
        return Faulted(Malformed);
      }
      SessionDelivers(s, e.session);
      end := SetSession(e.session, s);
      ghost var t := NativeStreams.SetSession(s, e.session).state;
      if end != Good {
        return;
      }
      if e.kind.StepError? || e.hasError {
        end := FailNative(t);
        return;
      }
      match e.kind {
        case StepStart =>
          if e.part.Some? && e.part.value.message != "" {
            message := e.part.value.message;
          }
          completed := false;
        case Text => end := ConsumeText(e, t);
        case StepFinish => end := FinishStep(e, t);
        case _ =>
      }
    }

    method ConsumeText(e: OpenCodeEvent, ghost s: State) returns (end: End)
      requires Represents(s) && Delivers(s) && OpenCodeText(e)
      modifies this, emitter
      ensures Ended(TextOpenCode(s, e), end)
    {
      hide Valid;
      hide Delivers;
      hide Snapshot;
      hide NativeStreams.Answer;
      if e.part.None? {
        end := Answer("", e.text, s);
        return;
      }
      var part := e.part.value;
      if part.kind != TextPart {
        return Good;
      }
      if part.message != "" {
        message := part.message;
      }
      ghost var t := InMessage(s, e.part);
      InMessageDelivers(s, e.part);
      if part.id != "" {
        end := AnswerSnapshot(part.id, part.text, t);
      } else {
        end := Answer("", part.text, t);
      }
    }

    method FinishStep(e: OpenCodeEvent, ghost s: State) returns (end: End)
      requires Represents(s)
      modifies this, emitter
      ensures Ended(FinishOpenCode(s, e), end)
    {
      hide Flushed;
      hide Failed;
      var reason := e.reason;
      if e.part.Some? {
        if e.part.value.kind != FinishPart {
          return Faulted(Malformed);
        }
        reason := e.part.value.reason;
      }
      match reason {
        case Stopped =>
          completed := true;
          end := Flush(s.(completed := true));
        case ToolCalls =>
          completed := false;
          end := Flush(s.(completed := false));
        case Failing => end := FailNative(s);
        case NoSuchReason => end := Faulted(Malformed);
      }
    }

    method ConsumePi(e: PiEvent, ghost s: State) returns (end: End)
      requires Represents(s) && Delivers(s) && PiText(e)
      modifies this, emitter
      ensures Ended(NativeStreams.ConsumePi(s, e), end)
    {
      hide Delivers;
      hide PiText;
      hide Failed;
      hide SafePiSession;
      hide NativeStreams.SetSession;
      if e.kind.NoEvent? {
        return Faulted(Malformed);
      }
      if e.kind.Failure? || e.aborted || e.hasError {
        end := FailNative(s);
        return;
      }
      if e.kind.Session? {
        if session != "" || !SafePiSession(e.id) || (pi.expected != "" && e.id != pi.expected) {
          return Faulted(Malformed);
        }
        end := SetSession(e.id, s);
        return;
      }
      if session == "" {
        return Faulted(Malformed);
      }
      end := ConsumePiRun(e, s);
    }

    /** The events inside a session. */
    method ConsumePiRun(e: PiEvent, ghost s: State) returns (end: End)
      requires session != "" && !e.kind.NoEvent? && !e.kind.Failure? && !e.kind.Session? && !e.aborted && !e.hasError
      requires Represents(s) && Delivers(s) && PiText(e)
      modifies this, emitter
      ensures Ended(NativeStreams.ConsumePi(s, e), end)
    {
      hide Delivers;
      hide PartsText;
      hide NativeStreams.Restart;
      hide NativeStreams.StartMessage;
      hide NativeStreams.UpdateMessage;
      hide NativeStreams.FinishMessage;
      hide NativeStreams.EndAgent;
      end := Good;
      match e.kind {
        case AgentStart => Restart(s);
        case TurnStart => Restart(s);
        case MessageStart => end := StartMessage(e.message, s);
        case MessageUpdate => end := UpdateMessage(e, s);
        case MessageEnd =>
          if e.message.None? || e.message.value.role == NoRole {
            return Faulted(Malformed);
          }
          if e.message.value.role == Assistant {
            end := FinishMessage(e.message.value, s);
          }
        case TurnEnd =>
          if e.message.None? || e.message.value.role != Assistant {
            return Faulted(Malformed);
          }
          end := FinishMessage(e.message.value, s);
        case AgentEnd => end := EndAgent(e, s);
        case _ =>
      }
    }

    method Restart(ghost s: State)
      requires Represents(s)
      modifies `pi, `completed
      ensures Represents(NativeStreams.Restart(s))
    {
      pi := pi.(role := NoRole, deltas := false, terminal := false, stopReason := NoReason);
      completed := false;
    }

    method StartMessage(started: Option<Message>, ghost s: State) returns (end: End)
      requires Represents(s)
      modifies `pi
      ensures Ended(NativeStreams.StartMessage(s, started), end)
    {
      if started.None? || started.value.role == NoRole || completed {
        return Faulted(Malformed);
      }
      pi := pi.(role := started.value.role);
      if pi.role == Assistant {
        pi := pi.(deltas := false, terminal := false, stopReason := NoReason);
      }
      end := Good;
    }

    method UpdateMessage(e: PiEvent, ghost s: State) returns (end: End)
      requires Represents(s) && Delivers(s) && PiText(e)
      modifies this, emitter
      ensures Ended(NativeStreams.UpdateMessage(s, e), end)
    {
      hide Valid;
      hide Delivers;
      hide Failed;
      hide NativeStreams.Answer;
      if e.update.None? || e.update.value.kind == NoUpdate {
        return Faulted(Malformed);
      }
      var u := e.update.value;
      if u.kind == UpdateError || u.hasError || (u.kind == Done && u.reason != Stop && u.reason != ToolUse) {
        end := FailNative(s);
        return;
      }
      if u.kind != TextDelta || (e.message.Some? && e.message.value.role != Assistant) {
        return Good;
      }
      if pi.role != Assistant {
        return if pi.role != NoRole then Good else Faulted(Malformed);
      }
      if pi.terminal || u.delta.None? {
        return Faulted(Malformed);
      }
      PiDelivers(s, s.pi.(deltas := true));
      pi := pi.(deltas := true);
      end := Answer("", u.delta.value, s.(pi := s.pi.(deltas := true)));
    }

    method AnswerContent(parts: seq<ContentPart>, ghost s: State) returns (end: End)
      requires Represents(s) && Delivers(s) && PartsText(parts)
      modifies this, emitter
      ensures Ended(AnswerParts(s, parts), end)
    {
      hide Valid;
      hide Delivers;
      hide NativeStreams.Answer;
      ghost var whole := AnswerParts(s, parts);
      ghost var now := s;
      end := Good;
      for i := 0 to |parts|
        invariant Represents(now) && Delivers(now) && end == Good
        invariant AnswerParts(now, parts[i..]) == whole
      {
        assert parts[i..][1..] == parts[i + 1..];
        if parts[i].isText {
          ghost var r := NativeStreams.Answer(now, "", parts[i].text);
          AnswerPublished(now, parts[i].text);
          PartsExtend(r.state, parts[i + 1..]);
          end := Answer("", parts[i].text, now);
          if end != Good {
            return;
          }
          now := r.state;
        }
      }
    }

    lemma AnswerPublished(s: State, text: Text)
      requires Delivers(s) && Valid(text)
      ensures Delivers(NativeStreams.Answer(s, "", text).state)
    {
      AnswerCarries(s, "", text);
      hide NativeStreams.Answer;
      hide Delivers;
    }

    method FinishMessage(m: Message, ghost s: State) returns (end: End)
      requires Represents(s) && Delivers(s) && (m.content.Some? ==> PartsText(m.content.value))
      modifies this, emitter
      ensures Ended(NativeStreams.FinishMessage(s, m), end)
    {
      hide Delivers;
      hide PartsText;
      hide Failed;
      hide AnswerParts;
      if completed {
        return Faulted(Malformed);
      }
      if m.hasError {
        end := FailNative(s);
        return;
      }
      if m.stopReason != Stop && m.stopReason != ToolUse {
        if m.stopReason == NoReason {
          return Faulted(Malformed);
        }
        end := FailNative(s);
        return;
      }
      if pi.terminal {
        return if pi.stopReason != m.stopReason then Faulted(Malformed) else Good;
      }
      ghost var now := s;
      if !pi.deltas {
        if m.content.None? {
          return Faulted(Malformed);
        }
        end := AnswerContent(m.content.value, s);
        if end != Good {
          return;
        }
        now := AnswerParts(s, m.content.value).state;
      }
      pi := pi.(role := Assistant, terminal := true, stopReason := m.stopReason);
      end := Flush(now.(pi := now.pi.(role := Assistant, terminal := true, stopReason := m.stopReason)));
    }

    method EndAgent(e: PiEvent, ghost s: State) returns (end: End)
      requires Represents(s)
      modifies this, emitter
      ensures Ended(NativeStreams.EndAgent(s, e), end)
    {
      hide Flushed;
      hide Failed;
      if |e.messages| > 0 {
        var last := e.messages[|e.messages| - 1];
        if last.role != Assistant {
          return Faulted(Malformed);
        }
        if last.stopReason != Stop || last.hasError {
          end := FailNative(s);
          return;
        }
      }
      if !pi.terminal || pi.stopReason != Stop {
        return Good;
      }
      if e.willRetry || e.isTerminal == Some(false) {
        completed := false;
        return Good;
      }
      completed := true;
      end := Flush(s.(completed := true));
    }

    /** The reply of a completed stream: the whole answer, unless it went to a receiver. */
    method Result(ghost s: State) returns (r: Option<Text>)
      requires Represents(s)
      ensures r.Some? <==> HasResult(Next(s))
      ensures r.Some? ==> r.value == if emitter.emits then [] else Whole(s.answered)
    {
      r := if completed then Some(reply) else None;
    }
  }
}

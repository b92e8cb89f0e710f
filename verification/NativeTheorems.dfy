/** What an accepted event stream means. */
module NativeTheorems {
  import opened Wrappers
  import opened Utf8
  import opened Batching
  import opened NativeStreams

  // ---- Deltas of snapshots ----

  function JoinItem(answered: seq<Delta>, id: string): Text {
    if answered == [] then []
    else JoinItem(answered[..|answered| - 1], id) + (if answered[|answered| - 1].item == id then answered[|answered| - 1].text else [])
  }

  lemma ItemAppend(answered: seq<Delta>, d: Delta, id: string)
    ensures JoinItem(answered + [d], id) == JoinItem(answered, id) + (if d.item == id then d.text else [])
  {
    assert (answered + [d])[..|answered|] == answered;
  }

  function Shown(s: State, id: string): Text {
    if id in s.items then s.items[id] else []
  }

  lemma PrefixRest(x: Text, y: Text)
    requires IsPrefix(x, y)
    ensures y == x + y[|x|..]
  {
  }

  lemma SnapshotIs(s: State, id: string, text: Text)
    requires Snapshot(s, id, text).Next?
    ensures var previous := Shown(s, id);
            IsPrefix(previous, text)
            && Snapshot(s, id, text).state == s.(items := s.items[id := text], answered := s.answered + [Delta(id, text[|previous|..])],
                                                 emitter := Collect(s.emitter, text[|previous|..]))
  {
    hide IsPrefix;
  }

  lemma SnapshotExtends(s: State, id: string, text: Text, other: string)
    requires Snapshot(s, id, text).Next? && JoinItem(s.answered, other) == Shown(s, other)
    ensures var t := Snapshot(s, id, text).state;
            JoinItem(t.answered, other) == Shown(t, other) == (if other == id then text else Shown(s, other))
  {
    var previous := Shown(s, id);
    SnapshotIs(s, id, text);
    PrefixRest(previous, text);
    ItemAppend(s.answered, Delta(id, text[|previous|..]), other);
    hide JoinItem;
    hide Snapshot;
    hide IsPrefix;
  }

  /** The text of the last snapshot of a Codex item. */
  function LastCodex(events: seq<CodexEvent>, id: string): Text {
    if events == [] then []
    else
      var e := events[|events| - 1];
      if IsMessage(e) && e.item.value.id == id then e.item.value.text
      else LastCodex(events[..|events| - 1], id)
  }

  predicate IsMessage(e: CodexEvent) {
    ItemEvent(e.kind) && e.item.Some? && e.item.value.isMessage
  }

  lemma CodexStepDeltas(s: State, e: CodexEvent, id: string)
    requires ConsumeCodex(s, e).Next? && id != "" && JoinItem(s.answered, id) == Shown(s, id)
    ensures var t := ConsumeCodex(s, e).state;
            JoinItem(t.answered, id) == Shown(t, id)
            == (if IsMessage(e) && e.item.value.id == id then e.item.value.text else Shown(s, id))
  {
    hide JoinItem;
    hide SafeSession;
    hide Collect;
    if IsMessage(e) {
      if e.item.value.id != "" {
        SnapshotExtends(s, e.item.value.id, e.item.value.text, id);
        hide Snapshot;
      } else {
        ItemAppend(s.answered, Delta("", e.item.value.text), id);
      }
    }
  }

  lemma CodexFront(events: seq<CodexEvent>)
    requires events != [] && RunCodex(events).Next?
    ensures RunCodex(events[..|events| - 1]).Next?
    ensures ConsumeCodex(RunCodex(events[..|events| - 1]).state, events[|events| - 1]) == RunCodex(events)
  {
  }

  /** The deltas answered for each Codex item concatenate to its last snapshot. */
  lemma {:induction false} CodexDeltas(events: seq<CodexEvent>, id: string)
    requires RunCodex(events).Next? && id != ""
    ensures JoinItem(RunCodex(events).state.answered, id) == LastCodex(events, id)
    ensures Shown(RunCodex(events).state, id) == LastCodex(events, id)
  {
    if events != [] {
      CodexFront(events);
      hide ConsumeCodex;
      CodexDeltas(events[..|events| - 1], id);
      hide RunCodex;
      hide JoinItem;
      hide Shown;
      CodexStepDeltas(RunCodex(events[..|events| - 1]).state, events[|events| - 1], id);
    }
  }

  predicate IsText(e: OpenCodeEvent) {
    e.kind.Text? && e.part.Some? && e.part.value.kind.TextPart?
  }

  function LastOpenCode(events: seq<OpenCodeEvent>, id: string): Text {
    if events == [] then []
    else
      var e := events[|events| - 1];
      if IsText(e) && e.part.value.id == id then e.part.value.text else LastOpenCode(events[..|events| - 1], id)
  }

  /** The same for OpenCode parts. */
  lemma {:induction false} OpenCodeDeltas(events: seq<OpenCodeEvent>, id: string)
    requires RunOpenCode(events).Next? && id != ""
    ensures JoinItem(RunOpenCode(events).state.answered, id) == LastOpenCode(events, id)
    ensures Shown(RunOpenCode(events).state, id) == LastOpenCode(events, id)
  {
    if events != [] {
      OpenCodeDeltas(events[..|events| - 1], id);
      OpenCodeStepDeltas(RunOpenCode(events[..|events| - 1]).state, events[|events| - 1], id);
    }
  }

  lemma SessionOnly(s: State, id: string)
    requires SetSession(s, id).Next?
    ensures SetSession(s, id).state == s.(session := SetSession(s, id).state.session)
  {
  }

  lemma TextDeltas(s: State, e: OpenCodeEvent, id: string)
    requires TextOpenCode(s, e).Next? && e.kind.Text? && id != "" && JoinItem(s.answered, id) == Shown(s, id)
    ensures var t := TextOpenCode(s, e).state;
            JoinItem(t.answered, id) == Shown(t, id) == (if IsText(e) && e.part.value.id == id then e.part.value.text else Shown(s, id))
  {
    if IsText(e) {
      var t := InMessage(s, e.part);
      if e.part.value.id != "" {
        SnapshotExtends(t, e.part.value.id, e.part.value.text, id);
        hide Snapshot;
      } else {
        ItemAppend(t.answered, Delta("", e.part.value.text), id);
      }
    } else if e.part.None? {
      ItemAppend(s.answered, Delta("", e.text), id);
    }
    hide JoinItem;
  }

  lemma TextIs(s: State, e: OpenCodeEvent)
    requires ConsumeOpenCode(s, e).Next? && e.kind.Text?
    ensures SetSession(s, e.session).Next? && ConsumeOpenCode(s, e) == TextOpenCode(SetSession(s, e.session).state, e)
  {
  }

  lemma OthersAnswerNothing(s: State, e: OpenCodeEvent)
    requires ConsumeOpenCode(s, e).Next? && !e.kind.Text?
    ensures ConsumeOpenCode(s, e).state.answered == s.answered && ConsumeOpenCode(s, e).state.items == s.items
  {
    hide SafeSession;
  }

  lemma OpenCodeStepDeltas(s: State, e: OpenCodeEvent, id: string)
    requires ConsumeOpenCode(s, e).Next? && id != "" && JoinItem(s.answered, id) == Shown(s, id)
    ensures var t := ConsumeOpenCode(s, e).state;
            JoinItem(t.answered, id) == Shown(t, id) == (if IsText(e) && e.part.value.id == id then e.part.value.text else Shown(s, id))
  {
    if e.kind.Text? {
      TextIs(s, e);
      SessionOnly(s, e.session);
      hide ConsumeOpenCode;
      hide TextOpenCode;
      hide SetSession;
      hide JoinItem;
      TextDeltas(SetSession(s, e.session).state, e, id);
    } else {
      OthersAnswerNothing(s, e);
      hide ConsumeOpenCode;
      hide JoinItem;
    }
  }

  // ---- Completion ----

  lemma CodexStep(s: State, e: CodexEvent)
    requires ConsumeCodex(s, e).Next?
    ensures !e.hasError && !e.kind.Error? && !e.kind.TurnFailed?
    ensures s.completed ==> !e.kind.TurnStarted? && !e.kind.TurnCompleted? && ConsumeCodex(s, e).state.answered == s.answered
    ensures ConsumeCodex(s, e).state.completed <==> s.completed || e.kind.TurnCompleted?
    ensures e.kind.TurnCompleted? ==> ConsumeCodex(s, e).state.answered == s.answered
  {
  }

  /** The turn was completed by event i, and no turn began or ended after it. */
  predicate TurnDoneAt(events: seq<CodexEvent>, i: nat) {
    i < |events| && events[i].kind.TurnCompleted?
    && forall k :: i < k < |events| ==> !events[k].kind.TurnStarted? && !events[k].kind.TurnCompleted?
  }

  lemma {:induction false} CodexCompletes(events: seq<CodexEvent>)
    requires RunCodex(events).Next?
    ensures HasResult(RunCodex(events)) <==> exists i: nat :: TurnDoneAt(events, i)
    ensures !HasResult(RunCodex(events)) ==> forall i :: 0 <= i < |events| ==> !events[i].kind.TurnCompleted?
    ensures forall i :: 0 <= i < |events| ==> !events[i].hasError && !events[i].kind.Error? && !events[i].kind.TurnFailed?
  {
    if events != [] {
      var n := |events| - 1;
      var front := events[..n];
      CodexFront(events);
      CodexCompletes(front);
      CodexStep(RunCodex(front).state, events[n]);
      hide ConsumeCodex;
      hide RunCodex;
      if events[n].kind.TurnCompleted? {
        assert TurnDoneAt(events, n);
      } else if HasResult(RunCodex(front)) {
        var i: nat :| TurnDoneAt(front, i);
        assert TurnDoneAt(events, i);
      }
    }
  }

  lemma {:induction false} CodexQuiet(events: seq<CodexEvent>, i: nat)
    requires RunCodex(events).Next? && TurnDoneAt(events, i)
    ensures RunCodex(events[..i + 1]).Next? && RunCodex(events[..i + 1]).state.answered == RunCodex(events).state.answered
  {
    var n := |events| - 1;
    var front := events[..n];
    CodexFront(events);
    CodexStep(RunCodex(front).state, events[n]);
    hide ConsumeCodex;
    hide RunCodex;
    if i == n {
      assert events[..i + 1] == events;
    } else {
      assert TurnDoneAt(front, i);
      assert front[..i + 1] == events[..i + 1];
      CodexQuiet(front, i);
      CodexCompletes(front);
    }
  }

  /** Codex: a result means that the turn was completed, once, and that no turn, error or answer came
      after that. */
  lemma {:induction false} CodexResult(events: seq<CodexEvent>)
    requires RunCodex(events).Next?
    ensures HasResult(RunCodex(events)) <==> exists i: nat :: TurnDoneAt(events, i)
    ensures forall i :: 0 <= i < |events| ==> !events[i].hasError && !events[i].kind.Error? && !events[i].kind.TurnFailed?
    ensures forall i: nat :: TurnDoneAt(events, i) ==>
              RunCodex(events[..i + 1]).Next? && RunCodex(events[..i + 1]).state.answered == RunCodex(events).state.answered
  {
    CodexCompletes(events);
    forall i: nat | TurnDoneAt(events, i)
      ensures RunCodex(events[..i + 1]).Next? && RunCodex(events[..i + 1]).state.answered == RunCodex(events).state.answered
    {
      CodexQuiet(events, i);
    }
  }

  predicate OpenCodeStop(e: OpenCodeEvent) {
    e.kind.StepFinish? && Reason(e) == Stopped
  }

  predicate OpenCodeRestart(e: OpenCodeEvent) {
    e.kind.StepStart? || (e.kind.StepFinish? && Reason(e) == ToolCalls)
  }

  /** The last stop that no restart follows. */
  predicate StopsAt(events: seq<OpenCodeEvent>, i: nat) {
    i < |events| && OpenCodeStop(events[i]) && forall k :: i < k < |events| ==> !OpenCodeRestart(events[k])
  }

  lemma OpenCodeStep(s: State, e: OpenCodeEvent)
    requires ConsumeOpenCode(s, e).Next?
    ensures !e.hasError && !e.kind.StepError?
    ensures ConsumeOpenCode(s, e).state.completed <==> OpenCodeStop(e) || (s.completed && !OpenCodeRestart(e))
    ensures s.completed || OpenCodeStop(e) ==> ConsumeOpenCode(s, e).state.answered == s.answered
  {
  }

  lemma OpenCodeFront(events: seq<OpenCodeEvent>)
    requires events != [] && RunOpenCode(events).Next?
    ensures RunOpenCode(events[..|events| - 1]).Next?
    ensures ConsumeOpenCode(RunOpenCode(events[..|events| - 1]).state, events[|events| - 1]) == RunOpenCode(events)
  {
  }

  ghost predicate Stops(events: seq<OpenCodeEvent>) {
    exists i: nat :: StopsAt(events, i)
  }

  lemma StopsGrow(events: seq<OpenCodeEvent>)
    requires events != []
    ensures var e := events[|events| - 1];
            Stops(events) <==> OpenCodeStop(e) || (Stops(events[..|events| - 1]) && !OpenCodeRestart(e))
  {
    var n := |events| - 1;
    var front := events[..n];
    forall i: nat | StopsAt(events, i) && i < n ensures StopsAt(front, i) {
    }
    if OpenCodeStop(events[n]) {
      assert StopsAt(events, n);
    } else if Stops(front) && !OpenCodeRestart(events[n]) {
      var i: nat :| StopsAt(front, i);
      assert StopsAt(events, i);
    }
  }

  lemma {:induction false} OpenCodeStops(events: seq<OpenCodeEvent>)
    requires RunOpenCode(events).Next?
    ensures HasResult(RunOpenCode(events)) <==> Stops(events)
    ensures forall i :: 0 <= i < |events| ==> !events[i].hasError && !events[i].kind.StepError?
  {
    if events != [] {
      var front := events[..|events| - 1];
      OpenCodeFront(events);
      OpenCodeStops(front);
      OpenCodeStep(RunOpenCode(front).state, events[|events| - 1]);
      StopsGrow(events);
      hide ConsumeOpenCode;
      hide RunOpenCode;
      hide OpenCodeStop;
      hide OpenCodeRestart;
      hide Stops;
    }
  }

  lemma {:induction false} OpenCodeQuiet(events: seq<OpenCodeEvent>, i: nat)
    requires RunOpenCode(events).Next? && StopsAt(events, i)
    ensures RunOpenCode(events[..i + 1]).Next? && RunOpenCode(events[..i + 1]).state.answered == RunOpenCode(events).state.answered
  {
    var n := |events| - 1;
    var front := events[..n];
    OpenCodeFront(events);
    OpenCodeStep(RunOpenCode(front).state, events[n]);
    hide ConsumeOpenCode;
    hide RunOpenCode;
    if i == n {
      assert events[..i + 1] == events;
    } else {
      assert StopsAt(front, i);
      assert front[..i + 1] == events[..i + 1];
      OpenCodeQuiet(front, i);
      OpenCodeStops(front);
      assert Stops(front);
    }
  }

  /** OpenCode: a result means that a step finished with stop and that after it no step started, no
      tool call was announced, and no answer or error came. */
  lemma {:induction false} OpenCodeResult(events: seq<OpenCodeEvent>)
    requires RunOpenCode(events).Next?
    ensures HasResult(RunOpenCode(events)) <==> exists i: nat :: StopsAt(events, i)
    ensures forall i :: 0 <= i < |events| ==> !events[i].hasError && !events[i].kind.StepError?
    ensures forall i: nat :: StopsAt(events, i) ==>
              RunOpenCode(events[..i + 1]).Next? && RunOpenCode(events[..i + 1]).state.answered == RunOpenCode(events).state.answered
  {
    OpenCodeStops(events);
    forall i: nat | StopsAt(events, i)
      ensures RunOpenCode(events[..i + 1]).Next? && RunOpenCode(events[..i + 1]).state.answered == RunOpenCode(events).state.answered
    {
      OpenCodeQuiet(events, i);
    }
  }

  // ---- pi and omp ----

  predicate StopFinish(e: PiEvent) {
    (e.kind.MessageEnd? || e.kind.TurnEnd?) && e.message.Some? && e.message.value.role.Assistant?
    && e.message.value.stopReason.Stop?
  }

  predicate PiRestart(e: PiEvent) {
    e.kind.AgentStart? || e.kind.TurnStart?
    || (e.kind.MessageStart? && e.message.Some? && e.message.value.role.Assistant?)
  }

  predicate FinalEnd(e: PiEvent) {
    e.kind.AgentEnd? && !e.willRetry && e.isTerminal != Some(false)
  }

  predicate RetryEnd(e: PiEvent) {
    e.kind.AgentEnd? && !FinalEnd(e)
  }

  predicate PiError(e: PiEvent) {
    e.kind.Failure? || e.aborted || e.hasError
  }

  predicate TerminalStop(s: State) {
    s.pi.terminal && s.pi.stopReason.Stop?
  }

  lemma {:induction false} PartsKeep(s: State, parts: seq<ContentPart>)
    requires AnswerParts(s, parts).Next?
    ensures var t := AnswerParts(s, parts).state;
            t == s.(answered := t.answered, emitter := t.emitter)
    decreases |parts|
  {
    if parts != [] {
      PartsKeep(if parts[0].isText then Answer(s, "", parts[0].text).state else s, parts[1..]);
    }
  }

  lemma PiFinishStep(s: State, m: Message)
    requires FinishMessage(s, m).Next?
    ensures var t := FinishMessage(s, m).state;
            && !s.completed && !t.completed && (m.stopReason.Stop? <==> TerminalStop(t))
            && (s.pi.terminal ==> t == s)
  {
    if !s.pi.terminal && !s.pi.deltas {
      PartsKeep(s, m.content.value);
    }
  }

  predicate PiSound(s: State) {
    s.completed ==> TerminalStop(s)
  }

  lemma PiStep(s: State, e: PiEvent)
    requires ConsumePi(s, e).Next? && PiSound(s)
    ensures var t := ConsumePi(s, e).state;
            && PiSound(t) && !PiError(e)
            && (TerminalStop(t) <==> StopFinish(e) || (TerminalStop(s) && !PiRestart(e)))
            && (t.completed <==> (FinalEnd(e) && TerminalStop(s)) || (s.completed && !PiRestart(e) && !RetryEnd(e)))
            && (TerminalStop(s) && !PiRestart(e) ==> t.answered == s.answered)
  {
    if (e.kind.MessageEnd? || e.kind.TurnEnd?) && e.message.Some? && e.message.value.role.Assistant? {
      PiFinishStep(s, e.message.value);
      hide FinishMessage;
    }
  }

  /** Event i ended an assistant message with stop, and nothing restarted since. */
  predicate StoppedAt(events: seq<PiEvent>, i: nat) {
    i < |events| && StopFinish(events[i]) && forall k :: i < k < |events| ==> !PiRestart(events[k])
  }

  /** Event j is the end of the run that matches the stop, and no retry was announced since. */
  predicate EndedAt(events: seq<PiEvent>, i: nat, j: nat) {
    StoppedAt(events, i) && i < j < |events| && FinalEnd(events[j]) && forall k :: j < k < |events| ==> !RetryEnd(events[k])
  }

  lemma PiFront(expected: string, events: seq<PiEvent>)
    requires events != [] && RunPi(expected, events).Next?
    ensures RunPi(expected, events[..|events| - 1]).Next?
    ensures ConsumePi(RunPi(expected, events[..|events| - 1]).state, events[|events| - 1]) == RunPi(expected, events)
  {
  }

  ghost predicate HasEnded(events: seq<PiEvent>) {
    exists i: nat, j: nat :: EndedAt(events, i, j)
  }

  ghost predicate HasStopped(events: seq<PiEvent>) {
    exists i: nat :: StoppedAt(events, i)
  }

  lemma StoppedGrows(events: seq<PiEvent>)
    requires events != []
    ensures var e, front := events[|events| - 1], events[..|events| - 1];
            HasStopped(events) <==> StopFinish(e) || (HasStopped(front) && !PiRestart(e))
  {
    var n := |events| - 1;
    var front := events[..n];
    hide StopFinish;
    hide PiRestart;
    forall i: nat | StoppedAt(events, i) && i < n ensures StoppedAt(front, i) {
    }
    if StopFinish(events[n]) {
      StopFinishNoRestart(events[n]);
      assert StoppedAt(events, n);
    } else if HasStopped(front) && !PiRestart(events[n]) {
      var i: nat :| StoppedAt(front, i);
      assert StoppedAt(events, i);
    }
  }

  lemma StopFinishNoRestart(e: PiEvent)
    ensures StopFinish(e) ==> !PiRestart(e)
  {
  }

  lemma {:induction false} PiStops(expected: string, events: seq<PiEvent>)
    requires RunPi(expected, events).Next?
    ensures PiSound(RunPi(expected, events).state)
    ensures TerminalStop(RunPi(expected, events).state) <==> HasStopped(events)
    ensures forall i :: 0 <= i < |events| ==> !PiError(events[i])
  {
    if events != [] {
      var n := |events| - 1;
      var front := events[..n];
      PiFront(expected, events);
      hide ConsumePi;
      hide PiError;
      hide HasStopped;
      PiStops(expected, front);
      hide RunPi;
      StoppedGrows(events);
      PiStep(RunPi(expected, front).state, events[n]);
    }
  }

  /** Answers do not change after a stop that nothing restarted. */
  lemma {:induction false} PiQuietAfterStop(expected: string, events: seq<PiEvent>, i: nat)
    requires RunPi(expected, events).Next? && StoppedAt(events, i)
    ensures RunPi(expected, events[..i + 1]).Next?
    ensures RunPi(expected, events[..i + 1]).state.answered == RunPi(expected, events).state.answered
  {
    var n := |events| - 1;
    var front := events[..n];
    if i == n {
      assert events[..i + 1] == events;
    } else {
      assert StoppedAt(front, i);
      assert front[..i + 1] == events[..i + 1];
      PiQuietAfterStop(expected, front, i);
      PiStops(expected, front);
      PiStep(RunPi(expected, front).state, events[n]);
      hide ConsumePi;
    }
  }

  lemma EndedGrows(events: seq<PiEvent>)
    requires events != []
    ensures var e, front := events[|events| - 1], events[..|events| - 1];
            HasEnded(events) <==> (FinalEnd(e) && HasStopped(front)) || (HasEnded(front) && !PiRestart(e) && !RetryEnd(e))
  {
    var n := |events| - 1;
    var front := events[..n];
    EndedBefore(events);
    if FinalEnd(events[n]) && HasStopped(front) {
      var i: nat :| StoppedAt(front, i);
      assert EndedAt(events, i, n);
    } else if HasEnded(front) && !PiRestart(events[n]) && !RetryEnd(events[n]) {
      var i: nat, j: nat :| EndedAt(front, i, j);
      assert EndedAt(events, i, j);
    }
  }

  lemma {:induction false} PiCompletes(expected: string, events: seq<PiEvent>)
    requires RunPi(expected, events).Next?
    ensures RunPi(expected, events).state.completed <==> HasEnded(events)
  {
    if events != [] {
      var n := |events| - 1;
      var front := events[..n];
      PiFront(expected, events);
      PiCompletes(expected, front);
      PiStops(expected, front);
      PiStep(RunPi(expected, front).state, events[n]);
      EndedGrows(events);
      hide ConsumePi;
      hide RunPi;
      hide HasEnded;
      hide StoppedAt;
    }
  }

  lemma EndedBefore(events: seq<PiEvent>)
    requires events != []
    ensures var n := |events| - 1;
            forall i: nat, j: nat :: EndedAt(events, i, j) ==>
              && !PiRestart(events[n]) && StoppedAt(events[..n], i)
              && (if j == n then FinalEnd(events[n]) else EndedAt(events[..n], i, j) && !RetryEnd(events[n]))
  {
  }

  /** pi and omp: a result means that an assistant message stopped, that the end event of the run
      followed without a retry after it, and that since the stop there was no restart and no further
      answer text; no accepted stream contains an error. Conversely that is enough for a result. */
  lemma {:induction false} PiResult(expected: string, events: seq<PiEvent>)
    requires RunPi(expected, events).Next?
    ensures HasResult(RunPi(expected, events)) <==> exists i: nat, j: nat :: EndedAt(events, i, j)
    ensures forall i: nat, j: nat :: EndedAt(events, i, j) ==>
              RunPi(expected, events[..i + 1]).Next?
              && RunPi(expected, events[..i + 1]).state.answered == RunPi(expected, events).state.answered
    ensures forall i :: 0 <= i < |events| ==> !PiError(events[i])
  {
    PiCompletes(expected, events);
    PiStops(expected, events);
    forall i: nat, j: nat | EndedAt(events, i, j)
      ensures RunPi(expected, events[..i + 1]).Next?
              && RunPi(expected, events[..i + 1]).state.answered == RunPi(expected, events).state.answered
    {
      PiQuietAfterStop(expected, events, i);
    }
  }

  // ---- What reaches the receiver ----

  /** The whole answer, delta by delta. */
  function Whole(answered: seq<Delta>): Text {
    if answered == [] then [] else Whole(answered[..|answered| - 1]) + answered[|answered| - 1].text
  }

  /** Everything answered is published or pending, in order; the snapshots are valid text. */
  predicate Carries(s: State) {
    Sound(s.emitter) && TextOf(s.emitter) == Whole(s.answered) && forall id :: id in s.items ==> Valid(s.items[id])
  }

  /** A completed stream has nothing pending. */
  predicate Delivers(s: State) {
    Carries(s) && (s.completed ==> s.emitter.pending == [])
  }

  /** What a stream may look like after an event: a failure of the CLI leaves nothing pending. */
  predicate Published(r: Reply) {
    Delivers(r.state) && (r.Fail? && r.fault.NativeFailure? ==> r.state.emitter.pending == [])
  }

  lemma AnswerCarries(s: State, item: string, text: Text)
    requires Delivers(s) && Valid(text)
    ensures Published(Answer(s, item, text))
  {
    if !s.completed {
      AddSound(s.emitter, text);
      var more := s.answered + [Delta(item, text)];
      assert more[..|more| - 1] == s.answered;
      hide Valid;
      hide Add;
      hide TextOf;
      hide Sound;
    }
  }

  lemma FlushDelivers(s: State)
    requires Carries(s)
    ensures Delivers(Flushed(s)) && Flushed(s).emitter.pending == []
  {
    FlushSound(s.emitter);
    hide Valid;
    hide TextOf;
    hide Sound;
    hide Flush;
  }

  /** The fields that play no part in what reaches the receiver. */
  lemma OtherFields(s: State, t: State)
    requires Delivers(s) && t == s.(session := t.session, message := t.message, pi := t.pi, completed := t.completed)
    ensures Carries(t) && (t.completed ==> s.completed ==> Delivers(t)) && (!t.completed ==> Delivers(t))
  {
  }

  /** The replies that answer nothing. */
  lemma Quiet(s: State)
    requires Delivers(s)
    ensures Published(Next(s)) && Published(Fail(Malformed, s)) && Published(Failed(s))
    ensures Published(Next(Flushed(s.(completed := true)))) && Published(Next(Flushed(s.(completed := false))))
    ensures Published(Next(s.(completed := false)))
  {
    FlushDelivers(s);
    OtherFields(s, s.(completed := true));
    OtherFields(s, s.(completed := false));
    FlushDelivers(s.(completed := true));
    FlushDelivers(s.(completed := false));
    hide Carries;
    hide Flush;
  }

  lemma SessionDelivers(s: State, id: string)
    requires Delivers(s)
    ensures Published(SetSession(s, id)) && Delivers(SetSession(s, id).state)
  {
    OtherFields(s, s.(session := id));
    hide Carries;
    hide SafeSession;
  }

  lemma SnapshotCarries(s: State, id: string, text: Text)
    requires Delivers(s) && Valid(text)
    ensures Published(Snapshot(s, id, text))
  {
    var previous := if id in s.items then s.items[id] else [];
    assert Valid([]);
    if IsPrefix(previous, text) {
      ValidRest(text, |previous|);
      AnswerCarries(s.(items := s.items[id := text]), id, text[|previous|..]);
    }
    hide Valid;
    hide Answer;
    hide Sound;
    hide TextOf;
  }

  predicate CodexText(e: CodexEvent) {
    e.item.Some? ==> Valid(e.item.value.text)
  }

  lemma CodexCarries(s: State, e: CodexEvent)
    requires Delivers(s) && CodexText(e)
    ensures Published(ConsumeCodex(s, e))
  {
    hide Published;
    hide Delivers;
    hide Snapshot;
    hide Answer;
    hide SetSession;
    hide Failed;
    hide Flushed;
    hide Valid;
    Quiet(s);
    SessionDelivers(s, e.thread);
    if IsMessage(e) {
      SnapshotCarries(s, e.item.value.id, e.item.value.text);
      AnswerCarries(s, "", e.item.value.text);
    }
  }

  predicate OpenCodeText(e: OpenCodeEvent) {
    Valid(e.text) && (e.part.Some? ==> Valid(e.part.value.text))
  }

  lemma InMessageDelivers(s: State, part: Option<Part>)
    requires Delivers(s)
    ensures Delivers(InMessage(s, part)) && Published(Next(InMessage(s, part).(completed := false)))
  {
    var t := InMessage(s, part);
    OtherFields(s, t);
    hide Carries;
    Quiet(t);
  }

  lemma TextCarries(s: State, e: OpenCodeEvent)
    requires Delivers(s) && OpenCodeText(e)
    ensures Published(TextOpenCode(s, e))
  {
    hide Published;
    hide Delivers;
    hide InMessage;
    hide Snapshot;
    hide Answer;
    hide Valid;
    Quiet(s);
    AnswerCarries(s, "", e.text);
    var t := InMessage(s, e.part);
    InMessageDelivers(s, e.part);
    if e.part.Some? {
      SnapshotCarries(t, e.part.value.id, e.part.value.text);
      AnswerCarries(t, "", e.part.value.text);
    }
  }

  lemma FinishCarries(s: State, e: OpenCodeEvent)
    requires Delivers(s)
    ensures Published(FinishOpenCode(s, e))
  {
    hide Published;
    hide Delivers;
    hide Failed;
    hide Flushed;
    Quiet(s);
  }

  lemma OpenCodeCarries(s: State, e: OpenCodeEvent)
    requires Delivers(s) && OpenCodeText(e)
    ensures Published(ConsumeOpenCode(s, e))
  {
    hide Published;
    hide Delivers;
    hide InMessage;
    hide SetSession;
    hide TextOpenCode;
    hide FinishOpenCode;
    hide Failed;
    hide OpenCodeText;
    var r := SetSession(s, e.session);
    Quiet(s);
    SessionDelivers(s, e.session);
    Quiet(r.state);
    TextCarries(r.state, e);
    FinishCarries(r.state, e);
    InMessageDelivers(r.state, e.part);
  }

  predicate PartsText(parts: seq<ContentPart>) {
    forall i :: 0 <= i < |parts| ==> Valid(parts[i].text)
  }

  predicate PiText(e: PiEvent) {
    && (e.update.Some? && e.update.value.delta.Some? ==> Valid(e.update.value.delta.value))
    && (e.message.Some? && e.message.value.content.Some? ==> PartsText(e.message.value.content.value))
  }

  lemma {:induction false} PartsCarry(s: State, parts: seq<ContentPart>)
    requires Delivers(s) && PartsText(parts)
    ensures Published(AnswerParts(s, parts)) && Delivers(AnswerParts(s, parts).state)
    decreases |parts|
  {
    if parts != [] {
      AnswerCarries(s, "", parts[0].text);
      var r := if parts[0].isText then Answer(s, "", parts[0].text) else Next(s);
      hide Answer;
      hide Valid;
      hide Carries;
      if r.Next? {
        PartsCarry(r.state, parts[1..]);
      }
    }
  }

  /** A state with other bookkeeping of the message. */
  lemma PiDelivers(s: State, pi: Pi)
    requires Delivers(s)
    ensures Delivers(s.(pi := pi)) && Published(Next(s.(pi := pi))) && Published(Next(Flushed(s.(pi := pi))))
  {
    OtherFields(s, s.(pi := pi));
    FlushDelivers(s.(pi := pi));
    hide Carries;
  }

  lemma MessageCarries(s: State, m: Message)
    requires Delivers(s) && (m.content.Some? ==> PartsText(m.content.value))
    ensures Published(FinishMessage(s, m))
  {
    hide Published;
    hide Delivers;
    hide AnswerParts;
    hide Failed;
    hide Flushed;
    hide PartsText;
    Quiet(s);
    var r := if s.pi.deltas || m.content.None? then Next(s) else AnswerParts(s, m.content.value);
    if !s.pi.deltas && m.content.Some? {
      PartsCarry(s, m.content.value);
    }
    PiDelivers(r.state, r.state.pi.(role := Assistant, terminal := true, stopReason := m.stopReason));
  }

  lemma StartCarries(s: State, message: Option<Message>)
    requires Delivers(s)
    ensures Published(StartMessage(s, message)) && Published(Next(Restart(s)))
  {
    hide Published;
    hide Delivers;
    Quiet(s);
    PiDelivers(s, StartMessage(s, message).state.pi);
    PiDelivers(s, Restart(s).pi);
    Quiet(s.(pi := Restart(s).pi));
  }

  lemma UpdateCarries(s: State, e: PiEvent)
    requires Delivers(s) && PiText(e)
    ensures Published(UpdateMessage(s, e))
  {
    hide Published;
    hide Delivers;
    hide Answer;
    hide Failed;
    hide Valid;
    Quiet(s);
    PiDelivers(s, s.pi.(deltas := true));
    if e.update.Some? && e.update.value.delta.Some? {
      AnswerCarries(s.(pi := s.pi.(deltas := true)), "", e.update.value.delta.value);
    }
  }

  lemma EndCarries(s: State, e: PiEvent)
    requires Delivers(s)
    ensures Published(EndAgent(s, e))
  {
    hide Published;
    hide Delivers;
    hide Failed;
    hide Flushed;
    Quiet(s);
  }

  lemma PiCarries(s: State, e: PiEvent)
    requires Delivers(s) && PiText(e)
    ensures Published(ConsumePi(s, e))
  {
    hide Published;
    hide Delivers;
    hide SetSession;
    hide StartMessage;
    hide UpdateMessage;
    hide EndAgent;
    hide FinishMessage;
    hide Restart;
    hide Failed;
    hide SafePiSession;
    Quiet(s);
    SessionDelivers(s, e.id);
    StartCarries(s, e.message);
    UpdateCarries(s, e);
    EndCarries(s, e);
    if e.message.Some? {
      MessageCarries(s, e.message.value);
    }
  }

  lemma {:induction false} RunCodexCarries(events: seq<CodexEvent>)
    requires forall i :: 0 <= i < |events| ==> CodexText(events[i])
    ensures Published(RunCodex(events))
  {
    if events != [] {
      var before := RunCodex(events[..|events| - 1]);
      RunCodexCarries(events[..|events| - 1]);
      if before.Next? {
        CodexCarries(before.state, events[|events| - 1]);
      }
      hide ConsumeCodex;
      hide Delivers;
      hide CodexText;
    } else {
      NewDelivers("");
    }
  }

  lemma {:induction false} RunOpenCodeCarries(events: seq<OpenCodeEvent>)
    requires forall i :: 0 <= i < |events| ==> OpenCodeText(events[i])
    ensures Published(RunOpenCode(events))
  {
    if events != [] {
      var before := RunOpenCode(events[..|events| - 1]);
      RunOpenCodeCarries(events[..|events| - 1]);
      if before.Next? {
        OpenCodeCarries(before.state, events[|events| - 1]);
      }
      hide ConsumeOpenCode;
      hide Delivers;
      hide OpenCodeText;
    } else {
      NewDelivers("");
    }
  }

  lemma {:induction false} RunPiCarries(expected: string, events: seq<PiEvent>)
    requires forall i :: 0 <= i < |events| ==> PiText(events[i])
    ensures Published(RunPi(expected, events))
  {
    if events != [] {
      var before := RunPi(expected, events[..|events| - 1]);
      RunPiCarries(expected, events[..|events| - 1]);
      if before.Next? {
        PiCarries(before.state, events[|events| - 1]);
      }
      hide ConsumePi;
      hide Delivers;
      hide PiText;
    } else {
      NewDelivers(expected);
    }
  }

  lemma NewDelivers(expected: string)
    ensures Delivers(NewStream(expected))
  {
  }

  /** When a stream has a result or the CLI reported a failure, the receiver has everything that was
      answered, in order and in valid batches of at most 4096 bytes; at any other moment all of it
      but a pending tail of less than one batch. */
  predicate Reaches(r: Reply) {
    var e := r.state.emitter;
    && Sound(e) && Join(e.batches) + e.pending == Whole(r.state.answered)
    && (HasResult(r) || (r.Fail? && r.fault.NativeFailure?) ==> Join(e.batches) == Whole(r.state.answered))
  }

  lemma PublishedReaches(r: Reply)
    requires Published(r)
    ensures Reaches(r)
  {
    hide Whole;
    hide Join;
    hide Sound;
  }

  /** Codex answers reach the receiver. */
  lemma CodexReaches(events: seq<CodexEvent>)
    requires forall i :: 0 <= i < |events| ==> CodexText(events[i])
    ensures Reaches(RunCodex(events))
  {
    RunCodexCarries(events);
    PublishedReaches(RunCodex(events));
    hide RunCodex;
    hide Reaches;
  }

  lemma OpenCodeReaches(events: seq<OpenCodeEvent>)
    requires forall i :: 0 <= i < |events| ==> OpenCodeText(events[i])
    ensures Reaches(RunOpenCode(events))
  {
    RunOpenCodeCarries(events);
    PublishedReaches(RunOpenCode(events));
    hide RunOpenCode;
    hide Reaches;
  }

  lemma PiReaches(expected: string, events: seq<PiEvent>)
    requires forall i :: 0 <= i < |events| ==> PiText(events[i])
    ensures Reaches(RunPi(expected, events))
  {
    RunPiCarries(expected, events);
    PublishedReaches(RunPi(expected, events));
    hide RunPi;
    hide Reaches;
  }
}

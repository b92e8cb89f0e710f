/** What a pi or omp stream answers and which events it accepts, in terms of the events before
    (internal/adapter/pi_events.go). */
module PiAnswers {
  import opened NativeStreams
  import opened NativeTheorems
  import opened NativeAnswers

  // ---- What the events before say ----

  /** The message ended is an assistant's. */
  predicate AssistantEnd(e: PiEvent) {
    (e.kind.MessageEnd? || e.kind.TurnEnd?) && e.message.Some? && e.message.value.role.Assistant?
  }

  /** An assistant message ended since the last restart. */
  predicate Ended(events: seq<PiEvent>) {
    events != [] && var e := events[|events| - 1];
    !PiRestart(e) && (AssistantEnd(e) || Ended(events[..|events| - 1]))
  }

  /** The reason that message gave. */
  function EndReason(events: seq<PiEvent>): StopReason {
    if events == [] then NoReason
    else
      var e, front := events[|events| - 1], events[..|events| - 1];
      if AssistantEnd(e) && !Ended(front) then e.message.value.stopReason else EndReason(front)
  }

  /** Who speaks: the role of the message begun last, or the assistant once its message ended. */
  function Speaker(events: seq<PiEvent>): Role {
    if events == [] then NoRole
    else
      var e, front := events[|events| - 1], events[..|events| - 1];
      if e.kind.AgentStart? || e.kind.TurnStart? then NoRole
      else if e.kind.MessageStart? && e.message.Some? then e.message.value.role
      else if AssistantEnd(e) && !Ended(front) then Assistant
      else Speaker(front)
  }

  /** A text delta that is not marked as another role's. */
  predicate TextDeltaEvent(e: PiEvent) {
    && e.kind.MessageUpdate? && e.update.Some? && e.update.value.kind.TextDelta? && e.update.value.delta.Some?
    && (e.message.Some? ==> e.message.value.role.Assistant?)
  }

  /** A text delta of the assistant that speaks. */
  predicate Heard(events: seq<PiEvent>, e: PiEvent) {
    TextDeltaEvent(e) && Speaker(events).Assistant?
  }

  /** The assistant has spoken in deltas since the last restart. */
  predicate Spoke(events: seq<PiEvent>) {
    events != [] && var e, front := events[|events| - 1], events[..|events| - 1];
    !PiRestart(e) && (Heard(front, e) || Spoke(front))
  }

  function PiSession(events: seq<PiEvent>): string {
    if events == [] then ""
    else
      var e := events[|events| - 1];
      if e.kind.Session? then e.id else PiSession(events[..|events| - 1])
  }

  function TextParts(parts: seq<ContentPart>): Text {
    if parts == [] then [] else (if parts[0].isText then parts[0].text else []) + TextParts(parts[1..])
  }

  /** What an event adds to the answer: a delta that is heard, or the text of a message that ends
      without one. */
  function PiNew(events: seq<PiEvent>, e: PiEvent): Text {
    if Heard(events, e) then e.update.value.delta.value
    else if AssistantEnd(e) && !Ended(events) && !Spoke(events) && e.message.value.content.Some?
    then TextParts(e.message.value.content.value)
    else []
  }

  function PiSaid(events: seq<PiEvent>): Text {
    if events == [] then [] else PiSaid(events[..|events| - 1]) + PiNew(events[..|events| - 1], events[|events| - 1])
  }

  predicate PiKnows(s: State, events: seq<PiEvent>) {
    && s.pi.role == Speaker(events) && (s.pi.terminal <==> Ended(events)) && (s.pi.deltas <==> Spoke(events))
    && (s.pi.terminal ==> s.pi.stopReason == EndReason(events))
    && s.session == PiSession(events) && Whole(s.answered) == PiSaid(events)
  }

  // ---- One event ----

  lemma PiAppend(events: seq<PiEvent>, e: PiEvent)
    ensures var more := events + [e];
            && Ended(more) == (!PiRestart(e) && (AssistantEnd(e) || Ended(events)))
            && Spoke(more) == (!PiRestart(e) && (Heard(events, e) || Spoke(events)))
            && EndReason(more) == (if AssistantEnd(e) && !Ended(events) then e.message.value.stopReason else EndReason(events))
            && Speaker(more) == (if e.kind.AgentStart? || e.kind.TurnStart? then NoRole
                                 else if e.kind.MessageStart? && e.message.Some? then e.message.value.role
                                 else if AssistantEnd(e) && !Ended(events) then Assistant
                                 else Speaker(events))
            && PiSession(more) == (if e.kind.Session? then e.id else PiSession(events))
            && PiSaid(more) == PiSaid(events) + PiNew(events, e)
  {
    var more := events + [e];
    assert more[..|more| - 1] == events && more[|more| - 1] == e;
    hide Heard;
    hide PiNew;
    hide AssistantEnd;
    hide PiRestart;
  }

  lemma {:induction false} PartsSay(s: State, parts: seq<ContentPart>)
    requires AnswerParts(s, parts).Next?
    ensures var t := AnswerParts(s, parts).state;
            Whole(t.answered) == Whole(s.answered) + TextParts(parts) && t.session == s.session && t.pi == s.pi
    decreases |parts|
  {
    hide Answer;
    hide Whole;
    if parts != [] {
      if parts[0].isText {
        AnswerSays(s, "", parts[0].text);
        PartsSay(Answer(s, "", parts[0].text).state, parts[1..]);
      } else {
        PartsSay(s, parts[1..]);
      }
    }
  }

  lemma EndKnows(s: State, events: seq<PiEvent>, e: PiEvent)
    requires PiKnows(s, events) && AssistantEnd(e) && FinishMessage(s, e.message.value).Next?
    ensures PiKnows(FinishMessage(s, e.message.value).state, events + [e])
  {
    PiAppend(events, e);
    var m := e.message.value;
    if !s.pi.terminal && !s.pi.deltas {
      PartsSay(s, m.content.value);
    }
    hide AnswerParts;
    hide Whole;
    hide TextParts;
    hide Ended;
    hide Spoke;
    hide EndReason;
    hide Speaker;
    hide PiSession;
    hide PiSaid;
  }

  /** A delta is answered exactly if the assistant speaks. */
  lemma DeltaIs(s: State, e: PiEvent)
    requires e.kind.MessageUpdate? && UpdateMessage(s, e).Next?
    ensures var t := s.(pi := s.pi.(deltas := true));
            if TextDeltaEvent(e) && s.pi.role.Assistant? then
              !s.pi.terminal && UpdateMessage(s, e) == Answer(t, "", e.update.value.delta.value)
            else UpdateMessage(s, e).state == s
  {
    hide Answer;
  }

  lemma DeltaKnows(s: State, events: seq<PiEvent>, e: PiEvent)
    requires PiKnows(s, events) && e.kind.MessageUpdate? && UpdateMessage(s, e).Next?
    ensures PiKnows(UpdateMessage(s, e).state, events + [e])
  {
    hide UpdateMessage;
    hide Answer;
    hide Whole;
    hide Ended;
    hide Spoke;
    hide EndReason;
    hide Speaker;
    hide PiSession;
    hide PiSaid;
    PiAppend(events, e);
    DeltaIs(s, e);
    if TextDeltaEvent(e) && s.pi.role.Assistant? {
      AnswerSays(s.(pi := s.pi.(deltas := true)), "", e.update.value.delta.value);
    }
  }

  lemma OtherKnows(s: State, events: seq<PiEvent>, e: PiEvent)
    requires PiKnows(s, events) && ConsumePi(s, e).Next? && !AssistantEnd(e) && !e.kind.MessageUpdate?
    ensures PiKnows(ConsumePi(s, e).state, events + [e])
  {
    PiAppend(events, e);
    hide FinishMessage;
    hide UpdateMessage;
    hide Whole;
    hide TextParts;
    hide Ended;
    hide Spoke;
    hide EndReason;
    hide Speaker;
    hide PiSession;
    hide PiSaid;
    hide SafePiSession;
    hide SafeSession;
  }

  lemma PiStepKnows(s: State, events: seq<PiEvent>, e: PiEvent)
    requires PiKnows(s, events) && ConsumePi(s, e).Next?
    ensures PiKnows(ConsumePi(s, e).state, events + [e])
  {
    hide PiKnows;
    hide FinishMessage;
    hide UpdateMessage;
    hide SafePiSession;
    if AssistantEnd(e) {
      EndKnows(s, events, e);
    } else if e.kind.MessageUpdate? {
      DeltaKnows(s, events, e);
    } else {
      OtherKnows(s, events, e);
    }
  }

  lemma NothingYet(expected: string)
    ensures PiKnows(NewStream(expected), [])
  {
  }

  lemma {:induction false} PiRunKnows(expected: string, events: seq<PiEvent>)
    requires RunPi(expected, events).Next?
    ensures PiKnows(RunPi(expected, events).state, events)
  {
    hide ConsumePi;
    hide PiKnows;
    if events == [] {
      NothingYet(expected);
    } else {
      var front, e := events[..|events| - 1], events[|events| - 1];
      PiFront(expected, events);
      PiRunKnows(expected, front);
      hide RunPi;
      PiStepKnows(RunPi(expected, front).state, front, e);
      assert front + [e] == events;
    }
  }

  // ---- What the stream answers ----

  /** pi and omp: the whole answer is what the events say, in order. */
  lemma PiAnswer(expected: string, events: seq<PiEvent>)
    requires RunPi(expected, events).Next?
    ensures Whole(RunPi(expected, events).state.answered) == PiSaid(events)
  {
    PiRunKnows(expected, events);
    hide RunPi;
    hide PiSaid;
  }

  /** The texts of the deltas among the events, joined. */
  function Spelled(events: seq<PiEvent>): Text {
    if events == [] then []
    else Spelled(events[..|events| - 1]) + if TextDeltaEvent(events[|events| - 1]) then events[|events| - 1].update.value.delta.value else []
  }

  predicate HasDelta(events: seq<PiEvent>) {
    exists k :: 0 <= k < |events| && TextDeltaEvent(events[k])
  }

  /** Events inside one assistant message: nothing restarts, no message begins, none has ended. */
  predicate InsideMessage(events: seq<PiEvent>) {
    forall k :: 0 <= k < |events| ==> !PiRestart(events[k]) && !events[k].kind.MessageStart? && !AssistantEnd(events[k])
  }

  predicate BeginsMessage(e: PiEvent) {
    e.kind.MessageStart? && e.message.Some? && e.message.value.role.Assistant?
  }

  /** Inside an assistant message everything heard is a delta of it. */
  predicate Midway(before: seq<PiEvent>, inside: seq<PiEvent>, events: seq<PiEvent>) {
    && PiSaid(events) == PiSaid(before) + Spelled(inside) && Speaker(events) == Assistant && !Ended(events)
    && (Spoke(events) <==> HasDelta(inside))
  }

  lemma MessageBegins(before: seq<PiEvent>, start: PiEvent)
    requires BeginsMessage(start)
    ensures Midway(before, [], before + [start])
  {
    PiAppend(before, start);
    hide PiSaid;
    hide Speaker;
    hide Ended;
    hide Spoke;
  }

  lemma MessageGoesOn(before: seq<PiEvent>, inside: seq<PiEvent>, events: seq<PiEvent>, e: PiEvent)
    requires Midway(before, inside, events) && InsideMessage([e])
    ensures Midway(before, inside + [e], events + [e])
  {
    hide PiSaid;
    hide Speaker;
    hide Ended;
    hide Spoke;
    hide HasDelta;
    assert [e][0] == e;
    PiAppend(events, e);
    var more := inside + [e];
    assert more[..|more| - 1] == inside;
    MoreDeltas(more);
    assert PiSaid(before) + Spelled(inside) + PiNew(events, e) == PiSaid(before) + (Spelled(inside) + PiNew(events, e));
  }

  lemma {:induction false} MessageSoFar(before: seq<PiEvent>, start: PiEvent, inside: seq<PiEvent>)
    requires BeginsMessage(start) && InsideMessage(inside)
    ensures Midway(before, inside, before + [start] + inside)
  {
    hide Midway;
    hide PiRestart;
    hide AssistantEnd;
    if inside == [] {
      assert before + [start] + [] == before + [start];
      MessageBegins(before, start);
    } else {
      var n := |inside| - 1;
      MessageSoFar(before, start, inside[..n]);
      MessageGoesOn(before, inside[..n], before + [start] + inside[..n], inside[n]);
      assert before + [start] + inside == before + [start] + inside[..n] + [inside[n]];
      assert inside == inside[..n] + [inside[n]];
    }
  }

  lemma MoreDeltas(inside: seq<PiEvent>)
    requires inside != []
    ensures HasDelta(inside) <==> HasDelta(inside[..|inside| - 1]) || TextDeltaEvent(inside[|inside| - 1])
  {
    hide TextDeltaEvent;
    var n := |inside| - 1;
    if HasDelta(inside[..n]) {
      var k :| 0 <= k < n && TextDeltaEvent(inside[..n][k]);
      assert TextDeltaEvent(inside[k]);
    }
    if HasDelta(inside) && !TextDeltaEvent(inside[n]) {
      var k :| 0 <= k < |inside| && TextDeltaEvent(inside[k]);
      assert TextDeltaEvent(inside[..n][k]);
    }
  }

  /** An assistant message's answer is the join of its text deltas, or of its text parts when no delta
      came. */
  lemma MessageAnswer(expected: string, before: seq<PiEvent>, start: PiEvent, inside: seq<PiEvent>, end: PiEvent)
    requires BeginsMessage(start) && InsideMessage(inside) && AssistantEnd(end)
    requires RunPi(expected, before).Next? && RunPi(expected, before + [start] + inside + [end]).Next?
    ensures Whole(RunPi(expected, before + [start] + inside + [end]).state.answered)
            == Whole(RunPi(expected, before).state.answered)
               + if HasDelta(inside) then Spelled(inside)
                 else if end.message.value.content.Some? then TextParts(end.message.value.content.value) else []
  {
    hide RunPi;
    hide Whole;
    hide InsideMessage;
    hide BeginsMessage;
    hide PiRestart;
    hide Ended;
    hide Spoke;
    hide Speaker;
    hide PiSaid;
    PiAnswer(expected, before);
    PiAnswer(expected, before + [start] + inside + [end]);
    MessageSoFar(before, start, inside);
    PiAppend(before + [start] + inside, end);
    if !HasDelta(inside) {
      NothingSpelled(inside);
    }
  }

  lemma {:induction false} NothingSpelled(inside: seq<PiEvent>)
    requires !HasDelta(inside)
    ensures Spelled(inside) == []
  {
    if inside != [] {
      MoreDeltas(inside);
      NothingSpelled(inside[..|inside| - 1]);
      hide HasDelta;
    }
  }

  // ---- Which events are accepted ----

  predicate BadReason(reason: StopReason) {
    !reason.NoReason? && !reason.Stop? && !reason.ToolUse?
  }

  /** The summary of the run's last message; an empty list stands for a clean stop. */
  function LastSummary(e: PiEvent): Summary {
    if e.messages == [] then Summary(Assistant, Stop, false) else e.messages[|e.messages| - 1]
  }

  /** The event reports a failure: of itself, or inside a session of its update, its ended message or
      its run. */
  ghost predicate PiFailure(events: seq<PiEvent>, e: PiEvent) {
    && !e.kind.NoEvent?
    && (|| PiError(e)
        || (&& PiSession(events) != "" && !e.kind.Session?
            && (|| (&& e.kind.MessageUpdate? && e.update.Some? && !e.update.value.kind.NoUpdate?
                    && var u := e.update.value;
                       u.kind.UpdateError? || u.hasError || (u.kind.Done? && !u.reason.Stop? && !u.reason.ToolUse?))
                || (AssistantEnd(e) && !HasEnded(events) && (e.message.value.hasError || BadReason(e.message.value.stopReason)))
                || (e.kind.AgentEnd? && LastSummary(e).role.Assistant? && (!LastSummary(e).stopReason.Stop? || LastSummary(e).hasError)))))
  }

  /** The event fits what came before: one session, first; messages begin before the run has ended, a
      delta has a speaker whose message has not ended, a message ends with text and always for the
      same reason. */
  ghost predicate PiFits(expected: string, events: seq<PiEvent>, e: PiEvent) {
    if e.kind.NoEvent? then false
    else if e.kind.Session? then PiSession(events) == "" && SafePiSession(e.id) && (expected != "" ==> e.id == expected)
    else
      && PiSession(events) != ""
      && match e.kind
         case MessageStart => e.message.Some? && !e.message.value.role.NoRole? && !HasEnded(events)
         case MessageUpdate => e.update.Some? && !e.update.value.kind.NoUpdate? && UpdateFits(events, e)
         case MessageEnd =>
           e.message.Some? && !e.message.value.role.NoRole? && (e.message.value.role.Assistant? ==> EndFits(events, e.message.value))
         case TurnEnd => e.message.Some? && e.message.value.role.Assistant? && EndFits(events, e.message.value)
         case AgentEnd => LastSummary(e).role.Assistant?
         case _ => true
  }

  ghost predicate UpdateFits(events: seq<PiEvent>, e: PiEvent) {
    e.update.Some? && e.update.value.kind.TextDelta? && (e.message.Some? ==> e.message.value.role.Assistant?) ==>
      && !Speaker(events).NoRole?
      && (Speaker(events).Assistant? ==> !Ended(events) && !HasEnded(events) && e.update.value.delta.Some?)
  }

  ghost predicate EndFits(events: seq<PiEvent>, m: Message) {
    && !HasEnded(events) && (m.stopReason.Stop? || m.stopReason.ToolUse?)
    && if Ended(events) then EndReason(events) == m.stopReason else Spoke(events) || m.content.Some?
  }

  lemma {:induction false} PartsAccepted(s: State, parts: seq<ContentPart>)
    requires !s.completed
    ensures AnswerParts(s, parts).Next?
    decreases |parts|
  {
    if parts != [] {
      var r := if parts[0].isText then Answer(s, "", parts[0].text) else Next(s);
      assert r.Next? && !r.state.completed;
      PartsAccepted(r.state, parts[1..]);
    }
  }

  lemma EndVerdict(s: State, m: Message)
    ensures var r := FinishMessage(s, m);
            && (r.Fail? && r.fault.NativeFailure? <==> !s.completed && (m.hasError || BadReason(m.stopReason)))
            && (r.Next? <==> && !s.completed && !m.hasError && (m.stopReason.Stop? || m.stopReason.ToolUse?)
                             && if s.pi.terminal then s.pi.stopReason == m.stopReason else s.pi.deltas || m.content.Some?)
  {
    if !s.completed && m.content.Some? {
      PartsAccepted(s, m.content.value);
    }
    hide AnswerParts;
  }

  lemma UpdateVerdict(s: State, events: seq<PiEvent>, e: PiEvent)
    requires PiKnows(s, events) && (s.completed <==> HasEnded(events))
    ensures e.update.None? ==> UpdateMessage(s, e) == Fail(Malformed, s)
    ensures e.update.Some? ==>
            var r, u := UpdateMessage(s, e), e.update.value;
            var fails := !u.kind.NoUpdate? && (u.kind.UpdateError? || u.hasError || (u.kind.Done? && !u.reason.Stop? && !u.reason.ToolUse?));
            && (r.Fail? && r.fault.NativeFailure? <==> fails)
            && (r.Next? <==> !u.kind.NoUpdate? && UpdateFits(events, e) && !fails)
  {
    hide Whole;
    hide Ended;
    hide Spoke;
    hide Speaker;
    hide EndReason;
    hide PiSession;
    hide PiSaid;
    hide HasEnded;
    hide Collect;
  }

  lemma SafePiIsSafe(id: string)
    requires SafePiSession(id)
    ensures SafeSession(id) && id != ""
  {
    assert id != "" by {
      assert |id| == 36;
    }
    assert id[0] != '-';
  }

  lemma SessionVerdict(s: State, expected: string, events: seq<PiEvent>, e: PiEvent)
    requires PiKnows(s, events) && s.pi.expected == expected && (e.kind.Session? || e.kind.NoEvent?)
    ensures var r := ConsumePi(s, e);
            && (r.Next? <==> PiFits(expected, events, e) && !PiFailure(events, e))
            && (r.Fail? && r.fault.NativeFailure? <==> PiFailure(events, e))
  {
    hide PiSession;
    hide HasEnded;
    hide SafeSession;
    hide SafePiSession;
    if SafePiSession(e.id) {
      SafePiIsSafe(e.id);
    }
  }

  lemma EventVerdict(s: State, expected: string, events: seq<PiEvent>, e: PiEvent)
    requires PiKnows(s, events) && (s.completed <==> HasEnded(events)) && !e.kind.Session? && !e.kind.NoEvent?
    ensures var r := ConsumePi(s, e);
            && (r.Next? <==> PiFits(expected, events, e) && !PiFailure(events, e))
            && (r.Fail? && r.fault.NativeFailure? <==> PiFailure(events, e))
  {
    hide Whole;
    hide Ended;
    hide Spoke;
    hide Speaker;
    hide EndReason;
    hide PiSession;
    hide PiSaid;
    hide HasEnded;
    hide FinishMessage;
    hide UpdateMessage;
    hide UpdateFits;
    if e.message.Some? {
      EndVerdict(s, e.message.value);
    }
    UpdateVerdict(s, events, e);
  }

  /** pi and omp: after an accepted stream the next event is accepted exactly if it fits what came
      before and reports no failure. */
  lemma PiVerdict(expected: string, events: seq<PiEvent>, e: PiEvent)
    requires RunPi(expected, events).Next?
    ensures var r := ConsumePi(RunPi(expected, events).state, e);
            && (r.Next? <==> PiFits(expected, events, e) && !PiFailure(events, e))
            && (r.Fail? && r.fault.NativeFailure? <==> PiFailure(events, e))
  {
    hide ConsumePi;
    hide RunPi;
    hide PiKnows;
    hide HasEnded;
    hide PiFits;
    hide PiFailure;
    PiRunKnows(expected, events);
    PiCompletes(expected, events);
    ExpectedStays(expected, events);
    var s := RunPi(expected, events).state;
    if e.kind.Session? || e.kind.NoEvent? {
      SessionVerdict(s, expected, events, e);
    } else {
      EventVerdict(s, expected, events, e);
    }
  }

  lemma {:induction false} ExpectedStays(expected: string, events: seq<PiEvent>)
    requires RunPi(expected, events).Next?
    ensures RunPi(expected, events).state.pi.expected == expected
  {
    if events != [] {
      PiFront(expected, events);
      ExpectedStays(expected, events[..|events| - 1]);
      hide RunPi;
      ExpectedStep(RunPi(expected, events[..|events| - 1]).state, events[|events| - 1]);
      hide ConsumePi;
    }
  }

  lemma ExpectedStep(s: State, e: PiEvent)
    requires ConsumePi(s, e).Next?
    ensures ConsumePi(s, e).state.pi.expected == s.pi.expected
  {
    if AssistantEnd(e) && FinishMessage(s, e.message.value).Next? && !s.pi.deltas && e.message.value.content.Some? {
      PartsKeepPi(s, e.message.value.content.value);
    }
    hide AnswerParts;
    hide SafePiSession;
    hide SafeSession;
  }

  lemma PartsKeepPi(s: State, parts: seq<ContentPart>)
    ensures AnswerParts(s, parts).Next? ==> AnswerParts(s, parts).state.pi == s.pi
  {
    if AnswerParts(s, parts).Next? {
      PartsKeep(s, parts);
    }
  }
}

/** What a stream of native events answers and which events it accepts, in terms of the events before
    (internal/adapter/native_events.go, internal/adapter/pi_events.go). */
module NativeAnswers {
  import opened NativeStreams
  import opened NativeTheorems

  lemma WholeAppend(answered: seq<Delta>, d: Delta)
    ensures Whole(answered + [d]) == Whole(answered) + d.text
  {
    assert (answered + [d])[..|answered|] == answered;
  }

  // ---- Codex ----

  /** The session that the events named. */
  function CodexSession(events: seq<CodexEvent>): string {
    if events == [] then ""
    else
      var e := events[|events| - 1];
      if e.kind.ThreadStarted? then e.thread else CodexSession(events[..|events| - 1])
  }

  /** Items with an ID answer what is new in their snapshot, items without one their text. */
  function CodexSaid(events: seq<CodexEvent>): Text {
    if events == [] then []
    else
      var e, front := events[|events| - 1], events[..|events| - 1];
      CodexSaid(front) + if IsMessage(e) then CodexNew(front, e) else []
  }

  /** What a message item adds to what was shown of it. */
  function CodexNew(events: seq<CodexEvent>, e: CodexEvent): Text
    requires IsMessage(e)
  {
    var item := e.item.value;
    var shown := if item.id == "" then [] else LastCodex(events, item.id);
    if |shown| <= |item.text| then item.text[|shown|..] else []
  }

  predicate CodexFailure(e: CodexEvent) {
    !e.kind.NoKind? && (e.kind.Error? || e.kind.TurnFailed? || e.hasError)
  }

  predicate TurnOver(events: seq<CodexEvent>) {
    exists i :: 0 <= i < |events| && events[i].kind.TurnCompleted?
  }

  /** The event fits what came before: one session, one turn, growing snapshots, nothing after it. */
  predicate CodexFits(events: seq<CodexEvent>, e: CodexEvent) {
    match e.kind
    case NoKind => false
    case ThreadStarted => SafeSession(e.thread) && (CodexSession(events) == "" || CodexSession(events) == e.thread)
    case TurnStarted => !TurnOver(events)
    case TurnCompleted => !TurnOver(events)
    case ItemStarted => CodexItemFits(events, e)
    case ItemUpdated => CodexItemFits(events, e)
    case ItemCompleted => CodexItemFits(events, e)
    case _ => true
  }

  predicate CodexItemFits(events: seq<CodexEvent>, e: CodexEvent) {
    e.item.Some? &&
    var item := e.item.value;
    item.isMessage ==> !TurnOver(events) && if item.id == "" then e.kind.ItemCompleted? else IsPrefix(LastCodex(events, item.id), item.text)
  }

  predicate CodexKnows(s: State, events: seq<CodexEvent>) {
    s.session == CodexSession(events) && Whole(s.answered) == CodexSaid(events)
  }

  lemma AnswerSays(s: State, item: string, text: Text)
    requires Answer(s, item, text).Next?
    ensures var t := Answer(s, item, text).state;
            Whole(t.answered) == Whole(s.answered) + text && t.session == s.session && t.pi == s.pi
  {
    WholeAppend(s.answered, Delta(item, text));
  }

  lemma SnapshotSays(s: State, id: string, text: Text)
    requires Snapshot(s, id, text).Next?
    ensures var t := Snapshot(s, id, text).state;
            && IsPrefix(Shown(s, id), text) && Whole(t.answered) == Whole(s.answered) + text[|Shown(s, id)|..] && t.session == s.session
  {
    AnswerSays(s.(items := s.items[id := text]), id, text[|Shown(s, id)|..]);
  }

  lemma CodexItemKnows(s: State, events: seq<CodexEvent>, e: CodexEvent)
    requires ConsumeCodex(s, e).Next? && IsMessage(e)
    requires forall id :: id != "" ==> Shown(s, id) == LastCodex(events, id)
    ensures var t := ConsumeCodex(s, e).state;
            && t.session == s.session
            && Whole(t.answered) == Whole(s.answered) + CodexNew(events, e)
  {
    hide LastCodex;
    hide Whole;
    var item := e.item.value;
    if item.id != "" {
      SnapshotSays(s, item.id, item.text);
      hide Snapshot;
      hide Shown;
    } else {
      AnswerSays(s, "", item.text);
      hide Answer;
    }
  }

  lemma CodexPlainKnows(s: State, events: seq<CodexEvent>, e: CodexEvent)
    requires ConsumeCodex(s, e).Next? && !IsMessage(e)
    ensures var t := ConsumeCodex(s, e).state;
            t.session == (if e.kind.ThreadStarted? then e.thread else s.session) && t.answered == s.answered
  {
    hide SafeSession;
    hide Snapshot;
    hide Answer;
  }

  lemma CodexStepKnows(s: State, events: seq<CodexEvent>, e: CodexEvent)
    requires ConsumeCodex(s, e).Next? && CodexKnows(s, events)
    requires forall id :: id != "" ==> Shown(s, id) == LastCodex(events, id)
    ensures CodexKnows(ConsumeCodex(s, e).state, events + [e])
  {
    hide ConsumeCodex;
    hide CodexNew;
    hide LastCodex;
    hide Shown;
    hide Whole;
    var more := events + [e];
    assert more[..|more| - 1] == events;
    if IsMessage(e) {
      CodexItemKnows(s, events, e);
    } else {
      CodexPlainKnows(s, events, e);
    }
  }

  lemma {:induction false} CodexRunKnows(events: seq<CodexEvent>)
    requires RunCodex(events).Next?
    ensures CodexKnows(RunCodex(events).state, events)
    ensures forall id :: id != "" ==> Shown(RunCodex(events).state, id) == LastCodex(events, id)
  {
    if events != [] {
      var front, e := events[..|events| - 1], events[|events| - 1];
      CodexFront(events);
      CodexRunKnows(front);
      hide RunCodex;
      hide ConsumeCodex;
      hide CodexKnows;
      hide Shown;
      CodexStepKnows(RunCodex(front).state, front, e);
      assert front + [e] == events;
    }
    forall id | id != "" ensures Shown(RunCodex(events).state, id) == LastCodex(events, id) {
      CodexDeltas(events, id);
    }
  }

  /** Codex: the whole answer is what the events say, in order: the new part of each snapshot and the
      text of each unnamed message. */
  lemma CodexAnswer(events: seq<CodexEvent>)
    requires RunCodex(events).Next?
    ensures Whole(RunCodex(events).state.answered) == CodexSaid(events)
  {
    CodexRunKnows(events);
    hide RunCodex;
    hide CodexSaid;
  }

  /** Codex: after an accepted stream the next event is accepted exactly if it fits what came before,
      and it is a native failure exactly if it reports one. */
  lemma CodexVerdict(events: seq<CodexEvent>, e: CodexEvent)
    requires RunCodex(events).Next?
    ensures var r := ConsumeCodex(RunCodex(events).state, e);
            && (r.Next? <==> CodexFits(events, e) && !CodexFailure(e))
            && (r == Fail(NativeFailure, r.state) <==> CodexFailure(e))
  {
    hide SafeSession;
    hide LastCodex;
    hide CodexSession;
    hide CodexSaid;
    hide Whole;
    hide Collect;
    hide IsPrefix;
    CodexRunKnows(events);
    CodexCompletes(events);
    hide RunCodex;
    assert RunCodex(events).state.completed <==> TurnOver(events) by {
      if HasResult(RunCodex(events)) {
        var i: nat :| TurnDoneAt(events, i);
      }
    }
    NoEmptySession();
  }

  lemma NoEmptySession()
    ensures !SafeSession("")
  {
  }

  // ---- OpenCode ----

  function OpenCodeSession(events: seq<OpenCodeEvent>): string {
    if events == [] then ""
    else
      var e := events[|events| - 1];
      if e.session != "" then e.session else OpenCodeSession(events[..|events| - 1])
  }

  /** The event carries answer text: a text event with no part, or with a text part. */
  predicate Answers(e: OpenCodeEvent) {
    e.kind.Text? && (e.part.Some? ==> e.part.value.kind.TextPart?)
  }

  /** What an answering event adds to what was shown of its part. */
  function OpenCodeNew(events: seq<OpenCodeEvent>, e: OpenCodeEvent): Text {
    if e.part.None? then e.text
    else
      var part := e.part.value;
      var shown := if part.id == "" then [] else LastOpenCode(events, part.id);
      if |shown| <= |part.text| then part.text[|shown|..] else []
  }

  function OpenCodeSaid(events: seq<OpenCodeEvent>): Text {
    if events == [] then []
    else
      var e, front := events[|events| - 1], events[..|events| - 1];
      OpenCodeSaid(front) + if Answers(e) then OpenCodeNew(front, e) else []
  }

  predicate OneSession(events: seq<OpenCodeEvent>, e: OpenCodeEvent) {
    e.session == "" || (SafeSession(e.session) && (OpenCodeSession(events) == "" || OpenCodeSession(events) == e.session))
  }

  /** The event belongs to the session and reports a failure. */
  predicate OpenCodeFailure(events: seq<OpenCodeEvent>, e: OpenCodeEvent) {
    && !e.kind.NoStep? && OneSession(events, e)
    && (|| e.kind.StepError? || e.hasError
        || (e.kind.StepFinish? && (e.part.Some? ==> e.part.value.kind.FinishPart?) && Reason(e).Failing?))
  }

  /** The event fits what came before: one session, growing snapshots, no answer after the stop. */
  ghost predicate OpenCodeFits(events: seq<OpenCodeEvent>, e: OpenCodeEvent) {
    && !e.kind.NoStep? && OneSession(events, e)
    && (Answers(e) ==> !Stops(events)
                       && (e.part.Some? && e.part.value.id != "" ==> IsPrefix(LastOpenCode(events, e.part.value.id), e.part.value.text)))
    && (e.kind.StepFinish? ==> (e.part.Some? ==> e.part.value.kind.FinishPart?) && !Reason(e).NoSuchReason?)
  }

  predicate OpenCodeKnows(s: State, events: seq<OpenCodeEvent>) {
    s.session == OpenCodeSession(events) && Whole(s.answered) == OpenCodeSaid(events)
  }

  lemma OpenCodeTextKnows(s: State, events: seq<OpenCodeEvent>, e: OpenCodeEvent)
    requires TextOpenCode(s, e).Next? && Answers(e)
    requires forall id :: id != "" ==> Shown(s, id) == LastOpenCode(events, id)
    ensures var t := TextOpenCode(s, e).state;
            t.session == s.session && Whole(t.answered) == Whole(s.answered) + OpenCodeNew(events, e)
  {
    hide LastOpenCode;
    hide Whole;
    if e.part.None? {
      AnswerSays(s, "", e.text);
    } else {
      var t := InMessage(s, e.part);
      if e.part.value.id != "" {
        SnapshotSays(t, e.part.value.id, e.part.value.text);
        hide Snapshot;
      } else {
        AnswerSays(t, "", e.part.value.text);
      }
    }
    hide Answer;
  }

  lemma OpenCodePlainKnows(s: State, e: OpenCodeEvent)
    requires ConsumeOpenCode(s, e).Next? && !Answers(e)
    ensures var t := ConsumeOpenCode(s, e).state;
            t.session == (if e.session != "" then e.session else s.session) && t.answered == s.answered
  {
    hide SafeSession;
    hide Snapshot;
    hide Answer;
  }

  lemma OpenCodeStepKnows(s: State, events: seq<OpenCodeEvent>, e: OpenCodeEvent)
    requires ConsumeOpenCode(s, e).Next? && OpenCodeKnows(s, events)
    requires forall id :: id != "" ==> Shown(s, id) == LastOpenCode(events, id)
    ensures OpenCodeKnows(ConsumeOpenCode(s, e).state, events + [e])
  {
    hide ConsumeOpenCode;
    hide TextOpenCode;
    hide OpenCodeNew;
    hide LastOpenCode;
    hide Whole;
    hide SafeSession;
    var more := events + [e];
    assert more[..|more| - 1] == events;
    if Answers(e) {
      TextIs(s, e);
      OpenCodeTextKnows(SetSession(s, e.session).state, events, e);
    } else {
      OpenCodePlainKnows(s, e);
    }
  }

  lemma {:induction false} OpenCodeRunKnows(events: seq<OpenCodeEvent>)
    requires RunOpenCode(events).Next?
    ensures OpenCodeKnows(RunOpenCode(events).state, events)
    ensures forall id :: id != "" ==> Shown(RunOpenCode(events).state, id) == LastOpenCode(events, id)
  {
    if events != [] {
      var front, e := events[..|events| - 1], events[|events| - 1];
      OpenCodeFront(events);
      OpenCodeRunKnows(front);
      hide RunOpenCode;
      hide ConsumeOpenCode;
      hide OpenCodeKnows;
      hide Shown;
      OpenCodeStepKnows(RunOpenCode(front).state, front, e);
      assert front + [e] == events;
    }
    forall id | id != "" ensures Shown(RunOpenCode(events).state, id) == LastOpenCode(events, id) {
      OpenCodeDeltas(events, id);
    }
  }

  /** OpenCode: the whole answer is what the events say, in order. */
  lemma OpenCodeAnswer(events: seq<OpenCodeEvent>)
    requires RunOpenCode(events).Next?
    ensures Whole(RunOpenCode(events).state.answered) == OpenCodeSaid(events)
  {
    OpenCodeRunKnows(events);
    hide RunOpenCode;
    hide OpenCodeSaid;
  }

  lemma TextVerdict(s: State, events: seq<OpenCodeEvent>, e: OpenCodeEvent)
    requires (s.completed <==> Stops(events)) && e.kind.Text?
    requires forall id :: id != "" ==> Shown(s, id) == LastOpenCode(events, id)
    ensures TextOpenCode(s, e).Fail? ==> TextOpenCode(s, e).fault == Malformed
    ensures TextOpenCode(s, e).Next? <==>
              (Answers(e) ==> !Stops(events)
                              && (e.part.Some? && e.part.value.id != "" ==> IsPrefix(LastOpenCode(events, e.part.value.id), e.part.value.text)))
  {
    hide LastOpenCode;
    hide Stops;
    hide IsPrefix;
    hide Collect;
  }

  lemma OpenCodeVerdictAt(s: State, events: seq<OpenCodeEvent>, e: OpenCodeEvent)
    requires OpenCodeKnows(s, events) && (s.completed <==> Stops(events))
    requires forall id :: id != "" ==> Shown(s, id) == LastOpenCode(events, id)
    ensures var r := ConsumeOpenCode(s, e);
            && (r.Next? <==> OpenCodeFits(events, e) && !OpenCodeFailure(events, e))
            && (r == Fail(NativeFailure, r.state) <==> OpenCodeFailure(events, e))
  {
    hide SafeSession;
    hide LastOpenCode;
    hide OpenCodeSession;
    hide OpenCodeSaid;
    hide Whole;
    hide Stops;
    hide TextOpenCode;
    hide IsPrefix;
    var t := SetSession(s, e.session).state;
    if e.kind.Text? {
      TextVerdict(t, events, e);
    }
  }

  /** OpenCode: after an accepted stream the next event is accepted exactly if it fits what came before
      and reports no failure. */
  lemma OpenCodeVerdict(events: seq<OpenCodeEvent>, e: OpenCodeEvent)
    requires RunOpenCode(events).Next?
    ensures var r := ConsumeOpenCode(RunOpenCode(events).state, e);
            && (r.Next? <==> OpenCodeFits(events, e) && !OpenCodeFailure(events, e))
            && (r == Fail(NativeFailure, r.state) <==> OpenCodeFailure(events, e))
  {
    hide RunOpenCode;
    hide ConsumeOpenCode;
    hide OpenCodeKnows;
    hide Stops;
    hide Shown;
    hide OpenCodeFits;
    hide OpenCodeFailure;
    OpenCodeRunKnows(events);
    OpenCodeStops(events);
    OpenCodeVerdictAt(RunOpenCode(events).state, events, e);
  }
}

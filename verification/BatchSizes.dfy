/** How large the batches and pieces are: tiny deltas are coalesced, and a reply is cut only where it
    must be (internal/adapter/native_events.go, internal/messaging/service.go). */
module BatchSizes {
  import opened Utf8
  import opened Batching

  /** In valid text the way back to the start of a character is at most three bytes. */
  lemma BackOffNear(text: seq<byte>, n: nat)
    requires Valid(text) && 4 <= n <= |text|
    ensures n - 3 <= BackOff(text, n) <= n
  {
    hide Valid;
    if n < |text| {
      ValidStarts(text, n - 4);
      var p :| n - 4 < p <= n && RuneStart(text[p]);
    }
  }

  // ---- The answer emitter ----

  /** The smallest batch that leaves because it is full. */
  const FULL := 4093

  /** All batches from i on are full, unless the only one is the first text of the answer, whole. */
  predicate FullFrom(batches: seq<seq<byte>>, i: nat, text: seq<byte>) {
    forall k :: i <= k < |batches| ==> |batches[k]| >= FULL || (k == 0 && batches == [text])
  }

  lemma TurnIsFull(e: Emitter, text: seq<byte>)
    requires Ready(e) && Prompt(e) && Valid(text) && text != []
    ensures var t := Turn(e, text);
            || (t.e.batches == e.batches && e.published)
            || exists b :: && t.e.batches == e.batches + [b] && t.e.pending == []
                           && (|b| >= FULL || (e.batches == [] && b == text && t.rest == []))
  {
    var room := MAX_DELTA - |e.pending|;
    if room < |text| {
      BackOffNear(text, room);
    }
    hide Valid;
    hide BackOff;
    var n := Take(e, text);
    assert n > 0 && (room >= |text| ==> n == |text|);
    var b := e.pending + text[..n];
    if !e.published || |b| >= FULL {
      assert Turn(e, text).e.batches == e.batches + [b];
    }
  }

  /** Once something has been published, add publishes full batches only; the first text of an answer
      leaves at once, whole if it fits. */
  lemma {:induction false} AddCoalesces(e: Emitter, text: seq<byte>)
    requires Ready(e) && Bounded(e) && AllValid(e) && Prompt(e) && Valid(text) && NoLongRun(text, MAX_DELTA)
    ensures e.batches <= Add(e, text).batches && FullFrom(Add(e, text).batches, |e.batches|, text)
    ensures !e.published && text != [] ==> Add(e, text).batches != []
    decreases |text|, |e.pending|
  {
    hide Valid;
    AddExtends(e, text);
    if text != [] {
      var t := Turn(e, text);
      TurnReady(e, text);
      DropKeepsNoLongRun(text, Take(e, text), MAX_DELTA);
      TurnShrinks(e, text);
      TurnIsFull(e, text);
      TurnKeepsBounds(e, text);
      TurnKeepsValid(e, text);
      hide Turn;
      hide NoLongRun;
      hide Bounded;
      hide AllValid;
      AddExtends(t.e, t.rest);
      AddCoalesces(t.e, t.rest);
    }
  }

  function Small(batches: seq<seq<byte>>): nat {
    if batches == [] then 0 else Small(batches[..|batches| - 1]) + if |batches[|batches| - 1]| < FULL then 1 else 0
  }

  lemma {:induction false} SmallStays(batches: seq<seq<byte>>, more: seq<seq<byte>>)
    requires batches <= more && forall k :: |batches| <= k < |more| ==> |more[k]| >= FULL
    ensures Small(more) == Small(batches)
    decreases |more|
  {
    if more == batches {
    } else {
      SmallStays(batches, more[..|more| - 1]);
    }
  }

  lemma {:induction false} SmallIsAtMost(batches: seq<seq<byte>>)
    ensures Small(batches) <= |batches|
  {
    if batches != [] {
      SmallIsAtMost(batches[..|batches| - 1]);
    }
  }

  function Sends(calls: seq<Call>): nat {
    if calls == [] then 0 else Sends(calls[..|calls| - 1]) + if calls[|calls| - 1].Send? then 1 else 0
  }

  lemma SmallAppend(batches: seq<seq<byte>>, b: seq<byte>)
    ensures Small(batches + [b]) <= Small(batches) + 1
  {
    assert (batches + [b])[..|batches|] == batches;
  }

  /** After any interleaving of adds and flushes, at most one batch for each flush, and the first, is
      less than full: tiny deltas are coalesced. */
  lemma {:induction false} DeltasAreCoalesced(calls: seq<Call>)
    requires CallsValid(calls)
    ensures var e := Emitted(calls); Small(e.batches) <= Sends(calls) + if e.batches == [] then 0 else 1
  {
    if calls != [] {
      var front, last := calls[..|calls| - 1], calls[|calls| - 1];
      var before := Emitted(front);
      DeltasAreCoalesced(front);
      AnswerIsPublished(front);
      if last.Send? {
        SmallAppend(before.batches, before.pending);
      } else {
        ValidHasNoLongRun(last.text, MAX_DELTA);
        AddCoalesces(before, last.text);
        SmallAfterAdd(before.batches, Add(before, last.text).batches, last.text);
      }
      hide Valid;
      hide Small;
      hide Add;
    }
  }

  lemma SmallAfterAdd(batches: seq<seq<byte>>, more: seq<seq<byte>>, text: seq<byte>)
    requires batches <= more && FullFrom(more, |batches|, text)
    ensures Small(more) == Small(batches) || (batches == [] && Small(more) <= 1 && more != [])
  {
    if batches == [] && more == [text] {
      SmallIsAtMost(more);
    } else {
      SmallStays(batches, more);
    }
    hide Small;
  }

  // ---- The reply splitter ----

  /** A valid reply is cut only where it must be: every piece but the last is within three bytes of
      the limit. */
  lemma {:induction false} PiecesAreLarge(reply: seq<byte>)
    requires Valid(reply) && NoLongRun(reply, MAX_REPLY)
    ensures var parts := Split(reply);
            && (forall i :: 0 <= i < |parts| - 1 ==> |parts[i]| >= 8189)
            && (0 < |reply| <= 8192 ==> parts == [reply])
    decreases |reply|
  {
    hide Valid;
    if reply != [] {
      var n := Cut(reply);
      CutTakes(reply);
      DropKeepsNoLongRun(reply, n, MAX_REPLY);
      if |reply| > MAX_REPLY {
        BackOffNear(reply, MAX_REPLY);
      }
      ValidCut(reply, n);
      PiecesAreLarge(reply[n..]);
      hide NoLongRun;
      assert Split(reply) == [reply[..n]] + Split(reply[n..]);
      if n == |reply| {
        assert reply[..n] == reply && Split(reply[n..]) == [];
      }
    }
  }
}

/** Cutting text into bounded batches without splitting a character: the answer emitter
    (internal/adapter/native_events.go) and the reply splitter (internal/messaging/service.go). */
module Batching {
  import opened Utf8

  const MAX_DELTA := 4096
  const MAX_REPLY := 8192

  /** Back from position n to the start of a character, or to 0. */
  function BackOff(text: seq<byte>, n: nat): (r: nat)
    requires n <= |text|
    ensures r <= n && (0 < r < |text| ==> RuneStart(text[r]))
    ensures n == |text| ==> r == n
    ensures forall k :: r < k <= n && k < |text| ==> !RuneStart(text[k])
  {
    if n < |text| && n > 0 && !RuneStart(text[n]) then BackOffInside(text, n - 1) else n
  }

  function BackOffInside(text: seq<byte>, n: nat): (r: nat)
    requires n < |text|
    ensures r <= n && (r > 0 ==> RuneStart(text[r])) && forall k :: r < k <= n ==> !RuneStart(text[k])
  {
    if n > 0 && !RuneStart(text[n]) then BackOffInside(text, n - 1) else n
  }

  function Min(a: nat, b: nat): nat {
    if a <= b then a else b
  }

  /** Backing off stays positive exactly if a character starts within reach. */
  lemma BackOffPositive(text: seq<byte>, n: nat)
    requires 0 < n <= |text|
    ensures BackOff(text, n) > 0 <==> n == |text| || exists k :: 1 <= k <= n && RuneStart(text[k])
  {
  }

  // ---- The answer emitter ----

  datatype Emitter = Emitter(pending: seq<byte>, published: bool, batches: seq<seq<byte>>)

  function NewEmitter(): Emitter {
    Emitter([], false, [])
  }

  function Flush(e: Emitter): Emitter {
    if e.pending == [] then e else Emitter([], true, e.batches + [e.pending])
  }

  function Take(e: Emitter, text: seq<byte>): (n: nat)
    requires |e.pending| <= MAX_DELTA
    ensures n <= |text|
  {
    BackOff(text, Min(MAX_DELTA - |e.pending|, |text|))
  }

  datatype Turned = Turned(e: Emitter, rest: seq<byte>)

  /** One turn of the loop of add. */
  function Turn(e: Emitter, text: seq<byte>): Turned
    requires |e.pending| <= MAX_DELTA
  {
    var n := Take(e, text);
    if n == 0 then Turned(Flush(e), text)
    else
      var f := e.(pending := e.pending + text[..n]);
      Turned(if !f.published || |f.pending| >= MAX_DELTA - 3 then Flush(f) else f, text[n..])
  }

  /** Between turns a pending batch has room for any character. */
  predicate Ready(e: Emitter) {
    |e.pending| < MAX_DELTA - 3
  }

  function Turns(e: Emitter, text: seq<byte>, k: nat): Turned
    requires Ready(e)
    decreases k
  {
    if k == 0 || text == [] then Turned(e, text)
    else
      TurnReady(e, text);
      Turns(Turn(e, text).e, Turn(e, text).rest, k - 1)
  }

  lemma TurnReady(e: Emitter, text: seq<byte>)
    requires Ready(e)
    ensures Ready(Turn(e, text).e)
  {
  }

  /** The loop ends. */
  ghost predicate Finishes(e: Emitter, text: seq<byte>)
    requires Ready(e)
  {
    exists k: nat :: Turns(e, text, k).rest == []
  }

  lemma DropKeepsNoLongRun(text: seq<byte>, n: nat, max: nat)
    requires NoLongRun(text, max) && n <= |text|
    ensures NoLongRun(text[n..], max)
  {
    var rest := text[n..];
    forall q | 0 <= q < |rest| && q + max < |rest| ensures StartsWithin(rest, q, max) {
      assert StartsWithin(text, q + n, max);
      var p :| q + n < p <= q + n + max && RuneStart(text[p]);
      assert rest[p - n] == text[p];
    }
  }

  /** With an empty buffer, and no long run ahead, a turn takes something. */
  lemma EmptyTakes(e: Emitter, text: seq<byte>)
    requires e.pending == [] && text != [] && NoLongRun(text, MAX_DELTA)
    ensures Take(e, text) > 0
  {
    var n := Min(MAX_DELTA, |text|);
    if n < |text| {
      assert StartsWithin(text, 0, MAX_DELTA);
      var p :| 0 < p <= MAX_DELTA && RuneStart(text[p]);
    }
    BackOffPositive(text, n);
  }

  /** add as a whole: the loop, which ends because every turn consumes text or empties the buffer. */
  function Add(e: Emitter, text: seq<byte>): Emitter
    requires Ready(e) && NoLongRun(text, MAX_DELTA)
    decreases |text|, |e.pending|
  {
    if text == [] then e
    else
      TurnReady(e, text);
      DropKeepsNoLongRun(text, Take(e, text), MAX_DELTA);
      TurnShrinks(e, text);
      Add(Turn(e, text).e, Turn(e, text).rest)
  }

  lemma TurnShrinks(e: Emitter, text: seq<byte>)
    requires Ready(e) && text != [] && NoLongRun(text, MAX_DELTA)
    ensures var t := Turn(e, text);
            |t.rest| < |text| || (t.rest == text && |t.e.pending| < |e.pending|)
    ensures Turn(e, text).rest == text[Take(e, text)..]
  {
    if e.pending == [] {
      EmptyTakes(e, text);
    }
  }

  lemma {:induction false} AddFinishes(e: Emitter, text: seq<byte>)
    requires Ready(e) && NoLongRun(text, MAX_DELTA)
    ensures exists k: nat :: Turns(e, text, k) == Turned(Add(e, text), [])
    decreases |text|, |e.pending|
  {
    if text == [] {
      assert Turns(e, text, 0) == Turned(e, []);
    } else {
      TurnReady(e, text);
      DropKeepsNoLongRun(text, Take(e, text), MAX_DELTA);
      TurnShrinks(e, text);
      var t := Turn(e, text);
      AddFinishes(t.e, t.rest);
      var k: nat :| Turns(t.e, t.rest, k) == Turned(Add(t.e, t.rest), []);
      assert Turns(e, text, k + 1) == Turns(t.e, t.rest, k);
    }
  }

  lemma DropShiftsStarts(text: seq<byte>, q: nat, n: nat, max: nat)
    requires n <= q && q + max < |text|
    ensures StartsWithin(text[n..], q - n, max) ==> StartsWithin(text, q, max)
  {
    if StartsWithin(text[n..], q - n, max) {
      var p :| q - n < p <= q - n + max && RuneStart(text[n..][p]);
      assert text[p + n] == text[n..][p];
    }
  }

  /** A cut inside the text is where a character starts, so it does not fall into a run. */
  lemma CutsAtStart(e: Emitter, text: seq<byte>, q: nat)
    requires Ready(e) && q + MAX_DELTA < |text|
    ensures Take(e, text) <= MAX_DELTA && (Take(e, text) > q ==> StartsWithin(text, q, MAX_DELTA))
  {
    var n := Take(e, text);
    assert n < |text|;
    assert n > 0 ==> RuneStart(text[n]);
  }

  /** A long run is still ahead after a turn. */
  lemma LongRunStays(e: Emitter, text: seq<byte>)
    requires Ready(e) && !NoLongRun(text, MAX_DELTA)
    ensures !NoLongRun(Turn(e, text).rest, MAX_DELTA) && Turn(e, text).rest != []
  {
    var q :| 0 <= q < |text| && q + MAX_DELTA < |text| && !StartsWithin(text, q, MAX_DELTA);
    var n := Take(e, text);
    CutsAtStart(e, text, q);
    DropShiftsStarts(text, q, n, MAX_DELTA);
    hide Take;
    assert Turn(e, text).rest == text[n..];
  }

  lemma {:induction false} LongRunNeverEnds(e: Emitter, text: seq<byte>, k: nat)
    requires Ready(e) && !NoLongRun(text, MAX_DELTA)
    ensures Turns(e, text, k).rest != []
    decreases k
  {
    if k > 0 {
      LongRunStays(e, text);
      TurnReady(e, text);
      LongRunNeverEnds(Turn(e, text).e, Turn(e, text).rest, k - 1);
    }
  }

  /** The loop ends exactly for text without a run of 4096 continuation bytes after its first byte,
      whatever is pending; in particular for every valid text. */
  lemma AddTerminates(e: Emitter, text: seq<byte>)
    requires Ready(e)
    ensures Finishes(e, text) <==> NoLongRun(text, MAX_DELTA)
    ensures Valid(text) ==> Finishes(e, text)
  {
    if Valid(text) {
      ValidHasNoLongRun(text, MAX_DELTA);
    }
    if NoLongRun(text, MAX_DELTA) {
      AddFinishes(e, text);
      var k: nat :| Turns(e, text, k) == Turned(Add(e, text), []);
      assert Turns(e, text, k).rest == [];
    } else {
      forall k: nat ensures Turns(e, text, k).rest != [] {
        LongRunNeverEnds(e, text, k);
      }
    }
  }

  function Join(batches: seq<seq<byte>>): seq<byte> {
    if batches == [] then [] else Join(batches[..|batches| - 1]) + batches[|batches| - 1]
  }

  /** Everything that was added so far. */
  function TextOf(e: Emitter): seq<byte> {
    Join(e.batches) + e.pending
  }

  lemma JoinAppend(batches: seq<seq<byte>>, b: seq<byte>)
    ensures Join(batches + [b]) == Join(batches) + b
  {
    assert (batches + [b])[..|batches|] == batches;
  }

  predicate Bounded(e: Emitter) {
    forall i :: 0 <= i < |e.batches| ==> 0 < |e.batches[i]| <= MAX_DELTA
  }

  predicate AllValid(e: Emitter) {
    Valid(e.pending) && forall i :: 0 <= i < |e.batches| ==> Valid(e.batches[i])
  }

  /** The first answer leaves at once. */
  predicate Prompt(e: Emitter) {
    (e.published <==> e.batches != []) && (!e.published ==> e.pending == [])
  }

  lemma FlushKeeps(e: Emitter)
    requires Bounded(e) && |e.pending| <= MAX_DELTA
    ensures TextOf(Flush(e)) == TextOf(e) && Bounded(Flush(e)) && (AllValid(e) ==> AllValid(Flush(e)))
  {
    JoinAppend(e.batches, e.pending);
    hide Join;
    assert Valid([]);
    hide Valid;
  }

  /** Taking n bytes over into the buffer. */
  lemma TakeKeepsText(e: Emitter, text: seq<byte>, n: nat)
    requires n <= |text|
    ensures TextOf(e.(pending := e.pending + text[..n])) + text[n..] == TextOf(e) + text
  {
    assert text == text[..n] + text[n..];
    hide Join;
  }

  lemma TakeKeepsValid(pending: seq<byte>, text: seq<byte>, n: nat)
    requires n <= |text| && (n < |text| ==> RuneStart(text[n])) && Valid(pending) && Valid(text)
    ensures Valid(pending + text[..n]) && Valid(text[n..])
  {
    ValidCut(text, n);
    ValidConcat(pending, text[..n]);
  }

  lemma TurnKeepsBounds(e: Emitter, text: seq<byte>)
    requires Ready(e) && Bounded(e)
    ensures Bounded(Turn(e, text).e) && (Prompt(e) ==> Prompt(Turn(e, text).e))
  {
  }

  lemma TurnKeepsText(e: Emitter, text: seq<byte>)
    requires Ready(e) && Bounded(e)
    ensures TextOf(Turn(e, text).e) + Turn(e, text).rest == TextOf(e) + text
  {
    var n := Take(e, text);
    if n > 0 {
      TakeKeepsText(e, text, n);
      FlushKeeps(e.(pending := e.pending + text[..n]));
    } else {
      FlushKeeps(e);
    }
    hide TextOf;
  }

  lemma TurnKeepsValid(e: Emitter, text: seq<byte>)
    requires Ready(e) && Bounded(e) && AllValid(e) && Valid(text)
    ensures AllValid(Turn(e, text).e) && Valid(Turn(e, text).rest)
  {
    var n := Take(e, text);
    if n > 0 {
      TakeKeepsValid(e.pending, text, n);
      FlushKeeps(e.(pending := e.pending + text[..n]));
    } else {
      FlushKeeps(e);
    }
    hide TextOf;
    hide Valid;
  }

  /** Nothing is lost, reordered or split: the batches and the pending tail together are exactly
      the text added, every batch is non-empty and at most 4096 bytes, and for valid UTF-8 every
      batch and the tail are valid. */
  lemma {:induction false} AddKeeps(e: Emitter, text: seq<byte>)
    requires Ready(e) && Bounded(e) && NoLongRun(text, MAX_DELTA)
    ensures var f := Add(e, text);
            && Ready(f) && Bounded(f) && TextOf(f) == TextOf(e) + text
            && (AllValid(e) && Valid(text) ==> AllValid(f)) && (Prompt(e) ==> Prompt(f))
    decreases |text|, |e.pending|
  {
    if text != [] {
      TurnReady(e, text);
      DropKeepsNoLongRun(text, Take(e, text), MAX_DELTA);
      TurnShrinks(e, text);
      TurnKeepsText(e, text);
      TurnKeepsBounds(e, text);
      if AllValid(e) && Valid(text) {
        TurnKeepsValid(e, text);
      }
      hide Valid;
      hide AllValid;
      AddKeeps(Turn(e, text).e, Turn(e, text).rest);
    }
  }

  lemma {:induction false} AddReady(e: Emitter, text: seq<byte>)
    requires Ready(e) && NoLongRun(text, MAX_DELTA)
    ensures Ready(Add(e, text))
    decreases |text|, |e.pending|
  {
    if text != [] {
      TurnReady(e, text);
      DropKeepsNoLongRun(text, Take(e, text), MAX_DELTA);
      TurnShrinks(e, text);
      AddReady(Turn(e, text).e, Turn(e, text).rest);
    }
  }

  /** Batches that are out stay out. */
  lemma {:induction false} AddExtends(e: Emitter, text: seq<byte>)
    requires Ready(e) && NoLongRun(text, MAX_DELTA)
    ensures e.batches <= Add(e, text).batches
    decreases |text|, |e.pending|
  {
    if text != [] {
      TurnReady(e, text);
      DropKeepsNoLongRun(text, Take(e, text), MAX_DELTA);
      TurnShrinks(e, text);
      assert e.batches <= Turn(e, text).e.batches;
      AddExtends(Turn(e, text).e, Turn(e, text).rest);
    }
  }

  // ---- A whole answer ----

  /** The two calls on an emitter, add and flush. */
  datatype Call = Say(text: seq<byte>) | Send

  predicate CallsValid(calls: seq<Call>) {
    forall i :: 0 <= i < |calls| && calls[i].Say? ==> Valid(calls[i].text)
  }

  function Emitted(calls: seq<Call>): (e: Emitter)
    requires CallsValid(calls)
    ensures Ready(e)
  {
    if calls == [] then NewEmitter()
    else
      var before, last := Emitted(calls[..|calls| - 1]), calls[|calls| - 1];
      if last.Send? then Flush(before)
      else
        ValidHasNoLongRun(last.text, MAX_DELTA);
        AddReady(before, last.text);
        Add(before, last.text)
  }

  function Said(calls: seq<Call>): seq<byte> {
    if calls == [] then []
    else Said(calls[..|calls| - 1]) + if calls[|calls| - 1].Say? then calls[|calls| - 1].text else []
  }

  predicate Sound(e: Emitter) {
    Ready(e) && Bounded(e) && AllValid(e) && Prompt(e)
  }

  lemma AddSound(e: Emitter, text: seq<byte>)
    requires Sound(e) && Valid(text)
    ensures NoLongRun(text, MAX_DELTA) && Sound(Add(e, text)) && TextOf(Add(e, text)) == TextOf(e) + text
    ensures e.batches <= Add(e, text).batches
  {
    ValidHasNoLongRun(text, MAX_DELTA);
    hide NoLongRun;
    AddKeeps(e, text);
    AddExtends(e, text);
    hide Valid;
    hide Add;
    hide TextOf;
  }

  lemma FlushSound(e: Emitter)
    requires Sound(e)
    ensures Sound(Flush(e)) && TextOf(Flush(e)) == TextOf(e) == Join(Flush(e).batches) && Flush(e).pending == []
    ensures e.batches <= Flush(e).batches
  {
    FlushKeeps(e);
    hide Valid;
    hide Join;
  }

  /** After any interleaving of adds and flushes: the published batches and what is pending are the
      text added, in order, valid and bounded, the first batch left with the first text, and after a
      flush all of it is published. */
  lemma {:induction false} AnswerIsPublished(calls: seq<Call>)
    requires CallsValid(calls)
    ensures var e := Emitted(calls);
            && Sound(e) && TextOf(e) == Said(calls)
            && (calls != [] && calls[|calls| - 1].Send? ==> e.pending == [] && Join(e.batches) == Said(calls))
  {
    if calls != [] {
      var before, last := Emitted(calls[..|calls| - 1]), calls[|calls| - 1];
      AnswerIsPublished(calls[..|calls| - 1]);
      if last.Say? {
        AddSound(before, last.text);
      } else {
        FlushSound(before);
      }
      hide Valid;
      hide TextOf;
      hide Sound;
      hide Flush;
      hide Add;
    }
  }

  // ---- The reply splitter ----

  function Cut(rest: seq<byte>): (n: nat)
    ensures n <= |rest| && n <= MAX_REPLY && (0 < n < |rest| ==> RuneStart(rest[n]))
  {
    BackOff(rest, Min(MAX_REPLY, |rest|))
  }

  /** What k turns of the splitting loop leave. */
  function Left(reply: seq<byte>, k: nat): seq<byte> {
    if k == 0 || reply == [] then reply else Left(reply[Cut(reply)..], k - 1)
  }

  lemma CutTakes(rest: seq<byte>)
    requires rest != [] && NoLongRun(rest, MAX_REPLY)
    ensures Cut(rest) > 0
  {
    var n := Min(MAX_REPLY, |rest|);
    if n < |rest| {
      assert StartsWithin(rest, 0, MAX_REPLY);
      var p :| 0 < p <= MAX_REPLY && RuneStart(rest[p]);
    }
    BackOffPositive(rest, n);
  }

  function Split(reply: seq<byte>): seq<seq<byte>>
    requires NoLongRun(reply, MAX_REPLY)
    decreases |reply|
  {
    if reply == [] then []
    else
      CutTakes(reply);
      DropKeepsNoLongRun(reply, Cut(reply), MAX_REPLY);
      [reply[..Cut(reply)]] + Split(reply[Cut(reply)..])
  }

  lemma {:induction false} JoinFront(b: seq<byte>, batches: seq<seq<byte>>)
    ensures Join([b] + batches) == b + Join(batches)
  {
    if batches == [] {
      assert [b] + batches == [b] && [b][..0] == [];
    } else {
      assert ([b] + batches)[..|batches|] == [b] + batches[..|batches| - 1];
      JoinFront(b, batches[..|batches| - 1]);
    }
  }

  /** A reply that was not streamed is published whole, in order, in valid pieces of at most 8192
      bytes. */
  lemma {:induction false} SplitKeeps(reply: seq<byte>)
    requires NoLongRun(reply, MAX_REPLY)
    ensures var parts := Split(reply);
            && Join(parts) == reply
            && (forall i :: 0 <= i < |parts| ==> 0 < |parts[i]| <= MAX_REPLY)
            && (Valid(reply) ==> forall i :: 0 <= i < |parts| ==> Valid(parts[i]))
    decreases |reply|
  {
    if reply != [] {
      var n := Cut(reply);
      CutTakes(reply);
      DropKeepsNoLongRun(reply, n, MAX_REPLY);
      SplitKeeps(reply[n..]);
      var rest := Split(reply[n..]);
      JoinFront(reply[..n], rest);
      assert reply == reply[..n] + reply[n..];
      if Valid(reply) {
        ValidCut(reply, n);
      }
      assert Split(reply) == [reply[..n]] + rest;
      hide Split;
      hide Valid;
      hide Join;
      hide Cut;
      FrontPiece(reply[..n], rest);
    }
  }

  lemma FrontPiece(b: seq<byte>, rest: seq<seq<byte>>)
    ensures (forall i :: 0 <= i < |rest| ==> 0 < |rest[i]| <= MAX_REPLY) && 0 < |b| <= MAX_REPLY ==>
              forall i :: 0 <= i < |[b] + rest| ==> 0 < |([b] + rest)[i]| <= MAX_REPLY
    ensures (forall i :: 0 <= i < |rest| ==> Valid(rest[i])) && Valid(b) ==> forall i :: 0 <= i < |[b] + rest| ==> Valid(([b] + rest)[i])
  {
    hide Valid;
  }

  lemma {:induction false} SplitEnds(reply: seq<byte>)
    requires NoLongRun(reply, MAX_REPLY)
    ensures exists k: nat :: Left(reply, k) == []
    decreases |reply|
  {
    if reply == [] {
      assert Left(reply, 0) == [];
    } else {
      CutTakes(reply);
      DropKeepsNoLongRun(reply, Cut(reply), MAX_REPLY);
      SplitEnds(reply[Cut(reply)..]);
      var k: nat :| Left(reply[Cut(reply)..], k) == [];
      assert Left(reply, k + 1) == [];
    }
  }

  lemma {:induction false} SplitNeverEnds(reply: seq<byte>, k: nat)
    requires !NoLongRun(reply, MAX_REPLY)
    ensures Left(reply, k) != []
    decreases k
  {
    if k > 0 {
      var q :| 0 <= q < |reply| && q + MAX_REPLY < |reply| && !StartsWithin(reply, q, MAX_REPLY);
      var n := Cut(reply);
      assert n < |reply| && (n > 0 ==> RuneStart(reply[n]));
      DropShiftsStarts(reply, q, n, MAX_REPLY);
      SplitNeverEnds(reply[n..], k - 1);
    }
  }

  /** The splitting loop ends exactly for replies without a run of 8192 continuation bytes after the
      first byte, in particular for every valid reply. */
  lemma SplitTerminates(reply: seq<byte>)
    ensures (exists k: nat :: Left(reply, k) == []) <==> NoLongRun(reply, MAX_REPLY)
    ensures Valid(reply) ==> NoLongRun(reply, MAX_REPLY)
  {
    if Valid(reply) {
      ValidHasNoLongRun(reply, MAX_REPLY);
    }
    if NoLongRun(reply, MAX_REPLY) {
      SplitEnds(reply);
    } else {
      forall k: nat ensures Left(reply, k) != [] {
        SplitNeverEnds(reply, k);
      }
    }
  }
}

/** The batching loops as the code that runs them. */
module AnswerEmitters {
  import opened Batching
  import opened Utf8

  method FindStart(text: seq<byte>, from: nat) returns (n: nat)
    requires from <= |text|
    ensures n == BackOff(text, from)
  {
    n := from;
    if n < |text| {
      while n > 0 && !RuneStart(text[n])
        invariant n <= from && n < |text|
        invariant BackOffInside(text, n) == BackOffInside(text, from)
      {
        n := n - 1;
      }
    }
  }

  class AnswerEmitter {
    /** Without a receiver nothing is collected; a receiver fails after the batches it accepts. */
    const emits: bool
    const accepts: nat
    var pending: seq<byte>
    var published: bool
    var batches: seq<seq<byte>>

    ghost function View(): Emitter
      reads this
    {
      Emitter(pending, published, batches)
    }

    constructor (emits: bool, accepts: nat)
      ensures View() == NewEmitter() && this.emits == emits && this.accepts == accepts
    {
      this.emits, this.accepts, pending, published, batches := emits, accepts, [], false, [];
    }

    /** The receiver has accepted exactly what it could of the batches of f, or all of them. */
    ghost predicate Reached(f: Emitter, ok: bool)
      reads this
    {
      && (ok <==> |f.batches| <= accepts)
      && if ok then View() == f else batches == f.batches[..accepts]
    }

    method Flush() returns (ok: bool)
      requires |batches| <= accepts
      modifies this
      ensures Reached(Batching.Flush(old(View())), ok)
    {
      if |pending| == 0 {
        return true;
      }
      if |batches| == accepts {
        return false;
      }
      batches := batches + [pending];
      pending := [];
      published := true;
      ok := true;
    }

    /** One turn of the loop: takes over what fits, or makes room. */
    method TakeOver(text: seq<byte>) returns (ok: bool, rest: seq<byte>)
      requires Ready(View()) && |batches| <= accepts
      modifies this
      ensures Reached(Turn(old(View()), text).e, ok)
      ensures ok ==> rest == Turn(old(View()), text).rest
    {
      rest, ok := text, true;
      var n := FindStart(text, Min(MAX_DELTA - |pending|, |text|));
      if n == 0 {
        ok := Flush();
      } else {
        pending := pending + text[..n];
        rest := text[n..];
        if !published || |pending| >= MAX_DELTA - 3 {
          ok := Flush();
        }
      }
    }

    method Add(added: seq<byte>) returns (ok: bool)
      requires Ready(View()) && NoLongRun(added, MAX_DELTA) && |batches| <= accepts
      modifies this
      ensures if emits then Reached(Batching.Add(old(View()), added), ok) else ok && View() == old(View())
    {
      if !emits {
        return true;
      }
      ghost var final := Batching.Add(View(), added);
      var text := added;
      while |text| > 0
        invariant Ready(View()) && NoLongRun(text, MAX_DELTA) && |batches| <= accepts
        invariant Batching.Add(View(), text) == final
        decreases |text|, |pending|
      {
        TurnStep(View(), text);
        hide NoLongRun;
        hide Batching.Add;
        hide Turn;
        var rest;
        ok, rest := TakeOver(text);
        if !ok {
          return;
        }
        text := rest;
      }
      AddExtends(View(), text);
      ok := true;
    }
  }

  /** One turn of the loop brings the end nearer and takes no batch back. */
  lemma TurnStep(e: Emitter, text: seq<byte>)
    requires Ready(e) && NoLongRun(text, MAX_DELTA) && text != []
    ensures var t := Turn(e, text);
            && Ready(t.e) && NoLongRun(t.rest, MAX_DELTA) && t.rest == text[Take(e, text)..]
            && Add(t.e, t.rest) == Add(e, text) && t.e.batches <= Add(e, text).batches
            && (|t.rest| < |text| || (t.rest == text && |t.e.pending| < |e.pending|))
  {
    TurnReady(e, text);
    TurnShrinks(e, text);
    DropKeepsNoLongRun(text, Take(e, text), MAX_DELTA);
    AddExtends(Turn(e, text).e, Turn(e, text).rest);
  }

  /** The reply in pieces, as the worker emits them. */
  method SplitReply(reply: seq<byte>) returns (parts: seq<seq<byte>>)
    requires NoLongRun(reply, MAX_REPLY)
    ensures parts == Split(reply)
    ensures Join(parts) == reply && forall i :: 0 <= i < |parts| ==> 0 < |parts[i]| <= MAX_REPLY
    ensures Valid(reply) ==> forall i :: 0 <= i < |parts| ==> Valid(parts[i])
  {
    parts := Pieces(reply);
    SplitKeeps(reply);
    hide Valid;
    hide Split;
    hide Join;
  }

  method Pieces(reply: seq<byte>) returns (parts: seq<seq<byte>>)
    requires NoLongRun(reply, MAX_REPLY)
    ensures parts == Split(reply)
  {
    parts := [];
    var rest := reply;
    while |rest| > 0
      invariant NoLongRun(rest, MAX_REPLY) && parts + Split(rest) == Split(reply)
      decreases |rest|
    {
      CutTakes(rest);
      DropKeepsNoLongRun(rest, Cut(rest), MAX_REPLY);
      hide NoLongRun;
      var size := FindStart(rest, Min(|rest|, MAX_REPLY));
      assert [rest[..size]] + Split(rest[size..]) == Split(rest);
      parts := parts + [rest[..size]];
      rest := rest[size..];
    }
  }
}

/** Splitting a child's standard output into events (internal/adapter/runner.go). The output arrives
    in Write calls of any size; what the events are must not depend on that. */
module OutputLines {
  import opened Utf8

  const MAX_EVENT := 262144
  const MAX_OUTPUT := 4194304
  const MAX_ERRORS := 8192
  const NEWLINE: byte := 10

  /** The splitter while it works, or after an event over the limit; `lines` went to the callback. */
  datatype Stream = Live(line: seq<byte>, lines: seq<seq<byte>>) | Broken(lines: seq<seq<byte>>)

  /** The callback gets a line without surrounding space, and nothing for a blank one. */
  function Deliver(lines: seq<seq<byte>>, line: seq<byte>, trim: seq<byte> -> seq<byte>): seq<seq<byte>> {
    if trim(line) == [] then lines else lines + [trim(line)]
  }

  function FeedByte(s: Stream, b: byte, trim: seq<byte> -> seq<byte>): Stream {
    if s.Broken? then s
    else if b == NEWLINE then Live([], Deliver(s.lines, s.line, trim))
    else if |s.line| + 1 > MAX_EVENT then Broken(s.lines)
    else Live(s.line + [b], s.lines)
  }

  function Feed(s: Stream, bytes: seq<byte>, trim: seq<byte> -> seq<byte>): Stream {
    if bytes == [] then s else FeedByte(Feed(s, bytes[..|bytes| - 1], trim), bytes[|bytes| - 1], trim)
  }

  lemma {:induction false} FeedAppend(s: Stream, x: seq<byte>, y: seq<byte>, trim: seq<byte> -> seq<byte>)
    ensures Feed(s, x + y, trim) == Feed(Feed(s, x, trim), y, trim)
  {
    if y == [] {
      assert x + y == x;
    } else {
      assert (x + y)[..|x + y| - 1] == x + y[..|y| - 1];
      FeedAppend(s, x, y[..|y| - 1], trim);
    }
  }

  /** Bytes without a newline extend the line, or break it when it gets too long. */
  lemma {:induction false} FeedPart(s: Stream, part: seq<byte>, trim: seq<byte> -> seq<byte>)
    requires s.Live? && |s.line| <= MAX_EVENT && forall i :: 0 <= i < |part| ==> part[i] != NEWLINE
    ensures Feed(s, part, trim) == if |s.line| + |part| <= MAX_EVENT then Live(s.line + part, s.lines) else Broken(s.lines)
  {
    if part == [] {
      assert s.line + part == s.line;
    } else {
      FeedPart(s, part[..|part| - 1], trim);
      assert s.line + part == s.line + part[..|part| - 1] + [part[|part| - 1]];
    }
  }

  // ---- The lines of a whole stream ----

  /** The stream cut at every newline; the last segment is what follows the last newline. */
  function Segments(bytes: seq<byte>): (segments: seq<seq<byte>>)
    ensures |segments| >= 1
  {
    if bytes == [] then [[]]
    else
      var front := Segments(bytes[..|bytes| - 1]);
      var b := bytes[|bytes| - 1];
      if b == NEWLINE then front + [[]] else front[|front| - 1 := front[|front| - 1] + [b]]
  }

  function Kept(segments: seq<seq<byte>>, trim: seq<byte> -> seq<byte>): seq<seq<byte>> {
    if segments == [] then [] else Deliver(Kept(segments[..|segments| - 1], trim), segments[|segments| - 1], trim)
  }

  predicate AllFit(segments: seq<seq<byte>>) {
    forall i :: 0 <= i < |segments| ==> |segments[i]| <= MAX_EVENT
  }

  /** Segment i is the first one over the limit. */
  predicate FirstOver(segments: seq<seq<byte>>, i: nat) {
    i < |segments| && |segments[i]| > MAX_EVENT && forall j :: 0 <= j < i ==> |segments[j]| <= MAX_EVENT
  }

  function Start(): Stream {
    Live([], [])
  }

  /** Without a segment over the limit, the callback has had every complete line and the rest is
      kept; otherwise it has had the lines before the first such segment, and no more. */
  lemma {:induction false} FeedIsSegments(bytes: seq<byte>, trim: seq<byte> -> seq<byte>)
    ensures var segments := Segments(bytes);
            var s := Feed(Start(), bytes, trim);
            && (AllFit(segments) ==> s == Live(segments[|segments| - 1], Kept(segments[..|segments| - 1], trim)))
            && (forall i: nat :: FirstOver(segments, i) ==> s == Broken(Kept(segments[..i], trim)))
  {
    if bytes != [] {
      var front := bytes[..|bytes| - 1];
      FeedIsSegments(front, trim);
      SegmentsStep(Segments(front), Feed(Start(), front, trim), bytes[|bytes| - 1], trim);
    } else {
      assert Segments(bytes)[..0] == [];
    }
  }

  lemma {:induction false} LeastOver(segments: seq<seq<byte>>, n: nat)
    requires n <= |segments| && exists i :: 0 <= i < n && |segments[i]| > MAX_EVENT
    ensures exists i :: 0 <= i < n && FirstOver(segments, i)
  {
    if exists i :: 0 <= i < n - 1 && |segments[i]| > MAX_EVENT {
      LeastOver(segments, n - 1);
    } else {
      assert FirstOver(segments, n - 1);
    }
  }

  lemma FirstIsUnique(segments: seq<seq<byte>>, i: nat, k: nat)
    requires FirstOver(segments, i) && FirstOver(segments, k)
    ensures i == k
  {
  }

  lemma SegmentsStep(segments: seq<seq<byte>>, s: Stream, b: byte, trim: seq<byte> -> seq<byte>)
    requires |segments| >= 1
    requires AllFit(segments) ==> s == Live(segments[|segments| - 1], Kept(segments[..|segments| - 1], trim))
    requires forall i: nat :: FirstOver(segments, i) ==> s == Broken(Kept(segments[..i], trim))
    ensures var n := |segments|;
            var more := if b == NEWLINE then segments + [[]] else segments[n - 1 := segments[n - 1] + [b]];
            var t := FeedByte(s, b, trim);
            && (AllFit(more) ==> t == Live(more[|more| - 1], Kept(more[..|more| - 1], trim)))
            && (forall i: nat :: FirstOver(more, i) ==> t == Broken(Kept(more[..i], trim)))
  {
    var n := |segments|;
    var more := if b == NEWLINE then segments + [[]] else segments[n - 1 := segments[n - 1] + [b]];
    if AllFit(segments) {
      if b == NEWLINE {
        assert more[..n] == segments;
      } else {
        assert more[..n - 1] == segments[..n - 1];
      }
    } else {
      var j :| 0 <= j < n && |segments[j]| > MAX_EVENT;
      LeastOver(segments, n);
      var i :| 0 <= i < n && FirstOver(segments, i);
      assert more[..i] == segments[..i];
      assert FirstOver(more, i);
      forall k: nat | FirstOver(more, k) ensures k == i {
        FirstIsUnique(more, i, k);
      }
    }
  }

  // ---- Any split into writes ----

  /** What the child writes, in the order it arrives: on standard output or standard error. */
  datatype Arrival = Stdout(chunk: seq<byte>) | Stderr(size: nat)

  /** `total` counts the bytes offered so far on both streams, `errors` those of standard error; once
      a budget is exceeded nothing more of the stream that exceeded it is processed. */
  datatype Output = Output(stream: Stream, total: nat, overBudget: bool, errors: nat, overErrors: bool)

  function NewOutput(): Output {
    Output(Start(), 0, false, 0, false)
  }

  function WriteChunk(o: Output, chunk: seq<byte>, trim: seq<byte> -> seq<byte>): Output {
    if o.overBudget || o.stream.Broken? then o
    else if o.total + |chunk| > MAX_OUTPUT then o.(total := o.total + |chunk|, overBudget := true)
    else o.(stream := Feed(o.stream, chunk, trim), total := o.total + |chunk|)
  }

  function WriteErrors(o: Output, size: nat): Output {
    if o.overBudget || o.overErrors then o
    else if o.total + size > MAX_OUTPUT then o.(total := o.total + size, overBudget := true)
    else if o.errors + size > MAX_ERRORS then o.(total := o.total + size, overErrors := true)
    else o.(total := o.total + size, errors := o.errors + size)
  }

  function WriteAll(arrivals: seq<Arrival>, trim: seq<byte> -> seq<byte>): Output {
    if arrivals == [] then NewOutput()
    else
      var before := WriteAll(arrivals[..|arrivals| - 1], trim);
      match arrivals[|arrivals| - 1]
      case Stdout(chunk) => WriteChunk(before, chunk, trim)
      case Stderr(size) => WriteErrors(before, size)
  }

  /** The whole standard output. */
  function Out(arrivals: seq<Arrival>): seq<byte> {
    if arrivals == [] then []
    else Out(arrivals[..|arrivals| - 1]) + if arrivals[|arrivals| - 1].Stdout? then arrivals[|arrivals| - 1].chunk else []
  }

  function ErrorBytes(arrivals: seq<Arrival>): nat {
    if arrivals == [] then 0
    else ErrorBytes(arrivals[..|arrivals| - 1]) + if arrivals[|arrivals| - 1].Stderr? then arrivals[|arrivals| - 1].size else 0
  }

  /** runProcess flushes what is left after the child succeeded. */
  function AfterExit(s: Stream, trim: seq<byte> -> seq<byte>): seq<seq<byte>> {
    if s.Live? then Deliver(s.lines, s.line, trim) else s.lines
  }

  lemma {:induction false} BrokenStays(lines: seq<seq<byte>>, bytes: seq<byte>, trim: seq<byte> -> seq<byte>)
    ensures Feed(Broken(lines), bytes, trim) == Broken(lines)
  {
    if bytes != [] {
      BrokenStays(lines, bytes[..|bytes| - 1], trim);
    }
  }

  lemma {:induction false} WritesAreFeed(arrivals: seq<Arrival>, trim: seq<byte> -> seq<byte>)
    requires |Out(arrivals)| + ErrorBytes(arrivals) <= MAX_OUTPUT
    ensures var o := WriteAll(arrivals, trim);
            && !o.overBudget && o.stream == Feed(Start(), Out(arrivals), trim)
            && o.total <= |Out(arrivals)| + ErrorBytes(arrivals)
            && (o.overErrors <==> ErrorBytes(arrivals) > MAX_ERRORS) && (!o.overErrors ==> o.errors == ErrorBytes(arrivals))
  {
    if arrivals != [] {
      var front, last := arrivals[..|arrivals| - 1], arrivals[|arrivals| - 1];
      WritesAreFeed(front, trim);
      if last.Stdout? {
        FeedAppend(Start(), Out(front), last.chunk, trim);
        var o := WriteAll(front, trim);
        if o.stream.Broken? {
          BrokenStays(o.stream.lines, last.chunk, trim);
        }
      } else {
        assert Out(arrivals) == Out(front);
      }
      hide Feed;
    }
  }

  /** For every split of an output within the budget into writes, and wherever standard error comes
      between them: the output limit does not fire, the event limit fires exactly when some line is
      too long, and the callback gets the trimmed non-empty lines of the whole output in order
      (those before the first line that is too long). */
  lemma LinesDoNotDependOnWrites(arrivals: seq<Arrival>, trim: seq<byte> -> seq<byte>)
    requires |Out(arrivals)| + ErrorBytes(arrivals) <= MAX_OUTPUT
    ensures var o := WriteAll(arrivals, trim);
            var segments := Segments(Out(arrivals));
            && !o.overBudget && (o.overErrors <==> ErrorBytes(arrivals) > MAX_ERRORS) && (o.stream.Live? <==> AllFit(segments))
            && (AllFit(segments) ==> AfterExit(o.stream, trim) == Kept(segments, trim))
            && (forall i: nat :: FirstOver(segments, i) ==> o.stream.lines == Kept(segments[..i], trim))
  {
    WritesAreFeed(arrivals, trim);
    FeedIsSegments(Out(arrivals), trim);
    var segments := Segments(Out(arrivals));
    if !AllFit(segments) {
      LeastOver(segments, |segments|);
    }
    hide Segments;
    hide Feed;
  }

  /** An output over the budget is always refused, whatever the split. */
  lemma {:induction false} BudgetHolds(arrivals: seq<Arrival>, trim: seq<byte> -> seq<byte>)
    ensures var o := WriteAll(arrivals, trim);
            && (!o.overBudget && !o.overErrors && o.stream.Live? ==> o.total == |Out(arrivals)| + ErrorBytes(arrivals) <= MAX_OUTPUT)
            && (|Out(arrivals)| + ErrorBytes(arrivals) > MAX_OUTPUT ==> o.overBudget || o.overErrors || o.stream.Broken?)
  {
    if arrivals != [] {
      BudgetHolds(arrivals[..|arrivals| - 1], trim);
      if arrivals[|arrivals| - 1].Stdout? && WriteAll(arrivals[..|arrivals| - 1], trim).stream.Broken? {
        BrokenStays(WriteAll(arrivals[..|arrivals| - 1], trim).stream.lines, arrivals[|arrivals| - 1].chunk, trim);
      }
      hide Feed;
    }
  }

  // ---- The writer ----

  method IndexByte(p: seq<byte>) returns (i: int)
    ensures -1 <= i < |p| && (i >= 0 ==> p[i] == NEWLINE)
    ensures forall j :: 0 <= j < (if i >= 0 then i else |p|) ==> p[j] != NEWLINE
  {
    for k := 0 to |p|
      invariant forall j :: 0 <= j < k ==> p[j] != NEWLINE
    {
      if p[k] == NEWLINE {
        return k;
      }
    }
    i := -1;
  }

  /** Lines that went to the callback stay there. */
  lemma {:induction false} FeedExtends(s: Stream, bytes: seq<byte>, trim: seq<byte> -> seq<byte>)
    ensures s.lines <= Feed(s, bytes, trim).lines
  {
    if bytes != [] {
      FeedExtends(s, bytes[..|bytes| - 1], trim);
    }
  }

  /** The output of one child: its budget, the current line and what the callback has taken. */
  class LineOutput {
    const trim: seq<byte> -> seq<byte>
    /** How many lines the callback takes before it fails. */
    const accepts: nat
    var line: seq<byte>
    var lines: seq<seq<byte>>
    var total: nat
    var errors: nat
    var overBudget: bool
    var overErrors: bool
    var overLimit: bool
    var rejected: bool

    ghost function Contents(): Stream
      reads this
    {
      if overLimit then Broken(lines) else Live(line, lines)
    }

    ghost function View(): Output
      reads this
    {
      Output(Contents(), total, overBudget, errors, overErrors)
    }

    /** The splitter still works. */
    ghost predicate Works()
      reads this
    {
      |line| <= MAX_EVENT && !overLimit && !rejected && |lines| <= accepts
    }

    /** The splitter has done what s says, unless the callback failed first: then the callback has
        exactly the lines that it took. */
    ghost predicate Reached(s: Stream)
      reads this
    {
      |line| <= MAX_EVENT && |lines| <= accepts
      && if |s.lines| > accepts then rejected && lines == s.lines[..accepts] else !rejected && Contents() == s
    }

    constructor (trim: seq<byte> -> seq<byte>, accepts: nat)
      ensures Works() && View() == NewOutput() && this.trim == trim && this.accepts == accepts
    {
      this.trim, this.accepts := trim, accepts;
      line, lines, total, errors := [], [], 0, 0;
      overBudget, overErrors, overLimit, rejected := false, false, false, false;
    }

    method Flush() returns (ok: bool)
      requires Works()
      modifies `line, `lines, `rejected
      ensures Reached(Live([], Deliver(old(lines), old(line), trim))) && ok == !rejected
    {
      var trimmed := trim(line);
      if |trimmed| > 0 {
        if |lines| == accepts {
          rejected := true;
          return false;
        }
        lines := lines + [trimmed];
      }
      line := [];
      ok := true;
    }

    /** Takes over bytes that contain no newline, unless the line gets too long. */
    method Absorb(part: seq<byte>) returns (ok: bool)
      requires Works() && forall i :: 0 <= i < |part| ==> part[i] != NEWLINE
      modifies `line, `overLimit
      ensures Reached(Feed(old(Contents()), part, trim)) && lines == old(lines) && ok == !overLimit
    {
      FeedPart(Contents(), part, trim);
      if |line| + |part| > MAX_EVENT {
        overLimit := true;
        return false;
      }
      line := line + part;
      ok := true;
    }

    /** Takes the bytes up to the next newline, or all of them; `next` is what follows it. */
    method ConsumeLine(p: seq<byte>) returns (next: seq<byte>)
      requires Works() && |p| > 0
      modifies `line, `lines, `overLimit, `rejected
      ensures if next == [] then Reached(Feed(old(Contents()), p, trim))
              else Works() && |next| < |p| && Feed(Contents(), next, trim) == Feed(old(Contents()), p, trim)
    {
      hide Feed;
      hide Deliver;
      var i := IndexByte(p);
      if i < 0 {
        var ok := Absorb(p);
        return [];
      }
      next := p[i + 1..];
      LineFeeds(Contents(), p, i, trim);
      ghost var read := Feed(Contents(), p[..i], trim);
      ghost var delivered := FeedByte(read, NEWLINE, trim);
      FeedExtends(delivered, next, trim);
      FeedNothing(delivered, trim);
      var ok := Absorb(p[..i]);
      if !ok {
        BrokenStays(lines, next, trim);
        return [];
      }
      ok := Flush();
      if !ok {
        return [];
      }
    }

    method Consume(p: seq<byte>)
      requires Works()
      modifies `line, `lines, `overLimit, `rejected
      ensures Reached(Feed(old(Contents()), p, trim))
    {
      hide Feed;
      ghost var goal := Feed(Contents(), p, trim);
      FeedNothing(Contents(), trim);
      var rest := p;
      while |rest| > 0
        invariant if rest == [] then Reached(goal) else Works() && Feed(Contents(), rest, trim) == goal
        decreases |rest|
      {
        rest := ConsumeLine(rest);
      }
    }

    method Write(chunk: seq<byte>) returns (fault: bool)
      requires Works() && !overBudget
      modifies `total, `overBudget, `line, `lines, `overLimit, `rejected
      ensures var w := WriteChunk(old(View()), chunk, trim);
              total == w.total && overBudget == w.overBudget && Reached(w.stream)
      ensures fault <==> overBudget || overLimit || rejected
    {
      hide Feed;
      total := total + |chunk|;
      if total > MAX_OUTPUT {
        overBudget := true;
        return true;
      }
      Consume(chunk);
      fault := overLimit || rejected;
    }

    /** Standard error is read by its own writer but counts against the same budget. */
    method WriteError(size: nat) returns (fault: bool)
      requires !overBudget && !overErrors
      modifies `total, `overBudget, `errors, `overErrors
      ensures View() == WriteErrors(old(View()), size)
      ensures fault <==> overBudget || overErrors
    {
      total := total + size;
      overBudget := total > MAX_OUTPUT;
      if !overBudget {
        if errors + size > MAX_ERRORS {
          overErrors := true;
        } else {
          errors := errors + size;
        }
      }
      fault := overBudget || overErrors;
    }
  }

  lemma FeedNothing(s: Stream, trim: seq<byte> -> seq<byte>)
    ensures Feed(s, [], trim) == s
  {
  }

  lemma LineFeeds(s: Stream, p: seq<byte>, i: nat, trim: seq<byte> -> seq<byte>)
    requires i < |p| && p[i] == NEWLINE
    ensures Feed(s, p, trim) == Feed(FeedByte(Feed(s, p[..i], trim), NEWLINE, trim), p[i + 1..], trim)
  {
    assert p == p[..i] + [NEWLINE] + p[i + 1..];
    FeedAppend(s, p[..i] + [NEWLINE], p[i + 1..], trim);
    assert (p[..i] + [NEWLINE])[..i] == p[..i];
  }
}

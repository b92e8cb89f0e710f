/** The append-only message journal and its in-memory index (internal/messaging/journal.go). */
module Journal {
  import opened Wrappers
  import opened Protocol

  /** An outbox idempotency key. Execution events use the reserved run keys. */
  datatype IdempotencyKey =
    | NoKey
    | ClientKey(text: string)
    | EventSlot(workKey: string, runId: string, seqNo: nat)

  datatype Publication = Publication(
    message: Envelope, key: IdempotencyKey, fingerprint: string, published: bool, previous: string)

  datatype WorkState = Queued | Admitted | Done

  datatype Work = Work(key: string, message: Envelope, state: WorkState, runId: string, seqNo: nat)

  datatype Stored = Stored(env: Envelope, cursor: nat)

  datatype Record = Record(
    publication: Option<Publication>, published: string, received: Option<Stored>, work: Option<Work>)

  type Queues = q: seq<seq<string>> | |q| == WORKER_COUNT witness [[], [], [], [], [], [], [], []]

  datatype Index = Index(
    publications: map<string, Publication>,
    keys: map<IdempotencyKey, string>,
    inbox: seq<Stored>,
    received: set<string>,
    work: map<string, Work>,
    pending: seq<string>,
    queues: Queues,
    tails: map<string, string>,
    pendingCommands: int)

  const NO_QUEUES: Queues := [[], [], [], [], [], [], [], []]
  const EMPTY := Index(map[], map[], [], {}, map[], [], NO_QUEUES, map[], 0)

  // ---- What one record does to the index ----

  function ApplyPublication(x: Index, p: Publication): Index {
    var id := p.message.id;
    x.(pending := if id in x.publications then x.pending else x.pending + [id],
       publications := x.publications[id := p],
       keys := if p.key.NoKey? then x.keys else x.keys[p.key := id],
       tails := if p.message.runId == "" then x.tails else x.tails[EventKey(p.message) := id])
  }

  function ApplyPublished(x: Index, id: string): Index {
    if id != "" && id in x.publications
    then x.(publications := x.publications[id := x.publications[id].(published := true)])
    else x
  }

  function ApplyReceived(x: Index, m: Stored): Index {
    x.(inbox := x.inbox + [m], received := x.received + {MessageKey(m.env)})
  }

  /** A stripped work record takes its message from the work table or from the same record. */
  function ResolveMessage(x: Index, received: Option<Stored>, w: Work): Work {
    if w.message.id != "" then w
    else if w.key in x.work then w.(message := x.work[w.key].message)
    else if received.Some? then w.(message := received.value.env)
    else w
  }

  function ApplyWork(x: Index, w: Work): Index {
    var isNew := w.key !in x.work;
    var opens := IsCommand(w.message.kind) && w.state != Done && (isNew || x.work[w.key].state == Done);
    var closes := IsCommand(w.message.kind) && w.state == Done && !isNew && x.work[w.key].state != Done;
    var shard := WorkShard(w.message);
    x.(pendingCommands := x.pendingCommands + (if opens then 1 else 0) - (if closes then 1 else 0),
       queues := if isNew then x.queues[shard := x.queues[shard] + [w.key]] else x.queues,
       work := x.work[w.key := w])
  }

  function ApplyRecord(x: Index, r: Record): Index {
    var x1 := if r.publication.Some? then ApplyPublication(x, r.publication.value) else x;
    var x2 := ApplyPublished(x1, r.published);
    var x3 := if r.received.Some? then ApplyReceived(x2, r.received.value) else x2;
    if r.work.Some? then ApplyWork(x3, ResolveMessage(x3, r.received, r.work.value)) else x3
  }

  function ReplayFrom(x: Index, log: seq<Record>): Index
    decreases |log|
  {
    if log == [] then x else ReplayFrom(ApplyRecord(x, log[0]), log[1..])
  }

  function Replay(log: seq<Record>): Index {
    if log == [] then EMPTY else ApplyRecord(Replay(log[..|log| - 1]), log[|log| - 1])
  }

  lemma ReplayAppend(log: seq<Record>, r: Record)
    ensures Replay(log + [r]) == ApplyRecord(Replay(log), r)
  {
    assert (log + [r])[..|log|] == log;
  }

  lemma {:induction false} ReplayFromAppend(x: Index, log: seq<Record>, r: Record)
    ensures ReplayFrom(x, log + [r]) == ApplyRecord(ReplayFrom(x, log), r)
    decreases |log|
  {
    if log == [] {
      assert [r][1..] == [];
      assert log + [r] == [r];
    } else {
      assert (log + [r])[1..] == log[1..] + [r];
      ReplayFromAppend(ApplyRecord(x, log[0]), log[1..], r);
    }
  }

  /** Reading the file front to back is the replay of the whole log. */
  lemma {:induction false} ReplayFromStart(log: seq<Record>)
    ensures ReplayFrom(EMPTY, log) == Replay(log)
  {
    if log != [] {
      var n := |log| - 1;
      assert log == log[..n] + [log[n]];
      ReplayFromStart(log[..n]);
      ReplayFromAppend(EMPTY, log[..n], log[n]);
    }
  }

  // ---- The file ----

  /** The form of a record on disk: the work message is not stored a second time. */
  function Wire(r: Record): Record {
    if r.work.Some? then r.(work := Some(r.work.value.(message := NO_ENVELOPE))) else r
  }

  function WireLog(log: seq<Record>): (wire: seq<Record>)
    ensures |wire| == |log|
    ensures forall i :: 0 <= i < |log| ==> wire[i] == Wire(log[i])
  {
    seq(|log|, i requires 0 <= i < |log| => Wire(log[i]))
  }

  /** The line encoding of records is taken as given; Faithful is what JSON supplies. */
  datatype Codec = Codec(encode: Record -> string, decode: string -> Option<Record>)

  ghost predicate Faithful(c: Codec) {
    forall r :: '\n' !in c.encode(r) && c.decode(c.encode(r)) == Some(r)
  }

  function Line(c: Codec, r: Record): string {
    c.encode(Wire(r)) + "\n"
  }

  function FileOf(c: Codec, log: seq<Record>): string {
    if log == [] then "" else Line(c, log[0]) + FileOf(c, log[1..])
  }

  lemma {:induction false} FileOfAppend(c: Codec, log: seq<Record>, r: Record)
    ensures FileOf(c, log + [r]) == FileOf(c, log) + Line(c, r)
  {
    if log == [] {
      assert log + [r] == [r];
      assert FileOf(c, [r]) == Line(c, r) + FileOf(c, []);
    } else {
      assert (log + [r])[1..] == log[1..] + [r];
      FileOfAppend(c, log[1..], r);
      assert Line(c, log[0]) + (FileOf(c, log[1..]) + Line(c, r)) == FileOf(c, log) + Line(c, r);
    }
  }

  /** Length of the text before the first newline, or None when there is none. */
  function LineEnd(file: string): (end: Option<nat>)
    ensures end.Some? ==> end.value < |file|
  {
    if file == "" then None
    else if file[0] == '\n' then Some(0)
    else
      var rest := LineEnd(file[1..]);
      if rest.None? then None else Some(rest.value + 1)
  }

  lemma {:induction false} LineEndAt(text: string, rest: string)
    requires '\n' !in text
    ensures LineEnd(text + ['\n'] + rest) == Some(|text|)
    ensures LineEnd(text) == None
  {
    var file := text + ['\n'] + rest;
    if text != "" {
      LineEndAt(text[1..], rest);
      assert file[1..] == text[1..] + ['\n'] + rest;
    }
  }

  datatype Loaded = Loaded(index: Index, kept: nat) | Corrupt(offset: nat)

  function Shift(l: Loaded, n: nat): Loaded {
    if l.Loaded? then Loaded(l.index, l.kept + n) else Corrupt(l.offset + n)
  }

  /** What opening a file yields: the index, and how many bytes survive the final truncation. */
  function Load(c: Codec, file: string, x: Index): Loaded
    decreases |file|
  {
    var end := LineEnd(file);
    if end.None? then Loaded(x, 0)
    else
      var record := c.decode(file[..end.value]);
      if record.None? then Corrupt(0)
      else Shift(Load(c, file[end.value + 1..], ApplyRecord(x, record.value)), end.value + 1)
  }

  /** Whole records within the first n bytes. */
  function WholeRecords(c: Codec, log: seq<Record>, n: nat): (k: nat)
    ensures k <= |log|
  {
    if log == [] || n < |Line(c, log[0])| then 0
    else 1 + WholeRecords(c, log[1..], n - |Line(c, log[0])|)
  }

  /** Opening a file that starts with a whole record applies it and opens the rest. */
  lemma LoadLine(c: Codec, r: Record, rest: string, x: Index)
    requires Faithful(c)
    ensures Load(c, Line(c, r) + rest, x) == Shift(Load(c, rest, ApplyRecord(x, Wire(r))), |Line(c, r)|)
  {
    var text := c.encode(Wire(r));
    var file := Line(c, r) + rest;
    LineEndAt(text, rest);
    assert file == text + ['\n'] + rest;
    assert file[..|text|] == text;
    assert file[|text| + 1..] == rest;
  }

  /** Where a cut after n bytes leaves the file: inside, or just after, its k-th record. */
  lemma {:induction false} WholeRecordsFit(c: Codec, log: seq<Record>, n: nat)
    requires n <= |FileOf(c, log)|
    ensures var k := WholeRecords(c, log, n);
            && |FileOf(c, log[..k])| <= n
            && FileOf(c, log)[..|FileOf(c, log[..k])|] == FileOf(c, log[..k])
            && (k < |log| ==> n < |FileOf(c, log[..k + 1])|)
  {
    var k := WholeRecords(c, log, n);
    if log != [] {
      var line := Line(c, log[0]);
      if n < |line| {
        assert log[..1] == [log[0]] && FileOf(c, log[..1]) == line + FileOf(c, []);
      } else {
        WholeRecordsFit(c, log[1..], n - |line|);
        assert log[..k][1..] == log[1..][..k - 1];
        if k < |log| {
          assert log[..k + 1][1..] == log[1..][..k];
        }
      }
    }
  }

  lemma CutFirstLine(c: Codec, log: seq<Record>, n: nat, x: Index)
    requires Faithful(c) && log != [] && n < |Line(c, log[0])|
    ensures n <= |FileOf(c, log)| && Load(c, FileOf(c, log)[..n], x) == Loaded(x, 0)
  {
    var text := c.encode(Wire(log[0]));
    assert FileOf(c, log)[..n] == text[..n];
    LineEndAt(text[..n], "");
  }

  /** A cut behind the first record cuts the rest of the file. */
  lemma CutBehindFirst(c: Codec, log: seq<Record>, n: nat)
    requires log != [] && |Line(c, log[0])| <= n <= |FileOf(c, log)|
    ensures var k, line, m := WholeRecords(c, log, n), Line(c, log[0]), n - |Line(c, log[0])|;
            && m <= |FileOf(c, log[1..])| && k == 1 + WholeRecords(c, log[1..], m) && log[..k][0] == log[0]
            && log[..k][1..] == log[1..][..k - 1]
            && FileOf(c, log)[..n] == line + FileOf(c, log[1..])[..m]
            && FileOf(c, log[..k]) == line + FileOf(c, log[1..][..k - 1])
  {
    var k := WholeRecords(c, log, n);
    hide Line;
    assert log[..k][1..] == log[1..][..k - 1];
  }

  lemma {:induction false} LoadCut(c: Codec, log: seq<Record>, x: Index, n: nat)
    requires Faithful(c) && n <= |FileOf(c, log)|
    ensures var k := WholeRecords(c, log, n);
            Load(c, FileOf(c, log)[..n], x) == Loaded(ReplayFrom(x, WireLog(log[..k])), |FileOf(c, log[..k])|)
    decreases |log|
  {
    hide ApplyRecord;
    hide Wire;
    hide Load;
    hide Faithful;
    hide Line;
    if log == [] {
      LoadNothing(c, x);
      assert FileOf(c, log)[..n] == "";
    } else if n < |Line(c, log[0])| {
      CutFirstLine(c, log, n, x);
    } else {
      var k, m := WholeRecords(c, log, n), n - |Line(c, log[0])|;
      CutBehindFirst(c, log, n);
      hide FileOf;
      hide WholeRecords;
      LoadCut(c, log[1..], ApplyRecord(x, Wire(log[0])), m);
      LoadLine(c, log[0], FileOf(c, log[1..])[..m], x);
      WireRest(log[..k]);
    }
  }

  lemma LoadNothing(c: Codec, x: Index)
    ensures Load(c, "", x) == Loaded(x, 0)
  {
  }

  /** Cutting the file at any byte and opening it recovers exactly the state after the whole
      records before the cut, and truncates the file to exactly those records. */
  lemma CutAnywhere(c: Codec, log: seq<Record>, n: nat)
    requires Faithful(c) && n <= |FileOf(c, log)|
    ensures var k := WholeRecords(c, log, n);
            && |FileOf(c, log[..k])| <= n && (k < |log| ==> n < |FileOf(c, log[..k + 1])|)
            && Load(c, FileOf(c, log)[..n], EMPTY) == Loaded(Replay(WireLog(log[..k])), |FileOf(c, log[..k])|)
            && FileOf(c, log)[..n][..|FileOf(c, log[..k])|] == FileOf(c, log[..k])
  {
    var k := WholeRecords(c, log, n);
    WholeRecordsFit(c, log, n);
    LoadCut(c, log, EMPTY, n);
    ReplayFromStart(WireLog(log[..k]));
    assert FileOf(c, log)[..n][..|FileOf(c, log[..k])|] == FileOf(c, log[..k]);
  }

  // ---- Appends that fail ----

  /** A failed write or sync: how many bytes reached the file, and whether cutting them off again
      succeeded. */
  datatype Fault = Fault(written: nat, cut: bool)

  datatype Attempt = Attempt(record: Record, fault: Option<Fault>)

  /** What an append adds to the file. */
  function Left(line: string, fault: Option<Fault>): string {
    if fault.None? then line
    else if fault.value.cut then ""
    else line[..if fault.value.written < |line| then fault.value.written else |line|]
  }

  function FileAfter(c: Codec, attempts: seq<Attempt>): string {
    if attempts == [] then ""
    else FileAfter(c, attempts[..|attempts| - 1]) + Left(Line(c, attempts[|attempts| - 1].record), attempts[|attempts| - 1].fault)
  }

  /** The records that the index has: those of the appends that succeeded. */
  function Applied(attempts: seq<Attempt>): seq<Record> {
    if attempts == [] then []
    else Applied(attempts[..|attempts| - 1])
         + if attempts[|attempts| - 1].fault.None? then [attempts[|attempts| - 1].record] else []
  }

  /** A failed append left nothing behind: no byte was written, or its tail was cut off again. */
  predicate Tidy(fault: Option<Fault>) {
    fault.Some? ==> fault.value.cut || fault.value.written == 0
  }

  /** The file holds exactly the lines of the records in the index if and only if every failed
      append was cut off again or had not written a byte. */
  lemma {:induction false} InStepExactly(c: Codec, attempts: seq<Attempt>)
    ensures FileAfter(c, attempts) == FileOf(c, Applied(attempts)) <==> forall i :: 0 <= i < |attempts| ==> Tidy(attempts[i].fault)
    ensures |FileAfter(c, attempts)| >= |FileOf(c, Applied(attempts))|
  {
    if attempts != [] {
      var front, last := attempts[..|attempts| - 1], attempts[|attempts| - 1];
      InStepExactly(c, front);
      assert attempts == front + [last];
      if last.fault.None? {
        FileOfAppend(c, Applied(front), last.record);
        assert |Line(c, last.record)| > 0;
        SameTail(FileAfter(c, front), FileOf(c, Applied(front)), Line(c, last.record));
      } else {
        assert Applied(attempts) == Applied(front);
        assert Left(Line(c, last.record), last.fault) == "" <==> Tidy(last.fault);
      }
    }
  }

  lemma SameTail(a: string, b: string, tail: string)
    ensures a + tail == b + tail <==> a == b
  {
    if a + tail == b + tail {
      assert |a| == |b|;
      assert a == (a + tail)[..|a|] && b == (b + tail)[..|b|];
    }
  }

  /** What opening the file then yields. A torn tail is cut off. With another record appended behind
      it the two share one line: it is refused if it cannot be read, and otherwise what is read is
      applied in place of the record behind. A refused record whose whole line stayed is in the index
      after all. */
  lemma UntidyReopens(c: Codec, log: seq<Record>, r: Record, n: nat, next: Record)
    requires Faithful(c) && 0 < n <= |Line(c, r)|
    ensures var file, torn := FileOf(c, log), Line(c, r)[..n];
            if n == |Line(c, r)| then Load(c, file + torn, EMPTY) == Loaded(Replay(WireLog(log + [r])), |file + torn|)
            else
              var read, longer := c.decode(torn + c.encode(Wire(next))), file + torn + Line(c, next);
              && Load(c, file + torn, EMPTY) == Loaded(Replay(WireLog(log)), |file|)
              && Load(c, longer, EMPTY) == if read.None? then Corrupt(|file|)
                                           else Loaded(ApplyRecord(Replay(WireLog(log)), read.value), |longer|)
  {
    hide Load;
    hide FileOf;
    hide Replay;
    hide ApplyRecord;
    if n == |Line(c, r)| {
      WholeLineStays(c, log, r);
      assert Line(c, r)[..n] == Line(c, r);
    } else {
      assert Line(c, r)[..n] == c.encode(Wire(r))[..n];
      TornTailIsCut(c, log, Line(c, r)[..n]);
      JoinedLineIsRead(c, log, Line(c, r)[..n], next);
    }
  }

  /** A line is read up to the end of its first value, and the beginning of a record never becomes a
      value with another record behind it. JSON objects are encoded so, and the source decodes one
      value of each line. */
  ghost predicate ReadsFirst(c: Codec) {
    && (forall r, rest :: c.decode(c.encode(r) + rest) == Some(r))
    && (forall r, n, next :: 0 < n < |c.encode(r)| ==> c.decode(c.encode(r)[..n] + c.encode(next)).None?)
  }

  /** With such a codec a restart finds one of three things behind bytes that stayed: nothing but the
      newline missing, the refused record is in the index and the acknowledged one behind it is lost;
      more missing, the journal cannot be opened; with nothing appended, all is as it should be. */
  lemma LeftBytesReopen(c: Codec, log: seq<Record>, r: Record, n: nat, next: Record)
    requires Faithful(c) && ReadsFirst(c) && 0 < n < |Line(c, r)|
    ensures var file, torn := FileOf(c, log), Line(c, r)[..n];
            var longer := file + torn + Line(c, next);
            && Load(c, file + torn, EMPTY) == Loaded(Replay(WireLog(log)), |file|)
            && Load(c, longer, EMPTY) == if n == |Line(c, r)| - 1 then Loaded(Replay(WireLog(log + [r])), |longer|)
                                         else Corrupt(|file|)
  {
    hide Load;
    hide FileOf;
    hide Replay;
    hide ApplyRecord;
    UntidyReopens(c, log, r, n, next);
    assert Line(c, r)[..n] == c.encode(Wire(r))[..n];
    if n == |Line(c, r)| - 1 {
      assert Line(c, r)[..n] == c.encode(Wire(r));
      assert WireLog(log + [r]) == WireLog(log) + [Wire(r)];
      ReplayAppend(WireLog(log), Wire(r));
    }
  }

  lemma WholeLineStays(c: Codec, log: seq<Record>, r: Record)
    requires Faithful(c)
    ensures Load(c, FileOf(c, log) + Line(c, r), EMPTY) == Loaded(Replay(WireLog(log + [r])), |FileOf(c, log) + Line(c, r)|)
  {
    FileOfAppend(c, log, r);
    LoadWhole(c, log + [r], "", EMPTY);
    assert FileOf(c, log + [r]) + "" == FileOf(c, log) + Line(c, r);
    ReplayFromStart(WireLog(log + [r]));
    hide FileOf;
    hide Replay;
    hide ReplayFrom;
    assert Load(c, "", Replay(WireLog(log + [r]))) == Loaded(Replay(WireLog(log + [r])), 0);
  }

  lemma TornTailIsCut(c: Codec, log: seq<Record>, torn: string)
    requires Faithful(c) && '\n' !in torn
    ensures Load(c, FileOf(c, log) + torn, EMPTY) == Loaded(Replay(WireLog(log)), |FileOf(c, log)|)
  {
    LoadWhole(c, log, torn, EMPTY);
    LineEndAt(torn, "");
    ReplayFromStart(WireLog(log));
    hide FileOf;
    hide Replay;
    hide ReplayFrom;
  }

  lemma JoinedLineIsRead(c: Codec, log: seq<Record>, torn: string, next: Record)
    requires Faithful(c) && '\n' !in torn
    ensures var file, read := FileOf(c, log), c.decode(torn + c.encode(Wire(next)));
            var longer := file + torn + Line(c, next);
            Load(c, longer, EMPTY) == if read.None? then Corrupt(|file|)
                                      else Loaded(ApplyRecord(Replay(WireLog(log)), read.value), |longer|)
  {
    hide FileOf;
    hide ReplayFrom;
    hide Replay;
    hide Wire;
    hide ApplyRecord;
    hide Faithful;
    hide Line;
    hide Load;
    hide LineEnd;
    hide WireLog;
    var x := ReplayFrom(EMPTY, WireLog(log));
    var rest := torn + Line(c, next);
    LoadWhole(c, log, rest, EMPTY);
    ReplayFromStart(WireLog(log));
    JoinedIsOneLine(c, torn, next);
    LoadStep(c, rest, x);
    var read := c.decode(torn + c.encode(Wire(next)));
    if read.Some? {
      LoadNothing(c, ApplyRecord(x, read.value));
      assert rest[|torn + c.encode(Wire(next))| + 1..] == "";
    }
    assert FileOf(c, log) + torn + Line(c, next) == FileOf(c, log) + rest;
  }

  lemma JoinedIsOneLine(c: Codec, torn: string, next: Record)
    requires Faithful(c) && '\n' !in torn
    ensures var joined, rest := torn + c.encode(Wire(next)), torn + Line(c, next);
            LineEnd(rest) == Some(|joined|) && |joined| + 1 == |rest| && rest[..|joined|] == joined
  {
    hide Wire;
    var joined := torn + c.encode(Wire(next));
    LineEndAt(joined, "");
    assert torn + Line(c, next) == joined + ['\n'] + "";
  }

  /** Whole records are read, then what follows them. */
  lemma {:induction false} LoadWhole(c: Codec, log: seq<Record>, rest: string, x: Index)
    requires Faithful(c)
    ensures Load(c, FileOf(c, log) + rest, x) == Shift(Load(c, rest, ReplayFrom(x, WireLog(log))), |FileOf(c, log)|)
    decreases |log|
  {
    hide ApplyRecord;
    hide Load;
    hide Wire;
    if log == [] {
      assert FileOf(c, log) + rest == rest;
    } else {
      WireRest(log);
      FileRest(c, log, rest);
      LoadLine(c, log[0], FileOf(c, log[1..]) + rest, x);
      hide FileOf;
      hide Line;
      LoadWhole(c, log[1..], rest, ApplyRecord(x, Wire(log[0])));
    }
  }

  lemma WireRest(log: seq<Record>)
    requires log != []
    ensures WireLog(log)[0] == Wire(log[0]) && WireLog(log)[1..] == WireLog(log[1..])
  {
    hide Wire;
  }

  lemma FileRest(c: Codec, log: seq<Record>, rest: string)
    requires log != []
    ensures FileOf(c, log) + rest == Line(c, log[0]) + (FileOf(c, log[1..]) + rest)
    ensures |FileOf(c, log)| == |Line(c, log[0])| + |FileOf(c, log[1..])|
  {
    hide Line;
  }

  // ---- The journal object ----

  class MessageJournal {
    const codec: Codec
    var publications: map<string, Publication>
    var keys: map<IdempotencyKey, string>
    var inbox: seq<Stored>
    var received: set<string>
    var work: map<string, Work>
    var pending: seq<string>
    var queues: Queues
    var tails: map<string, string>
    var pendingCommands: int
    var file: string
    var open: bool

    ghost function View(): Index
      reads this
    {
      Index(publications, keys, inbox, received, work, pending, queues, tails, pendingCommands)
    }

    constructor (codec: Codec)
      ensures View() == EMPTY && file == "" && open && this.codec == codec
    {
      this.codec := codec;
      publications, keys, inbox, received, work := map[], map[], [], {}, map[];
      pending, queues, tails, pendingCommands := [], NO_QUEUES, map[], 0;
      file, open := "", true;
    }

    method AddPublication(p: Publication)
      modifies this
      ensures View() == ApplyPublication(old(View()), p)
      ensures unchanged(`file) && unchanged(`open)
    {
      var id := p.message.id;
      if id !in publications {
        pending := pending + [id];
      }
      publications := publications[id := p];
      if !p.key.NoKey? {
        keys := keys[p.key := id];
      }
      if p.message.runId != "" {
        tails := tails[EventKey(p.message) := id];
      }
    }

    method SetWork(w: Work)
      modifies this
      ensures View() == ApplyWork(old(View()), w)
      ensures unchanged(`file) && unchanged(`open)
    {
      var command := IsCommand(w.message.kind);
      if command && w.state != Done && (w.key !in work || work[w.key].state == Done) {
        pendingCommands := pendingCommands + 1;
      }
      if command && w.state == Done && w.key in work && work[w.key].state != Done {
        pendingCommands := pendingCommands - 1;
      }
      if w.key !in work {
        var shard := WorkShard(w.message);
        queues := queues[shard := queues[shard] + [w.key]];
      }
      work := work[w.key := w];
    }

    method MarkPublished(id: string)
      modifies `publications
      ensures View() == ApplyPublished(old(View()), id)
    {
      if id != "" && id in publications {
        publications := publications[id := publications[id].(published := true)];
      }
    }

    method AddReceived(m: Stored)
      modifies `inbox, `received
      ensures View() == ApplyReceived(old(View()), m)
    {
      inbox := inbox + [m];
      received := received + {MessageKey(m.env)};
    }

    /** apply: the in-place form of ApplyRecord. */
    method Apply(record: Record)
      modifies this
      ensures View() == ApplyRecord(old(View()), record)
      ensures unchanged(`file) && unchanged(`open)
    {
      hide ApplyPublication;
      hide ApplyPublished;
      hide ApplyReceived;
      hide ApplyWork;
      if record.publication.Some? {
        AddPublication(record.publication.value);
      }
      MarkPublished(record.published);
      if record.received.Some? {
        AddReceived(record.received.value);
      }
      if record.work.Some? {
        var w := record.work.value;
        if w.message.id == "" {
          if w.key in work {
            w := w.(message := work[w.key].message);
          } else if record.received.Some? {
            w := w.(message := record.received.value.env);
          }
        }
        SetWork(w);
      }
    }

    /** append: the record is applied exactly when its line is durable. After a failure the error
        of cutting the tail off again is ignored. */
    method Append(record: Record, fault: Option<Fault>) returns (ok: bool)
      modifies this
      ensures ok == (old(open) && fault.None?)
      ensures View() == if ok then ApplyRecord(old(View()), record) else old(View())
      ensures file == if old(open) then old(file) + Left(Line(codec, record), fault) else old(file)
      ensures open == old(open)
    {
      if !open {
        return false;
      }
      var data := codec.encode(Wire(record)) + "\n";
      var offset := |file|;
      if fault.Some? {
        file := file + data[..if fault.value.written < |data| then fault.value.written else |data|];
        if fault.value.cut {
          file := file[..offset];
        }
        return false;
      }
      file := file + data;
      Apply(record);
      ok := true;
    }
  }

  /** openMessageJournal: read line by line, stop at a torn tail and cut it off. */
  method OpenJournal(codec: Codec, contents: string) returns (j: MessageJournal?)
    ensures (j == null) <==> Load(codec, contents, EMPTY).Corrupt?
    ensures j != null ==>
              && fresh(j) && j.open && j.codec == codec
              && var loaded := Load(codec, contents, EMPTY);
                 && j.View() == loaded.index
                 && loaded.kept <= |contents| && j.file == contents[..loaded.kept]
  {
    hide ApplyRecord;
    hide LineEnd;
    hide Load;
    var journal := new MessageJournal(codec);
    var offset := 0;
    var done := false;
    assert contents[0..] == contents;
    while !done
      invariant 0 <= offset <= |contents| && journal.codec == codec && journal.open
      invariant fresh(journal)
      invariant Load(codec, contents, EMPTY) == Shift(Load(codec, contents[offset..], journal.View()), offset)
      invariant done ==> LineEnd(contents[offset..]).None?
      decreases |contents| - offset, !done
    {
      LoadStep(codec, contents[offset..], journal.View());
      var end := LineEnd(contents[offset..]);
      if end.None? {
        done := true;
      } else {
        var record := codec.decode(contents[offset..][..end.value]);
        if record.None? {
          return null;
        }
        journal.Apply(record.value);
        assert contents[offset..][end.value + 1..] == contents[offset + end.value + 1..];
        offset := offset + end.value + 1;
      }
    }
    LoadStep(codec, contents[offset..], journal.View());
    journal.file := contents[..offset];
    return journal;
  }

  lemma LoadStep(c: Codec, file: string, x: Index)
    ensures var end := LineEnd(file);
            if end.None? then Load(c, file, x) == Loaded(x, 0)
            else
              var record := c.decode(file[..end.value]);
              if record.None? then Load(c, file, x) == Corrupt(0)
              else Load(c, file, x) == Shift(Load(c, file[end.value + 1..], ApplyRecord(x, record.value)), end.value + 1)
  {
    hide ApplyRecord;
    hide LineEnd;
  }
}

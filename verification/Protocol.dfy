/** Signed message envelopes and the strings derived from them
    (internal/protocol/messages.go, the key helpers of internal/messaging). */
module Protocol {
  import opened Utf8

  datatype Payload = Payload(
    text: string, channel: string, code: string, stage: string, indeterminate: bool, adapterRunId: string)

  datatype Envelope = Envelope(
    id: string, kind: string, agentId: string, from: string, to: string,
    payload: Payload, sessionKey: string, expiresAt: int,
    requestId: string, runId: string, seqNo: nat)

  const NO_PAYLOAD := Payload("", "", "", "", false, "")

  function AnswerText(text: string): Payload {
    Payload(text, "answer", "", "", false, "")
  }

  function Failure(code: string, stage: string, indeterminate: bool): Payload {
    Payload("", "", code, stage, indeterminate, "")
  }

  function Completion(adapterRunId: string): Payload {
    Payload("", "", "", "", false, adapterRunId)
  }

  /** The envelope left behind when a journal record strips the work message. */
  const NO_ENVELOPE := Envelope("", "", "", "", "", NO_PAYLOAD, "", 0, "", "", 0)

  predicate HasPrefix(s: string, prefix: string) {
    |prefix| <= |s| && s[..|prefix|] == prefix
  }

  predicate HasSuffix(s: string, suffix: string) {
    |suffix| <= |s| && s[|s| - |suffix|..] == suffix
  }

  /** Feedback is delivered but never executed. */
  predicate IsFeedback(kind: string) {
    kind == "chat.context" || HasPrefix(kind, "run.") || HasSuffix(kind, ".response") || HasSuffix(kind, ".error")
  }

  predicate IsCommand(kind: string) {
    !IsFeedback(kind) && kind != "transfer.available"
  }

  predicate IsTerminal(kind: string) {
    kind == "run.completed" || kind == "run.accepted" || kind == "run.failed"
  }

  predicate IsDeliverable(kind: string, prefixes: seq<string>) {
    exists i :: 0 <= i < |prefixes| && HasPrefix(kind, prefixes[i] + ".")
  }

  /** Route and identity tokens are alphanumeric with '-' and '_'. */
  predicate IsToken(s: string) {
    0 < |s| <= 128 &&
    forall i :: 0 <= i < |s| ==>
      'a' <= s[i] <= 'z' || 'A' <= s[i] <= 'Z' || '0' <= s[i] <= '9' || s[i] == '-' || s[i] == '_'
  }

  function MessageKey(env: Envelope): string {
    env.from + "/" + env.id
  }

  function EventKey(env: Envelope): string {
    RunKey(env.to, env.requestId, env.runId)
  }

  function RunKey(to: string, requestId: string, runId: string): string {
    to + "/" + requestId + "/" + runId
  }

  lemma FirstSlash(a: string, b: string)
    requires IsToken(a)
    ensures (a + "/" + b)[|a|] == '/'
    ensures forall i :: 0 <= i < |a| ==> (a + "/" + b)[i] != '/'
  {
    assert forall i :: 0 <= i < |a| ==> (a + "/" + b)[i] == a[i];
  }

  /** Joining tokens with a slash loses nothing: the first slash ends the first token. */
  lemma JoinInjective(a: string, b: string, c: string, d: string)
    requires IsToken(a) && IsToken(c)
    requires a + "/" + b == c + "/" + d
    ensures a == c && b == d
  {
    var s := a + "/" + b;
    FirstSlash(a, b);
    FirstSlash(c, d);
    assert a == s[..|a|] == c;
    assert b == s[|a| + 1..] == d;
  }

  /** Two messages with the same journal key have the same sender and the same ID. */
  lemma MessageKeyInjective(a: Envelope, b: Envelope)
    requires IsToken(a.from) && IsToken(b.from)
    requires MessageKey(a) == MessageKey(b)
    ensures a.from == b.from && a.id == b.id
  {
    JoinInjective(a.from, a.id, b.from, b.id);
  }

  /** Runs of different requests never share an event chain. */
  lemma RunKeyInjective(to1: string, request1: string, run1: string, to2: string, request2: string, run2: string)
    requires IsToken(to1) && IsToken(to2) && IsToken(request1) && IsToken(request2)
    requires RunKey(to1, request1, run1) == RunKey(to2, request2, run2)
    ensures to1 == to2 && request1 == request2 && run1 == run2
  {
    assert to1 + "/" + request1 + "/" + run1 == to1 + "/" + (request1 + "/" + run1);
    assert to2 + "/" + request2 + "/" + run2 == to2 + "/" + (request2 + "/" + run2);
    JoinInjective(to1, request1 + "/" + run1, to2, request2 + "/" + run2);
    JoinInjective(request1, run1, request2, run2);
  }

  // ---- The worker of a conversation ----

  function Trailing(n: nat): (b: byte)
    ensures Tail(b)
  {
    (0x80 + n % 0x40) as byte
  }

  /** A character in UTF-8. */
  function RuneBytes(c: char): (bytes: seq<byte>)
    ensures Valid(bytes)
  {
    var n := c as int;
    RuneIsValid(n);
    Encoded(n)
  }

  function Encoded(n: nat): seq<byte>
    requires n < 0x110000
  {
    if n < 0x80 then [n as byte]
    else if n < 0x800 then [(0xC0 + n / 0x40) as byte, Trailing(n)]
    else if n < 0x10000 then [(0xE0 + n / 0x1000) as byte, Trailing(n / 0x40), Trailing(n)]
    else [(0xF0 + n / 0x40000) as byte, Trailing(n / 0x1000), Trailing(n / 0x40), Trailing(n)]
  }

  lemma RuneIsValid(n: nat)
    requires n < 0xD800 || 0xE000 <= n < 0x110000
    ensures Valid(Encoded(n))
  {
    var s := Encoded(n);
    assert RuneLength(s) == |s|;
    assert s[|s|..] == [];
  }

  /** The bytes of a string. */
  function StringBytes(s: string): (bytes: seq<byte>)
    ensures Valid(bytes)
  {
    if s == "" then []
    else
      ValidConcat(StringBytes(s[..|s| - 1]), RuneBytes(s[|s| - 1]));
      StringBytes(s[..|s| - 1]) + RuneBytes(s[|s| - 1])
  }

  const WORKER_COUNT := 8

  const FNV_OFFSET: bv32 := 2166136261

  const FNV_PRIME: bv32 := 16777619

  /** 32-bit FNV-1a. */
  function Fnv1a(bytes: seq<byte>): bv32
    decreases |bytes|, 1
  {
    if bytes == [] then FNV_OFFSET else WithLast(bytes)
  }

  /** The hash of all but the last byte, extended by that byte. */
  function WithLast(bytes: seq<byte>): bv32
    requires bytes != []
    decreases |bytes|, 0
  {
    (Fnv1a(bytes[..|bytes| - 1]) ^ ((bytes[|bytes| - 1] as int) as bv32)) * FNV_PRIME
  }

  /** The worker that owns a conversation. */
  function WorkShard(env: Envelope): (shard: nat)
    ensures shard < WORKER_COUNT
  {
    (Fnv1a(StringBytes(env.from + "/" + env.agentId + "/" + env.sessionKey)) as int) % WORKER_COUNT
  }
}

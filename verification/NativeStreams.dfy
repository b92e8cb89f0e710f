/** The event streams of the native CLIs (internal/adapter/native_events.go,
    internal/adapter/pi_events.go): decoded events update one stream state, and a fault ends the
    invocation. */
module NativeStreams {
  import opened Wrappers
  import opened Utf8
  import opened Batching

  type Text = seq<byte>

  datatype Fault = Malformed | NativeFailure

  /** Answer text in the order it is handed to the emitter, with the item it belongs to. */
  datatype Delta = Delta(item: string, text: Text)

  /** Roles and stop reasons as far as they matter; absent ones are empty strings in the JSON. */
  datatype Role = NoRole | Assistant | OtherRole(name: string)

  datatype StopReason = NoReason | Stop | ToolUse | OtherReason

  datatype Pi = Pi(expected: string, role: Role, deltas: bool, terminal: bool, stopReason: StopReason)

  datatype State = State(
    session: string, message: string, completed: bool, items: map<string, Text>, answered: seq<Delta>, emitter: Emitter, pi: Pi)

  /** `state` of a fault is what the stream had become. */
  datatype Reply = Next(state: State) | Fail(fault: Fault, state: State)

  function NewStream(expected: string): State {
    State("", "", false, map[], [], NewEmitter(), Pi(expected, NoRole, false, false, NoReason))
  }

  predicate Alphanumeric(c: char) {
    'a' <= c <= 'z' || 'A' <= c <= 'Z' || '0' <= c <= '9'
  }

  predicate SafeSession(id: string) {
    1 <= |id| <= 256 && forall i :: 0 <= i < |id| ==> Alphanumeric(id[i]) || (i > 0 && (id[i] == '_' || id[i] == '-'))
  }

  /** A native UUID. */
  predicate SafePiSession(id: string) {
    |id| == 36 && forall i :: 0 <= i < 36 ==>
      if i == 8 || i == 13 || i == 18 || i == 23 then id[i] == '-'
      else '0' <= id[i] <= '9' || 'a' <= id[i] <= 'f' || 'A' <= id[i] <= 'F'
  }

  function SetSession(s: State, id: string): Reply {
    if id == "" then Next(s)
    else if !SafeSession(id) || (s.session != "" && s.session != id) then Fail(Malformed, s)
    else Next(s.(session := id))
  }

  /** add, which ends for text without a long run of continuation bytes only. */
  function Collect(e: Emitter, text: Text): Emitter {
    if Ready(e) && NoLongRun(text, MAX_DELTA) then Add(e, text) else e
  }

  function Answer(s: State, item: string, text: Text): Reply {
    if s.completed then Fail(Malformed, s)
    else Next(s.(answered := s.answered + [Delta(item, text)], emitter := Collect(s.emitter, text)))
  }

  function Flushed(s: State): State {
    s.(emitter := Flush(s.emitter))
  }

  /** A failure that the CLI reports: what was answered before it goes out. */
  function Failed(s: State): Reply {
    Fail(NativeFailure, Flushed(s))
  }

  predicate IsPrefix(x: Text, y: Text) {
    |x| <= |y| && y[..|x|] == x
  }

  /** A growing snapshot of item `id`: only what is new is answered. */
  function Snapshot(s: State, id: string, text: Text): Reply {
    var previous := if id in s.items then s.items[id] else [];
    if !IsPrefix(previous, text) then Fail(Malformed, s)
    else Answer(s.(items := s.items[id := text]), id, text[|previous|..])
  }

  // ---- Codex ----

  datatype CodexKind = NoKind | Error | ThreadStarted | TurnStarted | TurnCompleted | TurnFailed
    | ItemStarted | ItemUpdated | ItemCompleted | Unknown

  datatype Item = Item(id: string, isMessage: bool, text: Text)

  datatype CodexEvent = CodexEvent(kind: CodexKind, thread: string, item: Option<Item>, hasError: bool)

  predicate ItemEvent(kind: CodexKind) {
    kind.ItemStarted? || kind.ItemUpdated? || kind.ItemCompleted?
  }

  function ConsumeCodex(s: State, e: CodexEvent): Reply {
    if e.kind.NoKind? then Fail(Malformed, s)
    else if e.kind.Error? || e.kind.TurnFailed? || e.hasError then Failed(s)
    else if e.kind.ThreadStarted? then (if e.thread == "" then Fail(Malformed, s) else SetSession(s, e.thread))
    else if e.kind.TurnStarted? then (if s.completed then Fail(Malformed, s) else Next(s))
    else if e.kind.TurnCompleted? then (if s.completed then Fail(Malformed, s) else Next(Flushed(s.(completed := true))))
    else if ItemEvent(e.kind) then
      if e.item.None? then Fail(Malformed, s)
      else if !e.item.value.isMessage then Next(s)
      else if e.item.value.id != "" then Snapshot(s, e.item.value.id, e.item.value.text)
      else if !e.kind.ItemCompleted? then Fail(Malformed, s)
      else Answer(s, "", e.item.value.text)
    else Next(s)
  }

  // ---- OpenCode ----

  datatype OpenCodeKind = NoStep | StepError | StepStart | Text | StepFinish | OtherStep

  datatype PartKind = TextPart | FinishPart | OtherPart

  /** length, error, content-filter and unknown are failures; anything else is malformed. */
  datatype FinishReason = Stopped | ToolCalls | Failing | NoSuchReason

  datatype Part = Part(id: string, kind: PartKind, text: Text, reason: FinishReason, message: string)

  datatype OpenCodeEvent = OpenCodeEvent(kind: OpenCodeKind, session: string, text: Text, reason: FinishReason, part: Option<Part>, hasError: bool)

  function InMessage(s: State, part: Option<Part>): State {
    if part.Some? && part.value.message != "" then s.(message := part.value.message) else s
  }

  function Reason(e: OpenCodeEvent): FinishReason {
    if e.part.Some? then e.part.value.reason else e.reason
  }

  function FinishOpenCode(s: State, e: OpenCodeEvent): Reply {
    if e.part.Some? && !e.part.value.kind.FinishPart? then Fail(Malformed, s)
    else
      match Reason(e)
      case Stopped => Next(Flushed(s.(completed := true)))
      case ToolCalls => Next(Flushed(s.(completed := false)))
      case Failing => Failed(s)
      case NoSuchReason => Fail(Malformed, s)
  }

  function TextOpenCode(s: State, e: OpenCodeEvent): Reply {
    if e.part.None? then Answer(s, "", e.text)
    else if !e.part.value.kind.TextPart? then Next(s)
    else
      var t := InMessage(s, e.part);
      if e.part.value.id != "" then Snapshot(t, e.part.value.id, e.part.value.text) else Answer(t, "", e.part.value.text)
  }

  function ConsumeOpenCode(s: State, e: OpenCodeEvent): Reply {
    if e.kind.NoStep? then Fail(Malformed, s)
    else
      var r := SetSession(s, e.session);
      if r.Fail? then r
      else if e.kind.StepError? || e.hasError then Failed(r.state)
      else if e.kind.StepStart? then Next(InMessage(r.state, e.part).(completed := false))
      else if e.kind.Text? then TextOpenCode(r.state, e)
      else if e.kind.StepFinish? then FinishOpenCode(r.state, e)
      else r
  }

  // ---- pi and omp ----

  datatype PiKind = NoEvent | Failure | Session | AgentStart | TurnStart | MessageStart | MessageUpdate | MessageEnd | TurnEnd
    | AgentEnd | OtherEvent

  datatype ContentPart = ContentPart(isText: bool, text: Text)

  /** `content` is absent when it does not decode as a list of parts. */
  datatype Message = Message(role: Role, stopReason: StopReason, hasError: bool, content: Option<seq<ContentPart>>)

  datatype Summary = Summary(role: Role, stopReason: StopReason, hasError: bool)

  datatype UpdateKind = NoUpdate | UpdateError | Done | TextDelta | OtherUpdate

  datatype Update = Update(kind: UpdateKind, delta: Option<Text>, reason: StopReason, hasError: bool)

  datatype PiEvent = PiEvent(
    kind: PiKind, id: string, hasError: bool, aborted: bool, willRetry: bool, isTerminal: Option<bool>,
    message: Option<Message>, messages: seq<Summary>, update: Option<Update>)

  function ConsumePi(s: State, e: PiEvent): Reply {
    if e.kind.NoEvent? then Fail(Malformed, s)
    else if e.kind.Failure? || e.aborted || e.hasError then Failed(s)
    else if e.kind.Session? then
      if s.session != "" || !SafePiSession(e.id) || (s.pi.expected != "" && e.id != s.pi.expected) then Fail(Malformed, s)
      else SetSession(s, e.id)
    else if s.session == "" then Fail(Malformed, s)
    else if e.kind.AgentStart? || e.kind.TurnStart? then Next(Restart(s))
    else if e.kind.MessageStart? then StartMessage(s, e.message)
    else if e.kind.MessageUpdate? then UpdateMessage(s, e)
    else if e.kind.MessageEnd? then
      if e.message.None? || e.message.value.role.NoRole? then Fail(Malformed, s)
      else if e.message.value.role.Assistant? then FinishMessage(s, e.message.value)
      else Next(s)
    else if e.kind.TurnEnd? then
      if e.message.None? || !e.message.value.role.Assistant? then Fail(Malformed, s) else FinishMessage(s, e.message.value)
    else if e.kind.AgentEnd? then EndAgent(s, e)
    else Next(s)
  }

  function Restart(s: State): State {
    s.(pi := s.pi.(role := NoRole, deltas := false, terminal := false, stopReason := NoReason), completed := false)
  }

  function StartMessage(s: State, message: Option<Message>): Reply {
    if message.None? || message.value.role.NoRole? || s.completed then Fail(Malformed, s)
    else if message.value.role.Assistant? then
      Next(s.(pi := s.pi.(role := Assistant, deltas := false, terminal := false, stopReason := NoReason)))
    else Next(s.(pi := s.pi.(role := message.value.role)))
  }

  /** Only an assistant's text deltas are answers. */
  function UpdateMessage(s: State, e: PiEvent): Reply {
    if e.update.None? || e.update.value.kind.NoUpdate? then Fail(Malformed, s)
    else
      var u := e.update.value;
      if u.kind.UpdateError? || u.hasError || (u.kind.Done? && !u.reason.Stop? && !u.reason.ToolUse?) then Failed(s)
      else if !u.kind.TextDelta? then Next(s)
      else if e.message.Some? && !e.message.value.role.Assistant? then Next(s)
      else if !s.pi.role.Assistant? then (if !s.pi.role.NoRole? then Next(s) else Fail(Malformed, s))
      else if s.pi.terminal || u.delta.None? then Fail(Malformed, s)
      else Answer(s.(pi := s.pi.(deltas := true)), "", u.delta.value)
  }

  function AnswerParts(s: State, parts: seq<ContentPart>): Reply
    decreases |parts|
  {
    if parts == [] then Next(s)
    else
      var r := if parts[0].isText then Answer(s, "", parts[0].text) else Next(s);
      if r.Fail? then r else AnswerParts(r.state, parts[1..])
  }

  /** An assistant message or turn ended; without deltas its content is the answer. */
  function FinishMessage(s: State, m: Message): Reply {
    if s.completed then Fail(Malformed, s)
    else if m.hasError then Failed(s)
    else if m.stopReason.NoReason? then Fail(Malformed, s)
    else if !m.stopReason.Stop? && !m.stopReason.ToolUse? then Failed(s)
    else if s.pi.terminal then (if s.pi.stopReason != m.stopReason then Fail(Malformed, s) else Next(s))
    else if !s.pi.deltas && m.content.None? then Fail(Malformed, s)
    else
      var r := if s.pi.deltas then Next(s) else AnswerParts(s, m.content.value);
      if r.Fail? then r
      else Next(Flushed(r.state.(pi := r.state.pi.(role := Assistant, terminal := true, stopReason := m.stopReason))))
  }

  function EndAgent(s: State, e: PiEvent): Reply {
    var last := if e.messages == [] then Summary(Assistant, Stop, false) else e.messages[|e.messages| - 1];
    if !last.role.Assistant? then Fail(Malformed, s)
    else if !last.stopReason.Stop? || last.hasError then Failed(s)
    else if !s.pi.terminal || !s.pi.stopReason.Stop? then Next(s)
    else if e.willRetry || e.isTerminal == Some(false) then Next(s.(completed := false))
    else Next(Flushed(s.(completed := true)))
  }

  // ---- Whole streams ----

  function RunCodex(events: seq<CodexEvent>): Reply {
    if events == [] then Next(NewStream(""))
    else
      var before := RunCodex(events[..|events| - 1]);
      if before.Fail? then before else ConsumeCodex(before.state, events[|events| - 1])
  }

  function RunOpenCode(events: seq<OpenCodeEvent>): Reply {
    if events == [] then Next(NewStream(""))
    else
      var before := RunOpenCode(events[..|events| - 1]);
      if before.Fail? then before else ConsumeOpenCode(before.state, events[|events| - 1])
  }

  function RunPi(expected: string, events: seq<PiEvent>): Reply {
    if events == [] then Next(NewStream(expected))
    else
      var before := RunPi(expected, events[..|events| - 1]);
      if before.Fail? then before else ConsumePi(before.state, events[|events| - 1])
  }

  /** result(): without a successful terminal event the output is incomplete. */
  predicate HasResult(r: Reply) {
    r.Next? && r.state.completed
  }
}

/**
 The session a reader projects from runtime events and snapshots. Ids of different
 kinds are different constructors; dates, display strings and other payloads that are
 only carried along are left out.
 */
module AgentSession {
  import opened Options
  import JsText

  datatype Role = User | Assistant | System | Subagent

  datatype EntryId =
    | Named(id: string)
    | Counted(owner: string, role: Role, count: nat)
    | OperationId(request: string, key: string)
    | SubagentId(request: string, namespace: string, source: string)
    | LocalRelease(request: string)

  datatype Outcome = CallCompleted | CallFailed | CallInterrupted

  datatype CallStatus = CallRunning | CallOver(outcome: Outcome)

  datatype ToolCall = ToolCall(id: string, name: string, status: CallStatus)

  datatype Phase = Started | Updated | Completed | Failed | Interrupted

  datatype Detail = Detail(kind: string, title: string, target: Option<string>, summary: Option<string>)

  /** A message that calls no tools has no calls. */
  datatype Entry =
    | Message(id: EntryId, role: Role, text: string, calls: seq<ToolCall>, streaming: bool, request: Option<string>)
    | Operation(id: EntryId, owner: string, phase: Phase, detail: Detail)

  datatype Activity = Thinking | UsingTool | Streaming

  datatype RunState = Running(activity: Activity) | Interrupting

  datatype Run = Run(request: string, state: RunState)

  datatype Scope = RunScope | SessionScope | NoScope

  datatype Usage = Usage(
    input: nat, output: nat, total: nat, cached: Option<nat>, eligible: Option<nat>,
    revision: Option<nat>, epoch: Option<string>, scope: Scope, latest: Option<nat>, contextWindow: Option<nat>, incomplete: bool)

  /** `omitted` is the timeline window; `runtimeWindow` the context window of the runtime view. */
  datatype Session = Session(
    sessionId: string, timeline: seq<Entry>, omitted: Option<nat>,
    activeRun: Option<Run>, pendingInterrupt: Option<string>, plan: Option<string>,
    runtimeWindow: Option<nat>, tokenUsage: Option<Usage>, sessionUsage: Option<Usage>)

  datatype MessageInput = MessageInput(id: Option<EntryId>, role: Role, text: string, request: Option<string>)

  datatype OperationInfo = OperationInfo(kind: string, title: Option<string>, target: Option<string>, summary: Option<string>)

  datatype RuntimeEvent =
    | UsageUpdated(request: string, usage: Usage)
    | RunStarted(request: string, input: Option<string>)
    | RunInterrupted(request: string, message: string)
    | MessageDelta(request: string, messageId: string, text: string)
    | MessageCompleted(request: string, messageId: string, text: string, spent: Option<Usage>)
    | MessageToolCalls(request: string, messageId: string, text: string, calls: seq<(string, string)>)
    | ToolCallSettled(callId: string, outcome: Outcome)
    | SubagentCompleted(request: string, namespace: string, source: string, text: string)
    | OperationEvent(request: string, key: string, phase: Phase, info: OperationInfo)
    | PlanUpdated(request: string, plan: Option<string>)
    | InterruptRequested(request: string, interrupt: string, spent: Option<Usage>)
    | SystemNotice(request: string, message: string)
    | ErrorEvent(request: string, message: string)

  datatype SessionInput =
    | SessionCleared
    | UserAccepted(request: string, text: string, id: Option<EntryId>)
    | MessageAppended(said: MessageInput)
    | RuntimeInput(event: RuntimeEvent, message: Option<MessageInput>)
    | RunInterrupting(request: string)
    | ResumeAccepted(request: string, interrupt: string)
    | RunFinished(request: string, messages: seq<MessageInput>, usage: UsageUpdate)

  datatype UsageUpdate = KeepUsage | DropUsage | ApplyUsage(usage: Usage)

  // -------------------------------------------------------------- timeline

  /** The first place from `i` on that meets a test, or the length. */
  function First<T>(t: seq<T>, p: T -> bool, i: nat): (r: nat)
    requires i <= |t|
    ensures i <= r <= |t| && (r < |t| ==> p(t[r]))
    ensures forall j :: i <= j < r ==> !p(t[j])
    decreases |t| - i
  {
    if i == |t| || p(t[i]) then i else First(t, p, i + 1)
  }

  function IndexOf(t: seq<Entry>, id: EntryId): (r: nat)
    ensures r <= |t| && (r < |t| ==> t[r].id == id)
    ensures forall j :: 0 <= j < r ==> t[j].id != id
  {
    First(t, (e: Entry) => e.id == id, 0)
  }

  function IndexOfMessage(t: seq<Entry>, id: EntryId): (r: nat)
    ensures r <= |t| && (r < |t| ==> t[r].Message? && t[r].id == id)
    ensures forall j :: 0 <= j < r ==> !(t[j].Message? && t[j].id == id)
  {
    First(t, (e: Entry) => e.Message? && e.id == id, 0)
  }

  function Upsert(t: seq<Entry>, e: Entry): seq<Entry> {
    var i := IndexOf(t, e.id);
    if i == |t| then t + [e] else t[i := e]
  }

  function Ids(t: seq<Entry>): seq<EntryId> {
    seq(|t|, i requires 0 <= i < |t| => t[i].id)
  }

  function Mapped(t: seq<Entry>, f: Entry -> Entry): seq<Entry> {
    seq(|t|, i requires 0 <= i < |t| => f(t[i]))
  }

  function CountMessages(t: seq<Entry>, request: Option<string>, role: Role): nat {
    if t == [] then 0
    else
      var last := t[|t| - 1];
      CountMessages(t[..|t| - 1], request, role) + (if last.Message? && last.request == request && last.role == role then 1 else 0)
  }

  predicate HasRequest(t: seq<Entry>, request: string) {
    exists i :: 0 <= i < |t| && (if t[i].Message? then t[i].request == Some(request) else t[i].owner == request)
  }

  predicate HasRelease(t: seq<Entry>, request: string) {
    exists i :: 0 <= i < |t| && t[i].Message? && t[i].role == System && t[i].id == LocalRelease(request)
  }

  predicate OpenOperation(e: Entry, request: string) {
    e.Operation? && e.owner == request && (e.phase == Started || e.phase == Updated)
  }

  predicate HasOpenOperation(t: seq<Entry>, request: string) {
    exists i :: 0 <= i < |t| && OpenOperation(t[i], request)
  }

  function Stopped(call: ToolCall): ToolCall {
    if call.status == CallRunning then call.(status := CallOver(CallInterrupted)) else call
  }

  function InterruptCalls(e: Entry): Entry {
    if e.Operation? then e
    else e.(calls := seq(|e.calls|, i requires 0 <= i < |e.calls| => Stopped(e.calls[i])))
  }

  function Settled(e: Entry, callId: string, outcome: Outcome): Entry
    requires e.Message?
  {
    e.(calls := seq(|e.calls|, i requires 0 <= i < |e.calls| =>
                    if e.calls[i].id == callId then e.calls[i].(status := CallOver(outcome)) else e.calls[i]))
  }

  function Finalized(e: Entry, request: string): Entry {
    if e.Message? && e.request == Some(request) && e.streaming then e.(streaming := false) else e
  }

  predicate MakesCall(e: Entry, callId: string) {
    e.Message? && exists i :: 0 <= i < |e.calls| && e.calls[i].id == callId
  }

  /** A repeated call keeps the status it already has. */
  function CallsOf(calls: seq<(string, string)>, known: seq<ToolCall>): seq<ToolCall> {
    seq(|calls|, i requires 0 <= i < |calls| =>
      var k := First(known, (c: ToolCall) => c.id == calls[i].0, 0);
      ToolCall(calls[i].0, calls[i].1, if k < |known| then known[k].status else CallRunning))
  }

  function MergedDetail(info: OperationInfo, previous: Option<Detail>): Detail {
    Detail(info.kind,
           if info.title.Some? then info.title.value else if previous.Some? then previous.value.title else info.kind,
           if info.target.Some? || previous.None? then info.target else previous.value.target,
           if info.summary.Some? || previous.None? then info.summary else previous.value.summary)
  }

  // ----------------------------------------------------------- token usage

  function Count(n: Option<nat>): nat {
    if n.Some? then n.value else 0
  }

  function Or<T>(a: Option<T>, b: Option<T>): Option<T> {
    if a.Some? then a else b
  }

  function Accumulated(current: Option<Usage>, usage: Usage, runtimeWindow: Option<nat>): Usage {
    if usage.scope == SessionScope then usage
    else
      var c := if current.Some? then current.value else Usage(0, 0, 0, None, None, None, None, SessionScope, None, None, false);
      var caching := c.cached.Some? || usage.cached.Some?;
      Usage(c.input + usage.input, c.output + usage.output, c.total + usage.total,
            if caching then Some(Count(c.cached) + Count(usage.cached)) else None,
            if caching then Some(Count(c.eligible) + Count(usage.eligible)) else None,
            None, None, SessionScope,
            Or(usage.latest, c.latest), Or(usage.contextWindow, Or(c.contextWindow, runtimeWindow)),
            c.incomplete || usage.incomplete)
  }

  function EpochOf(u: Option<Usage>): Option<string> {
    if u.Some? then u.value.epoch else None
  }

  function RevisionOf(u: Option<Usage>): Option<nat> {
    if u.Some? then u.value.revision else None
  }

  /** A usage is stale when it belongs to another epoch, unless that may change, or to an older revision. */
  predicate Stale(held: Option<Usage>, usage: Usage, allowEpochChange: bool) {
    var sameEpoch := usage.epoch == EpochOf(held);
    || (!sameEpoch && EpochOf(held).Some? && EpochOf(held).value != "" && !allowEpochChange)
    || (sameEpoch && RevisionOf(held).Some? && (usage.revision.None? || usage.revision.value < RevisionOf(held).value))
  }

  function ApplyTokenUsage(s: Session, usage: Usage, allowEpochChange: bool): Session {
    if Stale(s.sessionUsage, usage, allowEpochChange) then s
    else
      var window := if usage.scope != RunScope && usage.contextWindow.None? then s.runtimeWindow else usage.contextWindow;
      var tokenUsage := if window.None? then usage else usage.(contextWindow := window);
      s.(runtimeWindow := if window.None? then s.runtimeWindow else window,
         tokenUsage := Some(tokenUsage),
         sessionUsage := Some(Accumulated(s.sessionUsage, tokenUsage, s.runtimeWindow)))
  }

  // ------------------------------------------------------------------ runs

  predicate OwnsRun(s: Session, request: string) {
    s.activeRun.Some? && s.activeRun.value.request == request
  }

  function WithRun(s: Session, request: string, state: RunState): Session {
    if OwnsRun(s, request) then s.(activeRun := Some(Run(request, state))) else s
  }

  function Appended(s: Session, m: MessageInput): Session {
    if m.text == [] then s
    else
      var owner := if m.request.Some? then m.request.value else s.sessionId;
      var id := if m.id.Some? then m.id.value else Counted(owner, m.role, CountMessages(s.timeline, m.request, m.role));
      s.(timeline := s.timeline + [Message(id, m.role, m.text, [], false, m.request)])
  }

  function AppendedAll(s: Session, messages: seq<MessageInput>, request: string): Session
    decreases |messages|
  {
    if messages == [] then s
    else
      var m := messages[0];
      AppendedAll(Appended(s, m.(request := if m.request.Some? then m.request else Some(request))), messages[1..], request)
  }

  function InterruptOpenCalls(s: Session, request: string): Session {
    if OwnsRun(s, request) then s.(timeline := Mapped(s.timeline, InterruptCalls)) else s
  }

  function Begun(s: Session, request: string): Session {
    s.(tokenUsage := None, plan := None, pendingInterrupt := None, activeRun := Some(Run(request, Running(Thinking))))
  }

  /** The end of a run: its open calls are interrupted unless a review holds them, and its streaming messages settle. */
  function FinishOwnedRun(s: Session, request: string, messages: seq<MessageInput>, usage: UsageUpdate,
                          preservePending: bool, settle: bool): Session
  {
    if !OwnsRun(s, request) then s
    else
      var stopped := if s.pendingInterrupt.None? then InterruptOpenCalls(s, request) else s;
      var ended := stopped.(
        timeline := if settle then Mapped(stopped.timeline, (e: Entry) => Finalized(e, request)) else stopped.timeline,
        activeRun := None,
        pendingInterrupt := if preservePending then stopped.pendingInterrupt else None);
      var said := AppendedAll(ended, messages, request);
      match usage
      case KeepUsage => said
      case DropUsage => said.(tokenUsage := None)
      case ApplyUsage(u) => ApplyTokenUsage(said, u, false)
  }

  // --------------------------------------------------------- runtime events

  function IdOr(message: Option<MessageInput>, id: EntryId): EntryId {
    if message.Some? && message.value.id.Some? then message.value.id.value else id
  }

  function StartRun(s: Session, request: string, input: Option<string>): Session {
    if OwnsRun(s, request) then s
    else
      var begun := Begun(s, request);
      if input.None? || JsText.IsBlank(input.value) then begun
      else Appended(begun, MessageInput(None, User, input.value, Some(request)))
  }

  function AppendDelta(s: Session, request: string, messageId: string, text: string, message: Option<MessageInput>): Session {
    if text == [] || !OwnsRun(s, request) then s
    else
      var id := IdOr(message, Named(messageId));
      var i := IndexOfMessage(s.timeline, id);
      if i < |s.timeline| && !s.timeline[i].streaming then s
      else
        var previous := if i < |s.timeline| then s.timeline[i].text else "";
        var e := Message(id, Assistant, previous + text, [], true, Some(request));
        WithRun(s.(timeline := Upsert(s.timeline, e), pendingInterrupt := None), request, Running(Streaming))
  }

  function CompletedText(t: seq<Entry>, id: EntryId, text: string): string {
    var i := IndexOfMessage(t, id);
    if !JsText.IsBlank(text) then JsText.Trim(text)
    else if i < |t| && !JsText.IsBlank(t[i].text) then JsText.Trim(t[i].text)
    else "..."
  }

  function CompleteMessage(s: Session, request: string, messageId: string, text: string, usage: Option<Usage>,
                           message: Option<MessageInput>): Session
  {
    var owns := OwnsRun(s, request);
    if !owns && (!HasRequest(s.timeline, request) || HasRelease(s.timeline, request)) then s
    else
      var id := IdOr(message, Named(messageId));
      var i := IndexOfMessage(s.timeline, id);
      var alreadyCompleted := i < |s.timeline| && !s.timeline[i].streaming;
      var e := Message(id, Assistant, CompletedText(s.timeline, id, text), [], false, Some(request));
      var t := s.(timeline := Upsert(s.timeline, e));
      if owns then FinishOwnedRun(t, request, [], if usage.Some? then ApplyUsage(usage.value) else DropUsage, false, false)
      else if usage.Some? && (usage.value.scope == SessionScope || !alreadyCompleted) then ApplyTokenUsage(t, usage.value, false)
      else t
  }

  function AppendToolCalls(s: Session, request: string, messageId: string, text: string, calls: seq<(string, string)>): Session {
    if calls == [] || !OwnsRun(s, request) then s
    else
      var id := Named(messageId);
      var i := IndexOfMessage(s.timeline, id);
      var e := Message(id, Assistant, text, CallsOf(calls, if i < |s.timeline| then s.timeline[i].calls else []), false, Some(request));
      WithRun(s.(timeline := Upsert(s.timeline, e), pendingInterrupt := None), request, Running(UsingTool))
  }

  function SettleCall(s: Session, callId: string, outcome: Outcome): Session {
    var i := First(s.timeline, (e: Entry) => MakesCall(e, callId), 0);
    if i == |s.timeline| then s else s.(timeline := Upsert(s.timeline, Settled(s.timeline[i], callId, outcome)))
  }

  function AppendSubagent(s: Session, request: string, namespace: string, source: string, text: string): Session {
    if JsText.IsBlank(text) || !OwnsRun(s, request) then s
    else
      var e := Message(SubagentId(request, namespace, JsText.Trim(source)), Subagent, text, [], false, Some(request));
      WithRun(s.(timeline := Upsert(s.timeline, e), pendingInterrupt := None), request, Running(Streaming))
  }

  function ApplyOperation(s: Session, request: string, key: string, phase: Phase, info: OperationInfo): Session {
    if !OwnsRun(s, request) then s
    else
      var id := OperationId(request, key);
      var i := First(s.timeline, (e: Entry) => e.Operation? && e.id == id, 0);
      var previous := if i < |s.timeline| then Some(s.timeline[i].detail) else None;
      var t := s.(timeline := Upsert(s.timeline, Operation(id, request, phase, MergedDetail(info, previous))), pendingInterrupt := None);
      if phase == Started || phase == Updated then WithRun(t, request, Running(UsingTool))
      else if s.activeRun.value.state.Running? then
        WithRun(t, request, Running(if HasOpenOperation(t.timeline, request) then UsingTool else Thinking))
      else t
  }

  function AppendNotice(s: Session, request: string, text: string, message: Option<MessageInput>): Session {
    if !OwnsRun(s, request) || JsText.IsBlank(text) then s
    else
      var m := MessageInput(if message.Some? then message.value.id else None, System,
                            if message.Some? then message.value.text else text, Some(request));
      Appended(s.(pendingInterrupt := None), m)
  }

  function RequestInterrupt(s: Session, request: string, interrupt: string, usage: Option<Usage>): Session {
    if !OwnsRun(s, request) then s
    else
      var t := if usage.Some? then ApplyTokenUsage(s, usage.value, true) else s;
      t.(activeRun := None, pendingInterrupt := Some(interrupt))
  }

  function ReduceRuntimeEvent(s: Session, event: RuntimeEvent, message: Option<MessageInput>): Session {
    match event
    case RunStarted(r, input) => StartRun(s, r, input)
    case RunInterrupted(r, text) =>
      var said := MessageInput(None, System, if JsText.IsBlank(text) then "Run interrupted." else JsText.Trim(text), Some(r));
      FinishOwnedRun(s, r, [said], KeepUsage, false, true)
    case UsageUpdated(r, usage) => if OwnsRun(s, r) then ApplyTokenUsage(s, usage, true) else s
    case MessageDelta(r, m, text) => AppendDelta(s, r, m, text, message)
    case MessageCompleted(r, m, text, usage) => CompleteMessage(s, r, m, text, usage, message)
    case MessageToolCalls(r, m, text, calls) => AppendToolCalls(s, r, m, text, calls)
    case ToolCallSettled(c, outcome) => SettleCall(s, c, outcome)
    case OperationEvent(r, key, phase, info) => ApplyOperation(s, r, key, phase, info)
    case PlanUpdated(r, plan) => if OwnsRun(s, r) then s.(plan := plan, pendingInterrupt := None) else s
    case SubagentCompleted(r, n, source, text) => AppendSubagent(s, r, n, source, text)
    case InterruptRequested(r, interrupt, usage) => RequestInterrupt(s, r, interrupt, usage)
    case SystemNotice(r, text) => AppendNotice(s, r, text, message)
    case ErrorEvent(r, text) =>
      var said := MessageInput(if message.Some? then message.value.id else None, System,
                               if message.Some? then message.value.text else text, Some(r));
      FinishOwnedRun(s, r, [said], KeepUsage, true, true)
  }

  function ReduceSession(s: Session, input: SessionInput): Session {
    match input
    case SessionCleared =>
      s.(timeline := [], activeRun := None, pendingInterrupt := None, plan := None, tokenUsage := None, sessionUsage := None)
    case UserAccepted(r, text, id) => Appended(Begun(s, r), MessageInput(id, User, text, Some(r)))
    case MessageAppended(m) => Appended(s, m)
    case RuntimeInput(event, message) => ReduceRuntimeEvent(s, event, message)
    case RunInterrupting(r) => WithRun(s, r, Interrupting)
    case ResumeAccepted(r, interrupt) =>
      if s.activeRun.Some? || s.pendingInterrupt != Some(interrupt) then s
      else s.(tokenUsage := None, activeRun := Some(Run(r, Running(Thinking))))
    case RunFinished(r, messages, usage) => FinishOwnedRun(s, r, messages, usage, false, true)
  }

  // -------------------------------------------------------------- snapshots

  datatype SnapshotOptions = SnapshotOptions(preserveUsage: bool, preserveSessionUsage: bool)

  const Plain := SnapshotOptions(false, false)

  /** A windowed snapshot covers only its tail: what the reader holds before it stays. */
  function Spliced(s: Session, incoming: Session): Session {
    if incoming.omitted.None? then s.(timeline := incoming.timeline, omitted := None)
    else
      var held := if s.sessionId == incoming.sessionId && incoming.timeline != [] then IndexOf(s.timeline, incoming.timeline[0].id) else |s.timeline|;
      if held == |s.timeline| then s.(timeline := incoming.timeline, omitted := incoming.omitted)
      else s.(timeline := s.timeline[..held] + incoming.timeline)
  }

  function SnapshotUsage(s: Session, incoming: Session): Option<Usage> {
    var offered := incoming.sessionUsage;
    if incoming.sessionId == s.sessionId && offered.Some? && offered.value.epoch == EpochOf(s.sessionUsage)
       && RevisionOf(s.sessionUsage).Some?
       && (offered.value.revision.None? || offered.value.revision.value < RevisionOf(s.sessionUsage).value)
    then s.sessionUsage
    else offered
  }

  function ApplySnapshot(s: Session, incoming: Session, options: SnapshotOptions): Session {
    var spliced := Spliced(s, incoming);
    Session(
      incoming.sessionId, spliced.timeline, spliced.omitted,
      incoming.activeRun, incoming.pendingInterrupt, incoming.plan,
      Or(incoming.runtimeWindow, s.runtimeWindow),
      if incoming.tokenUsage.None? && options.preserveUsage then s.tokenUsage else incoming.tokenUsage,
      if SnapshotUsage(s, incoming).None? && options.preserveSessionUsage then s.sessionUsage else SnapshotUsage(s, incoming))
  }

  function EmptySession(sessionId: string): Session {
    Session(sessionId, [], None, None, None, None, None, None, None)
  }
}

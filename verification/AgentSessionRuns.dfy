/** A run and a review never overlap, and nothing is left running when both are over. */
module AgentSessionRuns {
  import opened AgentSession
  import opened AgentSessionTimeline
  import opened History
  import opened Options
  import JsText

  predicate Quiet(e: Entry) {
    e.Message? ==> forall k :: 0 <= k < |e.calls| ==> e.calls[k].status != CallRunning
  }

  predicate AllQuiet(t: seq<Entry>) {
    forall i :: 0 <= i < |t| ==> Quiet(t[i])
  }

  predicate Exclusive(s: Session) {
    && !(s.activeRun.Some? && s.pendingInterrupt.Some?)
    && (s.activeRun.None? && s.pendingInterrupt.None? ==> AllQuiet(s.timeline))
  }

  lemma UpsertQuiet(t: seq<Entry>, e: Entry)
    requires AllQuiet(t) && Quiet(e)
    ensures AllQuiet(Upsert(t, e))
  {
    hide Quiet;
  }

  lemma InterruptedQuiet(t: seq<Entry>)
    ensures AllQuiet(Mapped(t, InterruptCalls))
  {
    forall i | 0 <= i < |t| ensures Quiet(Mapped(t, InterruptCalls)[i]) { InterruptQuiet(t[i]); }
  }

  lemma InterruptQuiet(e: Entry)
    ensures Quiet(InterruptCalls(e))
  {
    if e.Message? {
      forall k | 0 <= k < |e.calls| ensures InterruptCalls(e).calls[k].status != CallRunning {
        assert InterruptCalls(e).calls[k] == Stopped(e.calls[k]);
      }
    }
  }

  lemma FinalizedQuiet(t: seq<Entry>, r: string)
    requires AllQuiet(t)
    ensures AllQuiet(Mapped(t, (e: Entry) => Finalized(e, r)))
  {
  }

  lemma SettledQuiet(e: Entry, callId: string, outcome: Outcome)
    requires e.Message? && Quiet(e)
    ensures Quiet(Settled(e, callId, outcome))
  {
  }

  lemma AppendedQuiet(s: Session, m: MessageInput)
    requires AllQuiet(s.timeline)
    ensures AllQuiet(Appended(s, m).timeline)
  {
  }

  lemma {:induction false} AppendedAllQuiet(s: Session, messages: seq<MessageInput>, r: string)
    requires AllQuiet(s.timeline)
    ensures AllQuiet(AppendedAll(s, messages, r).timeline)
    decreases |messages|
  {
    if messages != [] {
      var m := messages[0].(request := if messages[0].request.Some? then messages[0].request else Some(r));
      AppendedQuiet(s, m);
      AppendedAllQuiet(Appended(s, m), messages[1..], r);
    }
  }

  /** A run that ends outside a review leaves no call open, whatever it says at the end. */
  lemma FinishQuiet(s: Session, r: string, messages: seq<MessageInput>, usage: UsageUpdate, preserve: bool, settle: bool)
    requires OwnsRun(s, r) && s.pendingInterrupt.None?
    ensures var t := FinishOwnedRun(s, r, messages, usage, preserve, settle);
            AllQuiet(t.timeline) && t.activeRun.None? && t.pendingInterrupt.None?
  {
    InterruptedQuiet(s.timeline);
    var stopped := InterruptOpenCalls(s, r);
    FinalizedQuiet(stopped.timeline, r);
    var ended := stopped.(
      timeline := if settle then Mapped(stopped.timeline, (e: Entry) => Finalized(e, r)) else stopped.timeline,
      activeRun := None,
      pendingInterrupt := if preserve then stopped.pendingInterrupt else None);
    hide AllQuiet; hide Mapped; hide ApplyTokenUsage; hide AppendedAll;
    AppendedAllQuiet(ended, messages, r);
    AppendedAllKeepsOne(ended, messages, r);
    if usage.ApplyUsage? { UsageKeepsTimeline(AppendedAll(ended, messages, r), usage.usage, false); }
  }

  lemma FinishExclusive(s: Session, r: string, messages: seq<MessageInput>, usage: UsageUpdate, preserve: bool, settle: bool)
    requires Exclusive(s)
    ensures Exclusive(FinishOwnedRun(s, r, messages, usage, preserve, settle))
  {
    if OwnsRun(s, r) { FinishQuiet(s, r, messages, usage, preserve, settle); }
  }

  lemma CompletionExclusive(s: Session, r: string, m: string, text: string, usage: Option<Usage>, message: Option<MessageInput>)
    requires Exclusive(s)
    ensures Exclusive(CompleteMessage(s, r, m, text, usage, message))
  {
    var id := IdOr(message, Named(m));
    var e := Message(id, Assistant, CompletedText(s.timeline, id, text), [], false, Some(r));
    var t := s.(timeline := Upsert(s.timeline, e));
    assert Exclusive(t) by { if AllQuiet(s.timeline) { UpsertQuiet(s.timeline, e); } }
    hide Exclusive; hide Upsert; hide FinishOwnedRun; hide ApplyTokenUsage; hide CompletedText; hide IndexOfMessage;
    FinishExclusive(t, r, [], if usage.Some? then ApplyUsage(usage.value) else DropUsage, false, false);
    if usage.Some? { UsageExclusive(t, usage.value, false); }
  }

  lemma UsageExclusive(s: Session, usage: Usage, allow: bool)
    requires Exclusive(s)
    ensures Exclusive(ApplyTokenUsage(s, usage, allow))
  {
    UsageKeepsTimeline(s, usage, allow);
  }

  lemma SettleExclusive(s: Session, callId: string, outcome: Outcome)
    requires Exclusive(s)
    ensures Exclusive(SettleCall(s, callId, outcome))
  {
    var i := First(s.timeline, (e: Entry) => MakesCall(e, callId), 0);
    if i < |s.timeline| && AllQuiet(s.timeline) {
      SettledQuiet(s.timeline[i], callId, outcome);
      UpsertQuiet(s.timeline, Settled(s.timeline[i], callId, outcome));
    }
  }

  /** The events that keep the run going: it is still there afterwards, and no review. */
  lemma RunGoesOn(s: Session, event: RuntimeEvent, message: Option<MessageInput>)
    requires Exclusive(s)
    requires event.MessageDelta? || event.MessageToolCalls? || event.SubagentCompleted? || event.OperationEvent?
             || event.PlanUpdated? || event.SystemNotice? || event.RunStarted?
    ensures Exclusive(ReduceRuntimeEvent(s, event, message))
  {
    hide AllQuiet; hide Upsert; hide CallsOf; hide MergedDetail; hide HasOpenOperation; hide IndexOfMessage;
  }

  lemma EventExclusive(s: Session, event: RuntimeEvent, message: Option<MessageInput>)
    requires Exclusive(s)
    ensures Exclusive(ReduceRuntimeEvent(s, event, message))
  {
    hide FinishOwnedRun; hide ApplyTokenUsage; hide CompleteMessage; hide SettleCall; hide AllQuiet;
    match event
    case RunInterrupted(r, text) =>
      FinishExclusive(s, r, [MessageInput(None, System, if JsText.IsBlank(text) then "Run interrupted." else JsText.Trim(text), Some(r))], KeepUsage, false, true);
    case ErrorEvent(r, text) =>
      FinishExclusive(s, r, [MessageInput(if message.Some? then message.value.id else None, System,
                                          if message.Some? then message.value.text else text, Some(r))], KeepUsage, true, true);
    case UsageUpdated(_, usage) => UsageExclusive(s, usage, true);
    case MessageCompleted(r, m, text, usage) => CompletionExclusive(s, r, m, text, usage, message);
    case ToolCallSettled(c, outcome) => SettleExclusive(s, c, outcome);
    case InterruptRequested(_, _, _) =>
    case _ => RunGoesOn(s, event, message);
  }

  // ------------------------------------------------------------- snapshots

  /** What a windowed snapshot leaves of the timeline the reader already held. */
  function HeldBefore(s: Session, incoming: Session): seq<Entry> {
    if incoming.omitted.None? || s.sessionId != incoming.sessionId || incoming.timeline == [] then []
    else
      var held := IndexOf(s.timeline, incoming.timeline[0].id);
      if held == |s.timeline| then [] else s.timeline[..held]
  }

  lemma SnapshotTimeline(s: Session, incoming: Session, options: SnapshotOptions)
    ensures ApplySnapshot(s, incoming, options).timeline == HeldBefore(s, incoming) + incoming.timeline
    ensures incoming.omitted.None? ==> HeldBefore(s, incoming) == []
  {
  }

  lemma QuietParts(a: seq<Entry>, b: seq<Entry>)
    ensures AllQuiet(a + b) <==> AllQuiet(a) && AllQuiet(b)
  {
    hide Quiet;
    if AllQuiet(a + b) {
      forall i | 0 <= i < |a| ensures Quiet(a[i]) { assert (a + b)[i] == a[i]; }
      forall i | 0 <= i < |b| ensures Quiet(b[i]) { assert (a + b)[|a| + i] == b[i]; }
    }
  }

  /**
   A full snapshot brings its own exclusion. A windowed one keeps it exactly when it
   brings a run or a review, or the part it leaves standing has no running call.
   */
  lemma SnapshotExclusive(s: Session, incoming: Session, options: SnapshotOptions)
    requires Exclusive(incoming)
    ensures Exclusive(ApplySnapshot(s, incoming, options))
       <==> incoming.activeRun.Some? || incoming.pendingInterrupt.Some? || AllQuiet(HeldBefore(s, incoming))
  {
    SnapshotTimeline(s, incoming, options);
    QuietParts(HeldBefore(s, incoming), incoming.timeline);
    hide AllQuiet; hide HeldBefore; hide Spliced; hide SnapshotUsage;
  }

  datatype ConsoleInput = Observed(event: RuntimeEvent) | Read(snapshot: Session)

  function Applied(s: Session, input: ConsoleInput): Session {
    match input
    case Observed(event) => ReduceRuntimeEvent(s, event, None)
    case Read(snapshot) => ApplySnapshot(s, snapshot, Plain)
  }

  /** An event, or a full snapshot that is itself in order. */
  predicate Orderly(input: ConsoleInput) {
    input.Read? ==> input.snapshot.omitted.None? && Exclusive(input.snapshot)
  }

  lemma AppliedExclusive(s: Session, input: ConsoleInput)
    requires Exclusive(s) && Orderly(input)
    ensures Exclusive(Applied(s, input))
  {
    hide Exclusive; hide ReduceRuntimeEvent; hide ApplySnapshot;
    match input
    case Observed(event) => EventExclusive(s, event, None);
    case Read(snapshot) =>
      SnapshotTimeline(s, snapshot, Plain);
      assert AllQuiet(HeldBefore(s, snapshot));
      SnapshotExclusive(s, snapshot, Plain);
  }

  /** At every moment of everything the Console reader can receive. */
  lemma ConsoleExclusive(s: Session, inputs: seq<ConsoleInput>)
    requires Exclusive(s) && forall k :: 0 <= k < |inputs| ==> Orderly(inputs[k])
    ensures Always(Applied, Exclusive, s, inputs)
  {
    hide Exclusive; hide Applied; hide Orderly;
    forall x, i | Exclusive(x) && Orderly(i) ensures Exclusive(Applied(x, i)) { AppliedExclusive(x, i); }
    KeptIsAlways(Applied, Exclusive, Orderly, s, inputs);
  }

  /** The terminal client's other inputs keep the exclusion too, all but the resumption of a review. */
  lemma InputExclusive(s: Session, input: SessionInput)
    requires Exclusive(s) && !input.ResumeAccepted?
    ensures Exclusive(ReduceSession(s, input))
  {
    match input
    case RuntimeInput(event, message) => EventExclusive(s, event, message);
    case RunFinished(r, messages, usage) => FinishExclusive(s, r, messages, usage, false, true);
    case MessageAppended(m) => if AllQuiet(s.timeline) { AppendedQuiet(s, m); }
    case _ => hide AllQuiet;
  }

  // ------------------------------------------------------ where it does not hold

  /**
   A review resumed by the terminal client keeps its interrupt while the run goes on: run
   and review overlap until an input clears either.
   */
  predicate Overlapped(s: Session) {
    s.activeRun.Some? && s.pendingInterrupt.Some?
  }

  predicate InOrder(s: Session) {
    Exclusive(s) || Overlapped(s)
  }

  lemma ResumeOverlaps(s: Session, r: string, interrupt: string)
    requires Exclusive(s)
    ensures Overlapped(ReduceSession(s, ResumeAccepted(r, interrupt))) <==> s.activeRun.None? && s.pendingInterrupt == Some(interrupt)
    ensures InOrder(ReduceSession(s, ResumeAccepted(r, interrupt)))
  {
    hide AllQuiet;
  }

  /** The inputs that end the run and clear the review with it. */
  predicate Ends(s: Session, input: SessionInput) {
    match input
    case RunFinished(r, _, _) => OwnsRun(s, r)
    case RuntimeInput(event, _) => (event.RunInterrupted? || event.MessageCompleted?) && OwnsRun(s, event.request)
    case _ => false
  }

  /** No call is running in the timeline, but for those of the message that is completed and so replaced. */
  predicate LeavesQuiet(s: Session, input: SessionInput) {
    if input.RuntimeInput? && input.event.MessageCompleted? then
      forall i :: 0 <= i < |s.timeline| && i != IndexOf(s.timeline, IdOr(input.message, Named(input.event.messageId))) ==> Quiet(s.timeline[i])
    else AllQuiet(s.timeline)
  }

  lemma FinalizedSameQuiet(t: seq<Entry>, r: string)
    ensures AllQuiet(Mapped(t, (e: Entry) => Finalized(e, r))) <==> AllQuiet(t)
  {
    var u := Mapped(t, (e: Entry) => Finalized(e, r));
    forall i | 0 <= i < |t| ensures Quiet(u[i]) <==> Quiet(t[i]) {}
    hide Quiet; hide Mapped;
    if AllQuiet(u) { forall i | 0 <= i < |t| ensures Quiet(t[i]) { assert Quiet(u[i]); } }
  }

  lemma AppendedSameQuiet(s: Session, m: MessageInput)
    ensures AllQuiet(Appended(s, m).timeline) <==> AllQuiet(s.timeline)
  {
    var t := Appended(s, m).timeline;
    assert t == s.timeline + t[|s.timeline|..];
    assert AllQuiet(t[|s.timeline|..]);
    QuietParts(s.timeline, t[|s.timeline|..]);
  }

  lemma {:induction false} AppendedAllSameQuiet(s: Session, messages: seq<MessageInput>, r: string)
    ensures AllQuiet(AppendedAll(s, messages, r).timeline) <==> AllQuiet(s.timeline)
    decreases |messages|
  {
    hide AllQuiet; hide Appended;
    if messages != [] {
      var m := messages[0].(request := if messages[0].request.Some? then messages[0].request else Some(r));
      AppendedSameQuiet(s, m);
      AppendedAllSameQuiet(Appended(s, m), messages[1..], r);
    }
  }

  /** A run that ends while its review is still there leaves every call as it was. */
  lemma FinishOverlapped(s: Session, r: string, messages: seq<MessageInput>, usage: UsageUpdate, settle: bool)
    requires Overlapped(s) && OwnsRun(s, r)
    ensures var t := FinishOwnedRun(s, r, messages, usage, false, settle);
            && t.activeRun.None? && t.pendingInterrupt.None?
            && (AllQuiet(t.timeline) <==> AllQuiet(s.timeline))
  {
    FinalizedSameQuiet(s.timeline, r);
    var ended := s.(
      timeline := if settle then Mapped(s.timeline, (e: Entry) => Finalized(e, r)) else s.timeline,
      activeRun := None,
      pendingInterrupt := None);
    hide AllQuiet; hide Mapped; hide ApplyTokenUsage; hide AppendedAll;
    AppendedAllSameQuiet(ended, messages, r);
    AppendedAllKeepsOne(ended, messages, r);
    if usage.ApplyUsage? { UsageKeepsTimeline(AppendedAll(ended, messages, r), usage.usage, false); }
  }

  /** An error ends the run and keeps the review. */
  lemma ErrorOverlapped(s: Session, r: string, said: MessageInput)
    requires Overlapped(s)
    ensures InOrder(FinishOwnedRun(s, r, [said], KeepUsage, true, true))
  {
    hide AllQuiet; hide Mapped; hide AppendedAll;
    if OwnsRun(s, r) {
      var ended := s.(timeline := Mapped(s.timeline, (e: Entry) => Finalized(e, r)), activeRun := None);
      AppendedAllKeepsOne(ended, [said], r);
    }
  }

  lemma UpsertSameQuiet(t: seq<Entry>, e: Entry)
    requires Quiet(e)
    ensures AllQuiet(Upsert(t, e)) <==> forall i :: 0 <= i < |t| && i != IndexOf(t, e.id) ==> Quiet(t[i])
  {
    hide Quiet;
    var u, k := Upsert(t, e), IndexOf(t, e.id);
    assert forall i :: 0 <= i < |t| && i != k ==> u[i] == t[i];
    assert u[k] == e;
  }

  lemma CompletionOverlapped(s: Session, r: string, m: string, text: string, usage: Option<Usage>, message: Option<MessageInput>)
    requires Overlapped(s)
    ensures var t := CompleteMessage(s, r, m, text, usage, message);
            if OwnsRun(s, r) then
              t.activeRun.None? && t.pendingInterrupt.None?
              && (AllQuiet(t.timeline) <==> LeavesQuiet(s, RuntimeInput(MessageCompleted(r, m, text, usage), message)))
            else Overlapped(t)
  {
    var id := IdOr(message, Named(m));
    var e := Message(id, Assistant, CompletedText(s.timeline, id, text), [], false, Some(r));
    var t := s.(timeline := Upsert(s.timeline, e));
    UpsertSameQuiet(s.timeline, e);
    hide AllQuiet; hide Upsert; hide FinishOwnedRun; hide ApplyTokenUsage; hide CompletedText; hide IndexOfMessage; hide HasRequest; hide HasRelease; hide Quiet;
    if OwnsRun(s, r) {
      FinishOverlapped(t, r, [], if usage.Some? then ApplyUsage(usage.value) else DropUsage, false);
    } else if usage.Some? {
      UsageKeepsTimeline(t, usage.value, false);
    }
  }

  lemma EventOverlapped(s: Session, event: RuntimeEvent, message: Option<MessageInput>)
    requires Overlapped(s) && !Ends(s, RuntimeInput(event, message))
    ensures InOrder(ReduceRuntimeEvent(s, event, message))
  {
    hide AllQuiet; hide FinishOwnedRun; hide ApplyTokenUsage; hide CompleteMessage; hide Upsert; hide CallsOf; hide MergedDetail;
    hide HasOpenOperation; hide IndexOfMessage;
    match event
    case ErrorEvent(r, text) =>
      ErrorOverlapped(s, r, MessageInput(if message.Some? then message.value.id else None, System,
                                         if message.Some? then message.value.text else text, Some(r)));
    case RunInterrupted(r, text) => NotOwned(s, r);
    case MessageCompleted(r, m, text, usage) => CompletionOverlapped(s, r, m, text, usage, message);
    case UsageUpdated(_, usage) => UsageKeepsTimeline(s, usage, true);
    case InterruptRequested(_, _, usage) => if usage.Some? { UsageKeepsTimeline(s, usage.value, true); }
    case _ =>
  }

  lemma NotOwned(s: Session, r: string)
    requires !OwnsRun(s, r)
    ensures forall messages, usage, preserve, settle :: FinishOwnedRun(s, r, messages, usage, preserve, settle) == s
  {
  }

  /**
   What the next input makes of an overlap: one that does not end the run with its review
   leaves an overlap or the exclusion; one that does restores the exclusion exactly when no
   call is left running.
   */
  lemma OverlapNext(s: Session, input: SessionInput)
    requires Overlapped(s)
    ensures !Ends(s, input) ==> InOrder(ReduceSession(s, input))
    ensures Ends(s, input) ==> !Overlapped(ReduceSession(s, input))
                               && (Exclusive(ReduceSession(s, input)) <==> LeavesQuiet(s, input))
  {
    hide AllQuiet; hide FinishOwnedRun; hide CompleteMessage; hide Quiet;
    match input
    case RuntimeInput(event, message) =>
      if !Ends(s, input) {
        EventOverlapped(s, event, message);
      } else if event.MessageCompleted? {
        CompletionOverlapped(s, event.request, event.messageId, event.text, event.spent, message);
      } else {
        InterruptionOverlapped(s, event.request, event.message, message);
      }
    case RunFinished(r, messages, usage) =>
      if OwnsRun(s, r) { FinishOverlapped(s, r, messages, usage, true); } else { NotOwned(s, r); }
    case SessionCleared => NothingRuns();
    case _ =>
  }

  lemma InterruptionOverlapped(s: Session, r: string, text: string, message: Option<MessageInput>)
    requires Overlapped(s) && OwnsRun(s, r)
    ensures var t := ReduceRuntimeEvent(s, RunInterrupted(r, text), message);
            t.activeRun.None? && t.pendingInterrupt.None? && (AllQuiet(t.timeline) <==> AllQuiet(s.timeline))
  {
    hide AllQuiet; hide FinishOwnedRun;
    FinishOverlapped(s, r, [MessageInput(None, System, if JsText.IsBlank(text) then "Run interrupted." else JsText.Trim(text), Some(r))],
                     KeepUsage, true);
  }

  /** Whatever the terminal client's reader is fed: reducer inputs and snapshots. */
  datatype ReaderInput = Fed(input: SessionInput) | Given(snapshot: Session, options: SnapshotOptions)

  function Received(s: Session, i: ReaderInput): Session {
    match i
    case Fed(input) => ReduceSession(s, input)
    case Given(snapshot, options) => ApplySnapshot(s, snapshot, options)
  }

  /** An input that ends a resumed run before anything cleared its review, with calls left running. */
  predicate Strands(s: Session, i: ReaderInput) {
    i.Fed? && Overlapped(s) && Ends(s, i.input) && !LeavesQuiet(s, i.input)
  }

  lemma ReceivedInOrder(s: Session, i: ReaderInput)
    requires InOrder(s) && (i.Given? ==> i.snapshot.omitted.None? && Exclusive(i.snapshot))
    ensures InOrder(Received(s, i)) <==> !Strands(s, i)
  {
    hide ReduceSession; hide ApplySnapshot; hide Ends; hide LeavesQuiet; hide AllQuiet;
    match i
    case Given(snapshot, options) =>
      assert AllQuiet([]) by { NothingRuns(); }
      SnapshotTimeline(s, snapshot, options);
      SnapshotExclusive(s, snapshot, options);
    case Fed(input) =>
      if Overlapped(s) {
        OverlapNext(s, input);
      } else if input.ResumeAccepted? {
        ResumeOverlaps(s, input.request, input.interrupt);
      } else {
        InputExclusive(s, input);
      }
  }

  lemma NothingRuns()
    ensures AllQuiet([])
  {
  }

  /** A reducer input, or a full snapshot that is itself in order. */
  predicate Fair(i: ReaderInput) {
    i.Given? ==> i.snapshot.omitted.None? && Exclusive(i.snapshot)
  }

  /**
   Over every run of the terminal client's inputs, resumptions among them: run and review
   are in order at every moment exactly if no input strands a call.
   */
  lemma ReaderInOrder(s: Session, inputs: seq<ReaderInput>)
    requires InOrder(s) && forall k :: 0 <= k < |inputs| ==> Fair(inputs[k])
    ensures Always(Received, InOrder, s, inputs) <==> Unbroken(Received, Strands, s, inputs)
  {
    hide InOrder; hide Strands; hide Received; hide Exclusive;
    forall x, i | InOrder(x) && Fair(i) ensures InOrder(Received(x, i)) <==> !Strands(x, i) { ReceivedInOrder(x, i); }
    AlwaysIsUnbroken(Received, InOrder, Fair, Strands, s, inputs);
  }

  /** A paused run with a running call, resumed and then stopped, finished or completed at once, leaves the call running. */
  lemma ResumeStrandsCalls(s: Session, r: string, interrupt: string, input: SessionInput)
    requires s.activeRun.None? && s.pendingInterrupt == Some(interrupt)
    requires Ends(ReduceSession(s, ResumeAccepted(r, interrupt)), input)
    ensures Overlapped(ReduceSession(s, ResumeAccepted(r, interrupt)))
    ensures Exclusive(ReduceSession(ReduceSession(s, ResumeAccepted(r, interrupt)), input)) <==> LeavesQuiet(s, input)
  {
    hide Ends;
    OverlapNext(ReduceSession(s, ResumeAccepted(r, interrupt)), input);
  }

  /** A reader whose session has two messages, the older one with a running call of a run that has ended meanwhile. */
  function Behind(): Session {
    var older := Message(Named("older"), Assistant, "", [ToolCall("call", "tool", CallRunning)], false, Some("run"));
    EmptySession("session").(timeline := [older, Newer()], activeRun := Some(Run("run", Running(UsingTool))))
  }

  function Newer(): Entry {
    Message(Named("newer"), Assistant, "text", [], false, Some("run"))
  }

  /** A session paused for a review in the middle of a call. */
  function Paused(): Session {
    EmptySession("session").(timeline := [Message(Named("older"), Assistant, "", [ToolCall("call", "tool", CallRunning)], false, Some("run"))],
                             pendingInterrupt := Some("review"))
  }

  /** Its call is stranded by each of the three ends, right after the resumption. */
  lemma PausedIsStranded(text: string, usage: UsageUpdate, spent: Option<Usage>)
    ensures Exclusive(Paused())
    ensures var resumed := ReduceSession(Paused(), ResumeAccepted("run", "review"));
            && !Exclusive(ReduceSession(resumed, RuntimeInput(RunInterrupted("run", text), None)))
            && !Exclusive(ReduceSession(resumed, RuntimeInput(MessageCompleted("run", "newer", text, spent), None)))
            && !Exclusive(ReduceSession(resumed, RunFinished("run", [], usage)))
  {
    PausedUnquiet();
    hide LeavesQuiet;
    ResumeStrandsCalls(Paused(), "run", "review", RuntimeInput(RunInterrupted("run", text), None));
    ResumeStrandsCalls(Paused(), "run", "review", RuntimeInput(MessageCompleted("run", "newer", text, spent), None));
    ResumeStrandsCalls(Paused(), "run", "review", RunFinished("run", [], usage));
  }

  lemma PausedUnquiet()
    ensures forall text :: !LeavesQuiet(Paused(), RuntimeInput(RunInterrupted("run", text), None))
    ensures forall text, spent :: !LeavesQuiet(Paused(), RuntimeInput(MessageCompleted("run", "newer", text, spent), None))
    ensures forall usage :: !LeavesQuiet(Paused(), RunFinished("run", [], usage))
  {
    assert !Quiet(Paused().timeline[0]) by { assert Paused().timeline[0].calls[0].status == CallRunning; }
    assert Paused().timeline[0].id != Named("newer");
  }

  function Window(): Session {
    EmptySession("session").(timeline := [Newer()], omitted := Some(1))
  }

  /** So a window can leave a call running for good, though both sides are in order. */
  lemma WindowStrandsCall()
    ensures Exclusive(Behind()) && Exclusive(Window()) && !Exclusive(ApplySnapshot(Behind(), Window(), Plain))
  {
    assert Behind().timeline[0].id != Named("newer");
    assert HeldBefore(Behind(), Window()) == Behind().timeline[..1];
    assert !Quiet(HeldBefore(Behind(), Window())[0]) by { assert Behind().timeline[0].calls[0].status == CallRunning; }
    SnapshotExclusive(Behind(), Window(), Plain);
  }
}

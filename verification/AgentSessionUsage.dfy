/** The token ledger a reader keeps: what it converges to, and what it adds up. */
module AgentSessionUsage {
  import opened AgentSession
  import opened AgentSessionTimeline
  import opened AgentSessionRuns
  import opened History
  import opened Options
  import JsText

  datatype Totals = Totals(input: nat, output: nat, total: nat, cached: Option<nat>, eligible: Option<nat>)

  function TotalsOf(u: Usage): Totals {
    Totals(u.input, u.output, u.total, u.cached, u.eligible)
  }

  // ----------------------------------------- what an event adds to the ledger

  function UsageOf(event: RuntimeEvent): Option<Usage> {
    match event
    case UsageUpdated(_, usage) => Some(usage)
    case MessageCompleted(_, _, _, spent) => spent
    case InterruptRequested(_, _, spent) => spent
    case _ => None
  }

  /** The message an id names is complete. */
  predicate IsCompleted(t: seq<Entry>, id: EntryId) {
    var i := IndexOfMessage(t, id);
    i < |t| && !t[i].streaming
  }

  /** A completion is taken from the run that is followed, or recovered for a message seen before. */
  predicate Takes(s: Session, r: string) {
    OwnsRun(s, r) || (HasRequest(s.timeline, r) && !HasRelease(s.timeline, r))
  }

  /** The usage that an event adds to the session's, if it does. */
  function Counted(s: Session, event: RuntimeEvent): Option<Usage> {
    match event
    case UsageUpdated(r, usage) => if OwnsRun(s, r) then Some(usage) else None
    case InterruptRequested(r, _, spent) => if OwnsRun(s, r) then spent else None
    case MessageCompleted(r, m, _, spent) =>
      if spent.Some? && Takes(s, r) && (OwnsRun(s, r) || spent.value.scope == SessionScope || !IsCompleted(s.timeline, Named(m)))
      then spent else None
    case _ => None
  }

  function Absorbed(held: Option<Usage>, window: Option<nat>, usage: Usage, allowEpochChange: bool): Option<Usage> {
    ApplyTokenUsage(EmptySession("").(sessionUsage := held, runtimeWindow := window), usage, allowEpochChange).sessionUsage
  }

  lemma AbsorbedIsApplied(s: Session, usage: Usage, allow: bool)
    ensures ApplyTokenUsage(s, usage, allow).sessionUsage == Absorbed(s.sessionUsage, s.runtimeWindow, usage, allow)
  {
  }

  lemma {:induction false} AppendedAllKeepsUsage(s: Session, messages: seq<MessageInput>, r: string)
    ensures AppendedAll(s, messages, r).sessionUsage == s.sessionUsage
    ensures AppendedAll(s, messages, r).runtimeWindow == s.runtimeWindow
    ensures AppendedAll(s, messages, r).sessionId == s.sessionId
    decreases |messages|
  {
    if messages != [] {
      var m := messages[0].(request := if messages[0].request.Some? then messages[0].request else Some(r));
      AppendedAllKeepsUsage(Appended(s, m), messages[1..], r);
    }
  }

  lemma FinishUsage(s: Session, r: string, messages: seq<MessageInput>, usage: UsageUpdate, preserve: bool, settle: bool)
    ensures var t := FinishOwnedRun(s, r, messages, usage, preserve, settle);
            && t.sessionId == s.sessionId
            && t.sessionUsage == (if usage.ApplyUsage? && OwnsRun(s, r) then Absorbed(s.sessionUsage, s.runtimeWindow, usage.usage, false) else s.sessionUsage)
  {
    if OwnsRun(s, r) {
      var stopped := if s.pendingInterrupt.None? then InterruptOpenCalls(s, r) else s;
      var ended := stopped.(
        timeline := if settle then Mapped(stopped.timeline, (e: Entry) => Finalized(e, r)) else stopped.timeline,
        activeRun := None,
        pendingInterrupt := if preserve then stopped.pendingInterrupt else None);
      hide Mapped; hide AppendedAll; hide ApplyTokenUsage; hide Absorbed;
      AppendedAllKeepsUsage(ended, messages, r);
      if usage.ApplyUsage? {
        UsageKeepsTimeline(AppendedAll(ended, messages, r), usage.usage, false);
        AbsorbedIsApplied(AppendedAll(ended, messages, r), usage.usage, false);
      }
    }
  }

  lemma CompletionUsage(s: Session, r: string, m: string, text: string, spent: Option<Usage>)
    ensures var t := CompleteMessage(s, r, m, text, spent, None);
            var u := Counted(s, MessageCompleted(r, m, text, spent));
            && t.sessionId == s.sessionId
            && t.sessionUsage == (if u.Some? then Absorbed(s.sessionUsage, s.runtimeWindow, u.value, false) else s.sessionUsage)
  {
    var id := Named(m);
    var t := s.(timeline := Upsert(s.timeline, Message(id, Assistant, CompletedText(s.timeline, id, text), [], false, Some(r))));
    hide Upsert; hide FinishOwnedRun; hide ApplyTokenUsage; hide CompletedText; hide Absorbed; hide IndexOfMessage; hide HasRequest; hide HasRelease;
    if OwnsRun(s, r) {
      FinishUsage(t, r, [], if spent.Some? then ApplyUsage(spent.value) else DropUsage, false, false);
    } else if spent.Some? {
      UsageKeepsTimeline(t, spent.value, false);
      AbsorbedIsApplied(t, spent.value, false);
    }
  }

  /** The session's usage changes by what an event counts, and by nothing else. */
  lemma EventUsage(s: Session, event: RuntimeEvent)
    ensures var t := ReduceRuntimeEvent(s, event, None);
            var u := Counted(s, event);
            && t.sessionId == s.sessionId
            && t.sessionUsage == (if u.Some? then Absorbed(s.sessionUsage, s.runtimeWindow, u.value, !event.MessageCompleted?) else s.sessionUsage)
  {
    hide FinishOwnedRun; hide ApplyTokenUsage; hide CompleteMessage; hide Absorbed; hide Upsert; hide IndexOfMessage; hide CallsOf; hide MergedDetail; hide HasOpenOperation;
    match event
    case MessageCompleted(r, m, text, spent) => CompletionUsage(s, r, m, text, spent);
    case RunInterrupted(r, text) =>
      FinishUsage(s, r, [MessageInput(None, System, if JsText.IsBlank(text) then "Run interrupted." else JsText.Trim(text), Some(r))], KeepUsage, false, true);
    case ErrorEvent(r, text) => FinishUsage(s, r, [MessageInput(None, System, text, Some(r))], KeepUsage, true, true);
    case UsageUpdated(_, u) => UsageKeepsTimeline(s, u, true); AbsorbedIsApplied(s, u, true);
    case InterruptRequested(_, _, spent) => if spent.Some? { UsageKeepsTimeline(s, spent.value, true); AbsorbedIsApplied(s, spent.value, true); }
    case _ =>
  }

  // ------------------------------------------- one epoch of session usages

  /** An absolute total of the session, with its revision in the epoch. */
  predicate InEpoch(u: Usage, epoch: string) {
    u.scope == SessionScope && u.epoch == Some(epoch) && u.revision.Some?
  }

  function Offered(s: Session, input: ConsoleInput): Option<Usage> {
    match input
    case Observed(event) => Counted(s, event)
    case Read(snapshot) => snapshot.sessionUsage
  }

  /** All usages are of this epoch, and every snapshot is of this session and carries one. */
  predicate OfEpoch(sessionId: string, epoch: string, input: ConsoleInput) {
    match input
    case Observed(event) => UsageOf(event).Some? ==> InEpoch(UsageOf(event).value, epoch)
    case Read(snapshot) => snapshot.sessionId == sessionId && snapshot.sessionUsage.Some? && InEpoch(snapshot.sessionUsage.value, epoch)
  }

  predicate Ledger(held: Option<Usage>, epoch: string) {
    held.Some? ==> InEpoch(held.value, epoch)
  }

  datatype Mark = Mark(revision: nat, totals: Totals)

  function MarkOf(u: Option<Usage>): Option<Mark> {
    if u.Some? && u.value.revision.Some? then Some(Mark(u.value.revision.value, TotalsOf(u.value))) else None
  }

  /** The newer of two marks; an equal revision replaces. */
  function Newer(held: Option<Mark>, offered: Option<Mark>): Option<Mark> {
    if held.None? then offered
    else if offered.None? || offered.value.revision < held.value.revision then held
    else offered
  }

  lemma AbsorbedIsNewer(held: Option<Usage>, window: Option<nat>, usage: Usage, allow: bool, epoch: string)
    requires Ledger(held, epoch) && InEpoch(usage, epoch)
    ensures Ledger(Absorbed(held, window, usage, allow), epoch)
    ensures MarkOf(Absorbed(held, window, usage, allow)) == Newer(MarkOf(held), MarkOf(Some(usage)))
  {
  }

  lemma ReadIsNewer(s: Session, snapshot: Session, epoch: string)
    requires Ledger(s.sessionUsage, epoch) && OfEpoch(s.sessionId, epoch, Read(snapshot))
    ensures var t := ApplySnapshot(s, snapshot, Plain);
            && t.sessionId == s.sessionId && Ledger(t.sessionUsage, epoch)
            && MarkOf(t.sessionUsage) == Newer(MarkOf(s.sessionUsage), MarkOf(snapshot.sessionUsage))
  {
    hide Spliced;
  }

  lemma AppliedIsNewer(s: Session, input: ConsoleInput, epoch: string)
    requires Ledger(s.sessionUsage, epoch) && OfEpoch(s.sessionId, epoch, input)
    ensures var t := Applied(s, input);
            && t.sessionId == s.sessionId && Ledger(t.sessionUsage, epoch)
            && MarkOf(t.sessionUsage) == Newer(MarkOf(s.sessionUsage), MarkOf(Offered(s, input)))
  {
    match input
    case Read(snapshot) => ReadIsNewer(s, snapshot, epoch);
    case Observed(event) =>
      EventUsage(s, event);
      hide ReduceRuntimeEvent; hide Absorbed; hide Takes; hide IsCompleted;
      if Counted(s, event).Some? { AbsorbedIsNewer(s.sessionUsage, s.runtimeWindow, Counted(s, event).value, !event.MessageCompleted?, epoch); }
  }

  function Offers(s: Session, inputs: seq<ConsoleInput>): seq<Option<Mark>>
    decreases |inputs|
  {
    if inputs == [] then [] else [MarkOf(Offered(s, inputs[0]))] + Offers(Applied(s, inputs[0]), inputs[1..])
  }

  function Newest(held: Option<Mark>, offers: seq<Option<Mark>>): Option<Mark>
    decreases |offers|
  {
    if offers == [] then held else Newest(Newer(held, offers[0]), offers[1..])
  }

  lemma {:induction false} FoldsToNewest(s: Session, inputs: seq<ConsoleInput>, epoch: string)
    requires Ledger(s.sessionUsage, epoch) && forall k :: 0 <= k < |inputs| ==> OfEpoch(s.sessionId, epoch, inputs[k])
    ensures MarkOf(After(Applied, s, inputs).sessionUsage) == Newest(MarkOf(s.sessionUsage), Offers(s, inputs))
    decreases |inputs|
  {
    hide ReduceRuntimeEvent; hide ApplySnapshot; hide Offered; hide OfEpoch; hide MarkOf; hide Newer;
    if inputs != [] {
      AfterFirst(Applied, s, inputs);
      AppliedIsNewer(s, inputs[0], epoch);
      var t := Applied(s, inputs[0]);
      forall k | 0 <= k < |inputs[1..]| ensures OfEpoch(t.sessionId, epoch, inputs[1..][k]) { assert inputs[1..][k] == inputs[k + 1]; }
      FoldsToNewest(t, inputs[1..], epoch);
      assert Offers(s, inputs)[1..] == Offers(t, inputs[1..]);
    }
  }

  /** The totals at each revision, as the Host's ledger has them. */
  predicate Agrees(book: nat -> Totals, m: Option<Mark>) {
    m.Some? ==> m.value.totals == book(m.value.revision)
  }

  lemma {:induction false} NewestIsHighest(held: Option<Mark>, offers: seq<Option<Mark>>, book: nat -> Totals)
    requires Agrees(book, held) && forall k :: 0 <= k < |offers| ==> Agrees(book, offers[k])
    ensures var last := Newest(held, offers);
            && Agrees(book, last)
            && (last == held || exists k :: 0 <= k < |offers| && last == offers[k])
            && (held.Some? ==> last.Some? && held.value.revision <= last.value.revision)
            && (forall k :: 0 <= k < |offers| && offers[k].Some? ==> last.Some? && offers[k].value.revision <= last.value.revision)
    decreases |offers|
  {
    if offers != [] {
      var next := Newer(held, offers[0]);
      NewestIsHighest(next, offers[1..], book);
      var last := Newest(held, offers);
      forall k | 0 <= k < |offers| && offers[k].Some? ensures last.Some? && offers[k].value.revision <= last.value.revision {
        if k > 0 { assert offers[1..][k - 1] == offers[k]; }
      }
      if last != next {
        var k :| 0 <= k < |offers[1..]| && last == offers[1..][k];
        assert last == offers[k + 1];
      }
    }
  }

  /**
   However the session's usages arrive, in whatever order and however often, by event or
   by snapshot: the reader ends with the totals of the highest revision, and its revision
   never went down on the way.
   */
  lemma UsageConverges(s: Session, inputs: seq<ConsoleInput>, epoch: string, book: nat -> Totals)
    requires Ledger(s.sessionUsage, epoch) && forall k :: 0 <= k < |inputs| ==> OfEpoch(s.sessionId, epoch, inputs[k])
    requires Agrees(book, MarkOf(s.sessionUsage))
    requires forall k :: 0 <= k < |Offers(s, inputs)| ==> Agrees(book, Offers(s, inputs)[k])
    ensures var last := MarkOf(After(Applied, s, inputs).sessionUsage);
            && (last == MarkOf(s.sessionUsage) || last in Offers(s, inputs))
            && (last.Some? ==> last.value.totals == book(last.value.revision))
            && (MarkOf(s.sessionUsage).Some? ==> last.Some? && MarkOf(s.sessionUsage).value.revision <= last.value.revision)
            && (forall m :: m in Offers(s, inputs) && m.Some? ==> last.Some? && m.value.revision <= last.value.revision)
  {
    hide MarkOf; hide Newest; hide OfEpoch; hide Ledger;
    FoldsToNewest(s, inputs, epoch);
    NewestIsHighest(MarkOf(s.sessionUsage), Offers(s, inputs), book);
  }

  // --------------------------------------------------- sums of run usages

  /** Usage of one run, outside any epoch. */
  predicate OfRun(u: Usage) {
    u.scope != SessionScope && u.epoch.None? && u.revision.None?
  }

  predicate Loose(held: Option<Usage>) {
    held.Some? ==> held.value.epoch.None? && held.value.revision.None?
  }

  /** What adds up: the counts, the cache reads where reported, and whether anything is missing. */
  datatype Sum = Sum(input: nat, output: nat, total: nat, cached: nat, incomplete: bool)

  const NoUsage := Sum(0, 0, 0, 0, false)

  function SumOf(u: Option<Usage>): Sum {
    if u.Some? then Sum(u.value.input, u.value.output, u.value.total, Count(u.value.cached), u.value.incomplete) else NoUsage
  }

  function Plus(a: Sum, b: Sum): Sum {
    Sum(a.input + b.input, a.output + b.output, a.total + b.total, a.cached + b.cached, a.incomplete || b.incomplete)
  }

  lemma AbsorbedAdds(held: Option<Usage>, window: Option<nat>, usage: Usage, allow: bool)
    requires Loose(held) && OfRun(usage)
    ensures Loose(Absorbed(held, window, usage, allow))
    ensures SumOf(Absorbed(held, window, usage, allow)) == Plus(SumOf(held), SumOf(Some(usage)))
  {
  }

  lemma CountedIsCarried(s: Session, event: RuntimeEvent)
    ensures Counted(s, event).Some? ==> Counted(s, event) == UsageOf(event)
  {
    hide Takes; hide IsCompleted;
  }

  lemma CountingAdds(held: Option<Usage>, window: Option<nat>, counted: Option<Usage>, allow: bool, after: Option<Usage>)
    requires Loose(held) && (counted.Some? ==> OfRun(counted.value))
    requires after == if counted.Some? then Absorbed(held, window, counted.value, allow) else held
    ensures Loose(after) && SumOf(after) == Plus(SumOf(held), SumOf(counted))
  {
    hide Absorbed; hide SumOf; hide Plus; hide Loose; hide OfRun;
    if counted.Some? {
      AbsorbedAdds(held, window, counted.value, allow);
    } else {
      NothingAdds(SumOf(held));
    }
  }

  lemma NothingAdds(sum: Sum)
    ensures Plus(sum, SumOf(None)) == sum
  {
  }

  lemma EventAdds(s: Session, event: RuntimeEvent)
    requires Loose(s.sessionUsage) && (UsageOf(event).Some? ==> OfRun(UsageOf(event).value))
    ensures Loose(ReduceRuntimeEvent(s, event, None).sessionUsage)
    ensures SumOf(ReduceRuntimeEvent(s, event, None).sessionUsage) == Plus(SumOf(s.sessionUsage), SumOf(Counted(s, event)))
  {
    hide ReduceRuntimeEvent; hide Absorbed; hide Counted; hide OfRun; hide UsageOf; hide SumOf; hide Plus; hide Loose;
    EventUsage(s, event);
    CountedIsCarried(s, event);
    CountingAdds(s.sessionUsage, s.runtimeWindow, Counted(s, event), !event.MessageCompleted?, ReduceRuntimeEvent(s, event, None).sessionUsage);
  }

  function Heard(s: Session, event: RuntimeEvent): Session {
    ReduceRuntimeEvent(s, event, None)
  }

  /** What each event counted when it came. */
  function Counts(s: Session, events: seq<RuntimeEvent>): seq<Option<Usage>>
    decreases |events|
  {
    if events == [] then [] else [Counted(s, events[0])] + Counts(ReduceRuntimeEvent(s, events[0], None), events[1..])
  }

  function Total(counts: seq<Option<Usage>>): Sum {
    if counts == [] then NoUsage else Plus(SumOf(counts[0]), Total(counts[1..]))
  }

  /** The session's totals are the sum of what was counted. */
  lemma {:induction false} TotalsAddUp(s: Session, events: seq<RuntimeEvent>)
    requires Loose(s.sessionUsage) && forall k :: 0 <= k < |events| && UsageOf(events[k]).Some? ==> OfRun(UsageOf(events[k]).value)
    ensures SumOf(After(Heard, s, events).sessionUsage) == Plus(SumOf(s.sessionUsage), Total(Counts(s, events)))
    decreases |events|
  {
    hide ReduceRuntimeEvent; hide Counted; hide UsageOf; hide OfRun; hide SumOf;
    if events != [] {
      AfterFirst(Heard, s, events);
      EventAdds(s, events[0]);
      var t := ReduceRuntimeEvent(s, events[0], None);
      forall k | 0 <= k < |events[1..]| && UsageOf(events[1..][k]).Some? ensures OfRun(UsageOf(events[1..][k]).value) { assert events[1..][k] == events[k + 1]; }
      TotalsAddUp(t, events[1..]);
      assert Counts(s, events)[1..] == Counts(t, events[1..]);
    }
  }

  // ------------------------------------------------ counted once, however often sent

  /** A message that is still streaming makes no calls. */
  predicate Tidy(t: seq<Entry>) {
    forall i :: 0 <= i < |t| ==> TidyEntry(t[i])
  }

  predicate TidyEntry(e: Entry) {
    e.Message? && e.streaming ==> e.calls == []
  }

  lemma UpsertCompleted(t: seq<Entry>, e: Entry, id: EntryId)
    requires (IsCompleted(t, id) && e.id != id) || (e.Message? && e.id == id && !e.streaming)
    ensures IsCompleted(Upsert(t, e), id)
  {
    var i := IndexOfMessage(t, id);
    var u := Upsert(t, e);
    if e.id == id {
      var j := IndexOf(t, id);
      assert u[j] == e && forall k :: 0 <= k < j ==> u[k].id != id;
      assert IndexOfMessage(u, id) == j;
    } else {
      assert u[i] == t[i] && forall k :: 0 <= k < i ==> !(u[k].Message? && u[k].id == id);
      assert IndexOfMessage(u, id) == i;
    }
  }

  lemma UpsertTidy(t: seq<Entry>, e: Entry)
    requires Tidy(t) && TidyEntry(e)
    ensures Tidy(Upsert(t, e))
  {
    hide TidyEntry;
  }

  /** A change of every entry that completes but never reopens, and adds no calls to a streaming one. */
  predicate Settles(t: seq<Entry>, f: Entry -> Entry) {
    forall i :: 0 <= i < |t| ==>
      && f(t[i]).id == t[i].id && f(t[i]).Message? == t[i].Message?
      && (t[i].Message? && !t[i].streaming ==> !f(t[i]).streaming)
      && (TidyEntry(t[i]) ==> TidyEntry(f(t[i])))
  }

  lemma MappedCompleted(t: seq<Entry>, f: Entry -> Entry, id: EntryId)
    requires Settles(t, f)
    ensures IsCompleted(t, id) ==> IsCompleted(Mapped(t, f), id)
    ensures Tidy(t) ==> Tidy(Mapped(t, f))
  {
    var i := IndexOfMessage(t, id);
    var u := Mapped(t, f);
    hide TidyEntry;
    if i < |t| {
      assert u[i] == f(t[i]) && forall k :: 0 <= k < i ==> u[k] == f(t[k]);
      assert IndexOfMessage(u, id) == i;
    }
  }

  lemma AppendedCompleted(s: Session, m: MessageInput, id: EntryId)
    ensures IsCompleted(s.timeline, id) ==> IsCompleted(Appended(s, m).timeline, id)
    ensures Tidy(s.timeline) ==> Tidy(Appended(s, m).timeline)
  {
    var i := IndexOfMessage(s.timeline, id);
    if i < |s.timeline| {
      var u := Appended(s, m).timeline;
      assert forall k :: 0 <= k <= i ==> u[k] == s.timeline[k];
      assert IndexOfMessage(u, id) == i;
    }
  }

  lemma {:induction false} AppendedAllCompleted(s: Session, messages: seq<MessageInput>, r: string, id: EntryId)
    ensures IsCompleted(s.timeline, id) ==> IsCompleted(AppendedAll(s, messages, r).timeline, id)
    ensures Tidy(s.timeline) ==> Tidy(AppendedAll(s, messages, r).timeline)
    decreases |messages|
  {
    hide IsCompleted; hide Tidy;
    if messages != [] {
      var m := messages[0].(request := if messages[0].request.Some? then messages[0].request else Some(r));
      AppendedCompleted(s, m, id);
      AppendedAllCompleted(Appended(s, m), messages[1..], r, id);
    }
  }

  lemma InterruptSettles(t: seq<Entry>)
    ensures Settles(t, InterruptCalls)
  {
    forall i | 0 <= i < |t| ensures TidyEntry(t[i]) ==> TidyEntry(InterruptCalls(t[i])) {}
  }

  lemma FinalizeSettles(t: seq<Entry>, r: string)
    ensures Settles(t, (e: Entry) => Finalized(e, r))
  {
  }

  lemma FinishCompleted(s: Session, r: string, messages: seq<MessageInput>, usage: UsageUpdate, preserve: bool, settle: bool, id: EntryId)
    ensures IsCompleted(s.timeline, id) ==> IsCompleted(FinishOwnedRun(s, r, messages, usage, preserve, settle).timeline, id)
    ensures Tidy(s.timeline) ==> Tidy(FinishOwnedRun(s, r, messages, usage, preserve, settle).timeline)
  {
    hide Mapped; hide AppendedAll; hide ApplyTokenUsage; hide IsCompleted; hide Tidy; hide Settles;
    if OwnsRun(s, r) {
      var stopped := if s.pendingInterrupt.None? then InterruptOpenCalls(s, r) else s;
      InterruptSettles(s.timeline);
      MappedCompleted(s.timeline, InterruptCalls, id);
      FinalizeSettles(stopped.timeline, r);
      MappedCompleted(stopped.timeline, (e: Entry) => Finalized(e, r), id);
      var ended := stopped.(
        timeline := if settle then Mapped(stopped.timeline, (e: Entry) => Finalized(e, r)) else stopped.timeline,
        activeRun := None,
        pendingInterrupt := if preserve then stopped.pendingInterrupt else None);
      AppendedAllCompleted(ended, messages, r, id);
      if usage.ApplyUsage? { UsageKeepsTimeline(AppendedAll(ended, messages, r), usage.usage, false); }
    }
  }

  lemma CompletionCompletes(s: Session, r: string, m: string, text: string, spent: Option<Usage>, id: EntryId)
    ensures (IsCompleted(s.timeline, id) || (Takes(s, r) && Named(m) == id)) ==>
              IsCompleted(CompleteMessage(s, r, m, text, spent, None).timeline, id)
    ensures Tidy(s.timeline) ==> Tidy(CompleteMessage(s, r, m, text, spent, None).timeline)
  {
    var e := Message(Named(m), Assistant, CompletedText(s.timeline, Named(m), text), [], false, Some(r));
    var t := s.(timeline := Upsert(s.timeline, e));
    if IsCompleted(s.timeline, id) || Named(m) == id { UpsertCompleted(s.timeline, e, id); }
    if Tidy(s.timeline) { UpsertTidy(s.timeline, e); }
    hide IsCompleted; hide Tidy; hide Upsert; hide FinishOwnedRun; hide ApplyTokenUsage; hide CompletedText; hide IndexOfMessage; hide HasRequest; hide HasRelease;
    if OwnsRun(s, r) {
      FinishCompleted(t, r, [], if spent.Some? then ApplyUsage(spent.value) else DropUsage, false, false, id);
    } else if spent.Some? {
      UsageKeepsTimeline(t, spent.value, false);
    }
  }

  lemma SettleCompleted(s: Session, callId: string, outcome: Outcome, id: EntryId)
    requires Tidy(s.timeline)
    ensures IsCompleted(s.timeline, id) ==> IsCompleted(SettleCall(s, callId, outcome).timeline, id)
    ensures Tidy(SettleCall(s, callId, outcome).timeline)
  {
    var i := First(s.timeline, (e: Entry) => MakesCall(e, callId), 0);
    if i < |s.timeline| {
      var e := Settled(s.timeline[i], callId, outcome);
      assert TidyEntry(s.timeline[i]) && TidyEntry(e) && !e.streaming;
      UpsertTidy(s.timeline, e);
      if IsCompleted(s.timeline, id) { UpsertCompleted(s.timeline, e, id); }
    }
  }

  lemma DeltaCompleted(s: Session, r: string, m: string, text: string, id: EntryId)
    ensures IsCompleted(s.timeline, id) ==> IsCompleted(AppendDelta(s, r, m, text, None).timeline, id)
    ensures Tidy(s.timeline) ==> Tidy(AppendDelta(s, r, m, text, None).timeline)
  {
    hide Tidy; hide Upsert; hide IndexOfMessage;
    var i := IndexOfMessage(s.timeline, Named(m));
    var e := Message(Named(m), Assistant, (if i < |s.timeline| then s.timeline[i].text else "") + text, [], true, Some(r));
    if Tidy(s.timeline) { UpsertTidy(s.timeline, e); }
    if IsCompleted(s.timeline, id) && e.id != id { UpsertCompleted(s.timeline, e, id); }
  }

  /** What is complete stays complete. */
  lemma EventCompleted(s: Session, event: RuntimeEvent, id: EntryId)
    requires Tidy(s.timeline) && id.Named?
    ensures Tidy(ReduceRuntimeEvent(s, event, None).timeline)
    ensures IsCompleted(s.timeline, id) ==> IsCompleted(ReduceRuntimeEvent(s, event, None).timeline, id)
  {
    hide IsCompleted; hide Tidy; hide FinishOwnedRun; hide ApplyTokenUsage; hide CompleteMessage; hide AppendDelta; hide SettleCall; hide Upsert;
    hide CallsOf; hide MergedDetail; hide HasOpenOperation; hide IndexOfMessage; hide Appended;
    match event
    case MessageDelta(r, m, text) => DeltaCompleted(s, r, m, text, id);
    case MessageCompleted(r, m, text, spent) => CompletionCompletes(s, r, m, text, spent, id);
    case ToolCallSettled(c, outcome) => SettleCompleted(s, c, outcome, id);
    case RunInterrupted(r, text) =>
      FinishCompleted(s, r, [MessageInput(None, System, if JsText.IsBlank(text) then "Run interrupted." else JsText.Trim(text), Some(r))], KeepUsage, false, true, id);
    case ErrorEvent(r, text) => FinishCompleted(s, r, [MessageInput(None, System, text, Some(r))], KeepUsage, true, true, id);
    case UsageUpdated(_, u) => UsageKeepsTimeline(s, u, true);
    case InterruptRequested(_, _, spent) => if spent.Some? { UsageKeepsTimeline(s, spent.value, true); }
    case RunStarted(r, input) => forall z: Session, m | z.timeline == s.timeline { AppendedCompleted(z, m, id); }
    case SystemNotice(_, _) => forall z: Session, m | z.timeline == s.timeline { AppendedCompleted(z, m, id); }
    case PlanUpdated(_, _) =>
    case _ => UpsertsCompleted(s.timeline, id);
  }

  lemma UpsertsCompleted(t: seq<Entry>, id: EntryId)
    requires Tidy(t)
    ensures forall e: Entry | e.id != id || (e.Message? && !e.streaming) ::
              (IsCompleted(t, id) ==> IsCompleted(Upsert(t, e), id)) && (TidyEntry(e) ==> Tidy(Upsert(t, e)))
  {
    hide IsCompleted; hide Tidy; hide Upsert; hide TidyEntry;
    forall e: Entry | e.id != id || (e.Message? && !e.streaming)
      ensures (IsCompleted(t, id) ==> IsCompleted(Upsert(t, e), id)) && (TidyEntry(e) ==> Tidy(Upsert(t, e)))
    {
      if IsCompleted(t, id) { UpsertCompleted(t, e, id); }
      if TidyEntry(e) { UpsertTidy(t, e); }
    }
  }

  /** A run is not taken up again but by its own start. */
  lemma StaysDisowned(s: Session, event: RuntimeEvent, r: string)
    requires !OwnsRun(s, r) && !(event.RunStarted? && event.request == r)
    ensures !OwnsRun(ReduceRuntimeEvent(s, event, None), r)
  {
    hide ApplyTokenUsage; hide Upsert; hide CallsOf; hide MergedDetail; hide HasOpenOperation; hide IndexOfMessage; hide Mapped; hide AppendedAll;
    AppendedAllKeepsRun(s);
    forall z: Session, u, allow { UsageKeepsTimeline(z, u, allow); }
  }

  lemma Disowns(s: Session, event: RuntimeEvent)
    requires event.MessageCompleted? || event.InterruptRequested?
    ensures !OwnsRun(ReduceRuntimeEvent(s, event, None), event.request)
  {
    if OwnsRun(s, event.request) {
      hide ApplyTokenUsage; hide Upsert; hide IndexOfMessage; hide Mapped; hide AppendedAll; hide CompletedText;
      AppendedAllKeepsRun(s);
      forall z: Session, u, allow { UsageKeepsTimeline(z, u, allow); }
    } else {
      StaysDisowned(s, event, event.request);
    }
  }

  predicate Restarts(events: seq<RuntimeEvent>, r: string) {
    exists k :: 0 <= k < |events| && events[k].RunStarted? && events[k].request == r
  }

  lemma {:induction false} LaterStays(s: Session, events: seq<RuntimeEvent>, r: string, id: EntryId)
    requires !OwnsRun(s, r) && !Restarts(events, r) && Tidy(s.timeline) && id.Named?
    ensures !OwnsRun(After(Heard, s, events), r)
    ensures IsCompleted(s.timeline, id) ==> IsCompleted(After(Heard, s, events).timeline, id)
    decreases |events|
  {
    hide IsCompleted; hide Tidy; hide ReduceRuntimeEvent; hide OwnsRun;
    if events != [] {
      assert !Restarts(events[1..], r) by {
        forall k | 0 <= k < |events[1..]| ensures !(events[1..][k].RunStarted? && events[1..][k].request == r) { assert events[1..][k] == events[k + 1]; }
      }
      assert !(events[0].RunStarted? && events[0].request == r);
      StaysDisowned(s, events[0], r);
      EventCompleted(s, events[0], id);
      AfterFirst(Heard, s, events);
      LaterStays(ReduceRuntimeEvent(s, events[0], None), events[1..], r, id);
    }
  }

  /**
   A completion or an interrupt that comes again counts nothing: not the completion of a
   message taken before, nor an interrupt, however much arrives in between, as long as its
   run is not started again.
   */
  lemma RedeliveryCountsNothing(s: Session, event: RuntimeEvent, between: seq<RuntimeEvent>, again: RuntimeEvent)
    requires Tidy(s.timeline)
    requires (event.InterruptRequested? && again.InterruptRequested?)
          || (event.MessageCompleted? && again.MessageCompleted? && event.messageId == again.messageId && Takes(s, event.request))
    requires event.request == again.request && !Restarts(between, event.request)
    requires again.MessageCompleted? && again.spent.Some? ==> OfRun(again.spent.value)
    ensures Counted(After(Heard, ReduceRuntimeEvent(s, event, None), between), again).None?
  {
    var t := ReduceRuntimeEvent(s, event, None);
    Disowns(s, event);
    var id := Named(if event.MessageCompleted? then event.messageId else "");
    EventCompleted(s, event, id);
    if event.MessageCompleted? { CompletionCompletes(s, event.request, event.messageId, event.text, event.spent, id); }
    hide ReduceRuntimeEvent; hide IsCompleted; hide Tidy;
    LaterStays(t, between, event.request, id);
  }

  lemma {:induction false} CountsAt(s: Session, events: seq<RuntimeEvent>, k: nat)
    requires k < |events|
    ensures |Counts(s, events)| == |events| && Counts(s, events)[k] == Counted(After(Heard, s, events[..k]), events[k])
    decreases |events|
  {
    hide ReduceRuntimeEvent; hide Counted;
    var t := ReduceRuntimeEvent(s, events[0], None);
    if k > 0 { AfterFirst(Heard, s, events[..k]); }
    if |events| > 1 { CountsAt(t, events[1..], if k > 0 then k - 1 else 0); }
    if k > 0 { assert events[1..][..k - 1] == events[..k][1..]; }
  }

  lemma {:induction false} TidyAfter(s: Session, events: seq<RuntimeEvent>)
    requires Tidy(s.timeline)
    ensures Tidy(After(Heard, s, events).timeline)
    decreases |events|
  {
    hide Tidy; hide ReduceRuntimeEvent;
    if events != [] {
      EventCompleted(s, events[0], Named(""));
      AfterFirst(Heard, s, events);
      TidyAfter(ReduceRuntimeEvent(s, events[0], None), events[1..]);
    }
  }

  predicate Redelivers(again: RuntimeEvent, event: RuntimeEvent) {
    || (event.InterruptRequested? && again.InterruptRequested? && event.request == again.request)
    || (event.MessageCompleted? && again.MessageCompleted? && event.request == again.request && event.messageId == again.messageId)
  }

  /**
   So the sum that the totals add up to runs over distinct completed messages and distinct
   interrupts: of two deliveries of one, the later counts nothing once the earlier counted.
   */
  lemma CountedOnce(s: Session, events: seq<RuntimeEvent>, j: nat, k: nat)
    requires Tidy(s.timeline) && j < k < |events| && Redelivers(events[k], events[j])
    requires UsageOf(events[k]).Some? ==> OfRun(UsageOf(events[k]).value)
    requires !Restarts(events[j + 1..k], events[j].request)
    requires |Counts(s, events)| == |events| && Counts(s, events)[j].Some?
    ensures Counts(s, events)[k].None?
  {
    hide ReduceRuntimeEvent; hide Counted; hide Tidy; hide Restarts; hide OfRun;
    CountsAt(s, events, j);
    CountsAt(s, events, k);
    TidyAfter(s, events[..j]);
    var before := After(Heard, s, events[..j]);
    assert events[..k] == events[..j] + ([events[j]] + events[j + 1..k]);
    AfterAppend(Heard, s, events[..j], [events[j]] + events[j + 1..k]);
    AfterFirst(Heard, before, [events[j]] + events[j + 1..k]);
    assert ([events[j]] + events[j + 1..k])[1..] == events[j + 1..k];
    CountedIsTaken(before, events[j]);
    RedeliveryCountsNothing(before, events[j], events[j + 1..k], events[k]);
  }

  lemma CountedIsTaken(s: Session, event: RuntimeEvent)
    requires Counted(s, event).Some?
    ensures event.MessageCompleted? ==> Takes(s, event.request)
  {
  }

  // ---------------------------------------- the sum over what was distinct

  /** What a usage was spent on: a message, the review of a run, or a report of its own. */
  datatype Item = ForMessage(request: string, messageId: string) | ForReview(request: string) | ForReport(k: nat)

  function ItemOf(event: RuntimeEvent, k: nat): Item {
    match event
    case MessageCompleted(r, m, _, _) => ForMessage(r, m)
    case InterruptRequested(r, _, _) => ForReview(r)
    case _ => ForReport(k)
  }

  datatype Line = Line(item: Item, usage: Usage)

  predicate Billed(bill: seq<Line>, item: Item) {
    exists i :: 0 <= i < |bill| && bill[i].item == item
  }

  /** The bill of the first n events: for each distinct item the usage of its first delivery that counted. */
  function Bill(events: seq<RuntimeEvent>, counts: seq<Option<Usage>>, n: nat): (bill: seq<Line>)
    requires n <= |events| == |counts|
    ensures forall i, j :: 0 <= i < j < |bill| ==> bill[i].item != bill[j].item
  {
    if n == 0 then []
    else
      var bill, item := Bill(events, counts, n - 1), ItemOf(events[n - 1], n - 1);
      if counts[n - 1].None? || Billed(bill, item) then bill else bill + [Line(item, counts[n - 1].value)]
  }

  function BillTotal(bill: seq<Line>): Sum {
    if bill == [] then NoUsage else Plus(BillTotal(bill[..|bill| - 1]), SumOf(Some(bill[|bill| - 1].usage)))
  }

  lemma {:induction false} BilledWasCounted(events: seq<RuntimeEvent>, counts: seq<Option<Usage>>, n: nat, item: Item) returns (j: nat)
    requires n <= |events| == |counts| && Billed(Bill(events, counts, n), item)
    ensures j < n && counts[j].Some? && ItemOf(events[j], j) == item
  {
    j := n - 1;
    var bill := Bill(events, counts, n - 1);
    if counts[n - 1].None? || ItemOf(events[n - 1], n - 1) != item {
      var i :| 0 <= i < |Bill(events, counts, n)| && Bill(events, counts, n)[i].item == item;
      assert Billed(bill, item) by { assert bill[i].item == item; }
      j := BilledWasCounted(events, counts, n - 1, item);
    } else if Billed(bill, item) {
      j := BilledWasCounted(events, counts, n - 1, item);
    }
  }

  lemma {:induction false} TotalNext(counts: seq<Option<Usage>>, u: Option<Usage>)
    ensures Total(counts + [u]) == Plus(Total(counts), SumOf(u))
  {
    if counts == [] {
      assert ([u])[1..] == [];
    } else {
      assert (counts + [u])[1..] == counts[1..] + [u];
      TotalNext(counts[1..], u);
    }
  }

  /** No run is started again once one of its messages was completed or its review requested. */
  predicate StartedOnce(events: seq<RuntimeEvent>) {
    forall j, k :: 0 <= j < k < |events| && (events[j].MessageCompleted? || events[j].InterruptRequested?) && events[k].RunStarted?
      ==> events[k].request != events[j].request
  }

  lemma {:induction false} BillIsTotal(s: Session, events: seq<RuntimeEvent>, counts: seq<Option<Usage>>, n: nat)
    requires Tidy(s.timeline) && StartedOnce(events) && counts == Counts(s, events) && n <= |events| == |counts|
    requires forall k :: 0 <= k < |events| && UsageOf(events[k]).Some? ==> OfRun(UsageOf(events[k]).value)
    ensures BillTotal(Bill(events, counts, n)) == Total(counts[..n])
  {
    hide Tidy; hide Counts; hide OfRun; hide UsageOf; hide SumOf; hide Plus;
    if n > 0 {
      var k := n - 1;
      var bill, item, last := Bill(events, counts, k), ItemOf(events[k], k), counts[k];
      BillIsTotal(s, events, counts, k);
      TotalNext(counts[..k], last);
      assert counts[..n] == counts[..k] + [last];
      if last.None? {
        NothingAdds(Total(counts[..k]));
      } else if Billed(bill, item) {
        var j := BilledWasCounted(events, counts, k, item);
        NoRestart(events, j, k);
        CountedOnce(s, events, j, k);
        assert false;
      } else {
        assert (bill + [Line(item, last.value)])[..|bill|] == bill;
      }
    }
  }

  lemma NoRestart(events: seq<RuntimeEvent>, j: nat, k: nat)
    requires StartedOnce(events) && j < k < |events| && (events[j].MessageCompleted? || events[j].InterruptRequested?)
    ensures !Restarts(events[j + 1..k], events[j].request)
  {
    var between := events[j + 1..k];
    forall i | 0 <= i < |between| ensures !(between[i].RunStarted? && between[i].request == events[j].request) {
      assert between[i] == events[j + 1 + i];
    }
  }

  /**
   However often completions and interrupts are delivered: with run usages the session's
   totals are what they were and, once for each distinct message and each run's review, the
   usage of its first delivery that counted.
   */
  lemma TotalsAreTheBill(s: Session, events: seq<RuntimeEvent>)
    requires Tidy(s.timeline) && Loose(s.sessionUsage) && StartedOnce(events)
    requires forall k :: 0 <= k < |events| && UsageOf(events[k]).Some? ==> OfRun(UsageOf(events[k]).value)
    ensures |Counts(s, events)| == |events|
    ensures SumOf(After(Heard, s, events).sessionUsage) == Plus(SumOf(s.sessionUsage), BillTotal(Bill(events, Counts(s, events), |events|)))
  {
    hide Tidy; hide Loose; hide OfRun; hide UsageOf; hide SumOf; hide Plus; hide Bill; hide BillTotal; hide Total; hide StartedOnce;
    var counts := Counts(s, events);
    if events != [] { CountsAt(s, events, 0); }
    hide Counts;
    TotalsAddUp(s, events);
    BillIsTotal(s, events, counts, |events|);
    assert counts[..|events|] == counts;
  }

  // ----------------------------------------------------- well-formed totals

  /** What the parser demands of a usage's cache counts. */
  predicate WellFormed(u: Usage) {
    && (u.eligible.Some? ==> u.eligible.value <= u.input)
    && (u.cached.Some? ==> u.cached.value <= u.input)
    && (u.cached.Some? && u.eligible.Some? ==> u.cached.value <= u.eligible.value)
  }

  /** Cache reads are reported together with what was eligible for them. */
  predicate Paired(u: Usage) {
    u.cached.None? || u.cached.value == 0 || u.eligible.Some?
  }

  predicate Sensible(u: Usage) {
    WellFormed(u) && Paired(u)
  }

  predicate ReportsCache(u: Option<Usage>) { u.Some? && u.value.cached.Some? }

  function CachedIn(u: Option<Usage>): nat { if u.Some? then Count(u.value.cached) else 0 }

  function EligibleIn(u: Option<Usage>): nat { if u.Some? then Count(u.value.eligible) else 0 }

  /** The cache reads of both are covered by what both report as eligible. */
  predicate Covered(held: Option<Usage>, usage: Usage) {
    ReportsCache(held) || usage.cached.Some? ==> CachedIn(held) + Count(usage.cached) <= EligibleIn(held) + Count(usage.eligible)
  }

  predicate WellHeld(held: Option<Usage>) { held.Some? ==> WellFormed(held.value) }

  predicate SensiblyHeld(held: Option<Usage>) { held.Some? ==> Sensible(held.value) }

  /** Exactly when a run's usage, added to totals that the parser takes, leaves totals that it takes. */
  lemma AccumulationStaysWellFormed(held: Option<Usage>, usage: Usage, window: Option<nat>)
    requires usage.scope != SessionScope && WellHeld(held) && WellFormed(usage)
    ensures WellFormed(Accumulated(held, usage, window)) <==> Covered(held, usage)
  {
  }

  /** Among totals that pair their cache counts, a usage fits all of them exactly when it pairs its own. */
  lemma PairedFitsAll(usage: Usage, window: Option<nat>)
    requires usage.scope != SessionScope && WellFormed(usage)
    ensures Paired(usage) <==> forall held: Option<Usage> | SensiblyHeld(held) :: Sensible(Accumulated(held, usage, window))
    ensures !Paired(usage) ==> !WellFormed(Accumulated(None, usage, window))
  {
    if !Paired(usage) {
      var held: Option<Usage> := None;
      assert !WellFormed(Accumulated(held, usage, window));
      assert !(forall held: Option<Usage> | SensiblyHeld(held) :: Sensible(Accumulated(held, usage, window)));
    }
  }

  predicate WellTotals(s: Session) { WellHeld(s.sessionUsage) }

  predicate SensibleTotals(s: Session) { SensiblyHeld(s.sessionUsage) }

  /** The usage and the totals an input brings have been through the parser. */
  predicate Parsed(input: ConsoleInput) {
    match input
    case Observed(event) => WellHeld(UsageOf(event))
    case Read(snapshot) => WellTotals(snapshot)
  }

  /** And they report cache reads only together with what was eligible for them. */
  predicate ParsedInPairs(input: ConsoleInput) {
    match input
    case Observed(event) => SensiblyHeld(UsageOf(event))
    case Read(snapshot) => SensibleTotals(snapshot)
  }

  /** An event that adds a run's usage whose cache reads, with those held, are not covered. */
  predicate Uncovers(s: Session, input: ConsoleInput) {
    input.Observed? && Counted(s, input.event).Some? &&
    var u := Counted(s, input.event).value;
    u.scope != SessionScope && !Stale(s.sessionUsage, u, !input.event.MessageCompleted?) && !Covered(s.sessionUsage, u)
  }

  lemma AbsorbedWell(held: Option<Usage>, window: Option<nat>, usage: Usage, allow: bool)
    requires WellHeld(held) && WellFormed(usage)
    ensures WellHeld(Absorbed(held, window, usage, allow))
       <==> usage.scope == SessionScope || Stale(held, usage, allow) || Covered(held, usage)
  {
    hide Stale;
  }

  lemma AbsorbedSensible(held: Option<Usage>, window: Option<nat>, usage: Usage, allow: bool)
    requires SensiblyHeld(held) && Sensible(usage)
    ensures SensiblyHeld(Absorbed(held, window, usage, allow))
  {
    hide Stale;
  }

  lemma SnapshotTotals(s: Session, snapshot: Session)
    ensures var t := ApplySnapshot(s, snapshot, Plain); t.sessionUsage == s.sessionUsage || t.sessionUsage == snapshot.sessionUsage
  {
    hide Spliced;
  }

  lemma AppliedWell(s: Session, input: ConsoleInput)
    requires WellTotals(s) && Parsed(input)
    ensures WellTotals(Applied(s, input)) <==> !Uncovers(s, input)
    ensures SensibleTotals(s) && ParsedInPairs(input) ==> SensibleTotals(Applied(s, input))
  {
    hide ReduceRuntimeEvent; hide ApplySnapshot; hide Absorbed; hide Counted; hide UsageOf; hide WellFormed; hide Covered; hide Stale; hide Paired;
    match input
    case Read(snapshot) => SnapshotTotals(s, snapshot);
    case Observed(event) =>
      EventUsage(s, event);
      CountedIsCarried(s, event);
      if Counted(s, event).Some? {
        AbsorbedWell(s.sessionUsage, s.runtimeWindow, Counted(s, event).value, !event.MessageCompleted?);
        if SensiblyHeld(s.sessionUsage) && Sensible(Counted(s, event).value) {
          AbsorbedSensible(s.sessionUsage, s.runtimeWindow, Counted(s, event).value, !event.MessageCompleted?);
        }
      }
  }

  /** Over every run of inputs that the parser takes: the totals stay such at every moment exactly if no event uncovers their cache reads. */
  lemma TotalsStayWellFormed(s: Session, inputs: seq<ConsoleInput>)
    requires WellTotals(s) && forall k :: 0 <= k < |inputs| ==> Parsed(inputs[k])
    ensures Always(Applied, WellTotals, s, inputs) <==> Unbroken(Applied, Uncovers, s, inputs)
  {
    hide WellTotals; hide Parsed; hide Applied; hide Uncovers;
    forall x, i | WellTotals(x) && Parsed(i) ensures WellTotals(Applied(x, i)) <==> !Uncovers(x, i) { AppliedWell(x, i); }
    AlwaysIsUnbroken(Applied, WellTotals, Parsed, Uncovers, s, inputs);
  }

  /** If every usage and every snapshot's totals pair their cache counts, of whatever scope, the totals do at every moment. */
  lemma TotalsStaySensible(s: Session, inputs: seq<ConsoleInput>)
    requires SensibleTotals(s) && forall k :: 0 <= k < |inputs| ==> ParsedInPairs(inputs[k])
    ensures Always(Applied, SensibleTotals, s, inputs)
  {
    forall x, i | SensibleTotals(x) && ParsedInPairs(i) ensures SensibleTotals(Applied(x, i)) {
      hide WellFormed; hide Paired; hide UsageOf;
      AppliedWell(x, i);
    }
    hide SensibleTotals; hide ParsedInPairs; hide Applied;
    KeptIsAlways(Applied, SensibleTotals, ParsedInPairs, s, inputs);
  }

  function Spent(scope: Scope, input: nat, cached: Option<nat>, eligible: Option<nat>): Usage {
    Usage(input, 0, input, cached, eligible, None, None, scope, None, None, false)
  }

  /** Session totals with cache reads but nothing eligible, and then a message that reports no cache at all. */
  const UnpairedTotals: seq<ConsoleInput> := [
    Observed(RunStarted("run", None)),
    Observed(UsageUpdated("run", Spent(SessionScope, 10, Some(5), None))),
    Observed(MessageCompleted("run", "message", "text", Some(Spent(RunScope, 3, None, None))))]

  /** Each of its usages goes through the parser, the last one even in pairs, and the totals do not. */
  lemma TotalsBreak()
    ensures forall k :: 0 <= k < |UnpairedTotals| ==> Parsed(UnpairedTotals[k])
    ensures ParsedInPairs(UnpairedTotals[2])
    ensures !WellTotals(After(Applied, EmptySession("session"), UnpairedTotals))
  {
    var a, b, c := UnpairedTotals[0], UnpairedTotals[1], UnpairedTotals[2];
    var s := EmptySession("session");
    TotalsUnpaired();
    AfterNext(Applied, s, [], a);
    AfterNext(Applied, s, [a], b);
    AfterNext(Applied, s, [a, b], c);
    hide Applied;
    assert [] + [a] == [a] && [a] + [b] == [a, b] && [a, b] + [c] == UnpairedTotals;
    AppliedWell(Applied(Applied(s, a), b), c);
  }

  lemma TotalsUnpaired()
    ensures var v := Applied(Applied(EmptySession("session"), UnpairedTotals[0]), UnpairedTotals[1]);
            v.sessionUsage == Some(Spent(SessionScope, 10, Some(5), None)) && WellTotals(v) && Uncovers(v, UnpairedTotals[2])
  {
    var t := Begun(EmptySession("session"), "run");
    assert Applied(EmptySession("session"), UnpairedTotals[0]) == t;
    assert Applied(t, UnpairedTotals[1]) == ApplyTokenUsage(t, Spent(SessionScope, 10, Some(5), None), true);
  }

  /** A usage that does not pair its cache counts may still fit the totals it is added to. */
  lemma UnpairedMayFit(window: Option<nat>)
    ensures var held, usage := Spent(SessionScope, 10, Some(0), Some(10)), Spent(RunScope, 5, Some(3), None);
            Sensible(held) && WellFormed(usage) && !Paired(usage) && Sensible(Accumulated(Some(held), usage, window))
  {
  }
}

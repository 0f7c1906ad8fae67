/** The order of a timeline, and the text that streams into it. */
module AgentSessionTimeline {
  import opened AgentSession
  import opened History
  import opened Options
  import JsText

  // ------------------------------------------------------- ids keep their order

  /** An entry whose id is known replaces the first of that id where it stands; another one comes last. */
  lemma UpsertKeepsIds(t: seq<Entry>, e: Entry)
    ensures Ids(Upsert(t, e)) == if e.id in Ids(t) then Ids(t) else Ids(t) + [e.id]
    ensures exists k :: 0 <= k < |Upsert(t, e)| && Upsert(t, e)[k] == e && e.id !in Ids(t)[..k]
                    && forall i :: 0 <= i < |t| && i != k ==> Upsert(t, e)[i] == t[i]
  {
    var k := IndexOf(t, e.id);
    assert Upsert(t, e)[k] == e;
    assert forall i :: 0 <= i < |t| ==> Ids(t)[i] == t[i].id;
    if k < |t| { assert Ids(t)[k] == e.id; }
  }

  lemma UpsertOnlyAdds(t: seq<Entry>, e: Entry)
    ensures Ids(t) <= Ids(Upsert(t, e))
  {
    UpsertKeepsIds(t, e);
    hide Ids; hide Upsert;
  }

  lemma MappedKeepsIds(t: seq<Entry>, f: Entry -> Entry)
    requires forall e :: f(e).id == e.id
    ensures Ids(Mapped(t, f)) == Ids(t)
  {
  }

  lemma AppendedKeepsIds(s: Session, m: MessageInput)
    ensures Ids(s.timeline) <= Ids(Appended(s, m).timeline)
  {
  }

  lemma {:induction false} AppendedAllKeepsIds(s: Session, messages: seq<MessageInput>, request: string)
    ensures Ids(s.timeline) <= Ids(AppendedAll(s, messages, request).timeline)
    decreases |messages|
  {
    if messages != [] {
      var m := messages[0].(request := if messages[0].request.Some? then messages[0].request else Some(request));
      AppendedKeepsIds(s, m);
      AppendedAllKeepsIds(Appended(s, m), messages[1..], request);
    }
  }

  lemma UsageKeepsTimeline(s: Session, usage: Usage, allow: bool)
    ensures ApplyTokenUsage(s, usage, allow).timeline == s.timeline
    ensures ApplyTokenUsage(s, usage, allow).activeRun == s.activeRun
    ensures ApplyTokenUsage(s, usage, allow).pendingInterrupt == s.pendingInterrupt
    ensures ApplyTokenUsage(s, usage, allow).sessionId == s.sessionId
  {
  }

  lemma FinishKeepsIds(s: Session, request: string, messages: seq<MessageInput>, usage: UsageUpdate, preserve: bool, settle: bool)
    ensures Ids(s.timeline) <= Ids(FinishOwnedRun(s, request, messages, usage, preserve, settle).timeline)
  {
    if OwnsRun(s, request) {
      MappedKeepsIds(s.timeline, InterruptCalls);
      var stopped := if s.pendingInterrupt.None? then InterruptOpenCalls(s, request) else s;
      MappedKeepsIds(stopped.timeline, (e: Entry) => Finalized(e, request));
      var ended := stopped.(
        timeline := if settle then Mapped(stopped.timeline, (e: Entry) => Finalized(e, request)) else stopped.timeline,
        activeRun := None,
        pendingInterrupt := if preserve then stopped.pendingInterrupt else None);
      AppendedAllKeepsIds(ended, messages, request);
      if usage.ApplyUsage? { UsageKeepsTimeline(AppendedAll(ended, messages, request), usage.usage, false); }
    }
  }

  /** A runtime event only adds entries at the end; it never removes one or changes their order. */
  lemma EventKeepsIds(s: Session, event: RuntimeEvent, message: Option<MessageInput>)
    ensures Ids(s.timeline) <= Ids(ReduceRuntimeEvent(s, event, message).timeline)
  {
    hide Ids; hide Upsert; hide FinishOwnedRun; hide ApplyTokenUsage; hide Appended; hide IndexOfMessage; hide CallsOf; hide MergedDetail;
    assert Ids(s.timeline) <= Ids(s.timeline);
    forall t: Session, u, allow ensures ApplyTokenUsage(t, u, allow).timeline == t.timeline { UsageKeepsTimeline(t, u, allow); }
    forall e { UpsertOnlyAdds(s.timeline, e); }
    forall t: Session, m { AppendedKeepsIds(t, m); }
    forall t: Session, r, ms, u, p, f { FinishKeepsIds(t, r, ms, u, p, f); }
  }

  // ------------------------------------------- what changes an entry, and what does not

  /** The timeline has this entry once, and no other of its id; or none of that id. */
  ghost predicate Holds(t: seq<Entry>, id: EntryId, e: Option<Entry>) {
    if e.None? then forall j :: 0 <= j < |t| ==> t[j].id != id
    else
      && e.value.id == id
      && (exists i :: 0 <= i < |t| && t[i] == e.value)
      && forall j :: 0 <= j < |t| && t[j].id == id ==> t[j] == e.value && j == IndexOf(t, id)
  }

  predicate Callless(e: Option<Entry>) {
    e.Some? && e.value.Message? ==> e.value.calls == []
  }

  /** The entry an event is addressed to, by the id it brings or stands for. */
  predicate Names(event: RuntimeEvent, message: Option<MessageInput>, id: EntryId) {
    match event
    case MessageDelta(_, m, _) => IdOr(message, Named(m)) == id
    case MessageCompleted(_, m, _, _) => IdOr(message, Named(m)) == id
    case MessageToolCalls(_, m, _, _) => Named(m) == id
    case SystemNotice(_, _) => message.Some? && message.value.id == Some(id)
    case ErrorEvent(_, _) => message.Some? && message.value.id == Some(id)
    case OperationEvent(r, key, _, _) => OperationId(r, key) == id
    case SubagentCompleted(r, n, source, _) => SubagentId(r, n, JsText.Trim(source)) == id
    case _ => false
  }

  lemma UpsertOther(t: seq<Entry>, x: Entry, id: EntryId, e: Option<Entry>)
    requires Holds(t, id, e) && x.id != id
    ensures Holds(Upsert(t, x), id, e)
  {
    if e.Some? {
      var i := IndexOf(t, id);
      assert Upsert(t, x)[i] == t[i];
    }
  }

  lemma UpsertOwn(t: seq<Entry>, x: Entry, e: Option<Entry>)
    requires Holds(t, x.id, e)
    ensures Holds(Upsert(t, x), x.id, Some(x))
  {
    var i := IndexOf(t, x.id);
    assert Upsert(t, x)[i] == x;
    assert forall j :: 0 <= j < |Upsert(t, x)| && j != i ==> Upsert(t, x)[j].id != x.id;
  }

  lemma AppendedOther(s: Session, m: MessageInput, id: EntryId, e: Option<Entry>)
    requires Holds(s.timeline, id, e) && !id.Counted? && m.id != Some(id)
    ensures Holds(Appended(s, m).timeline, id, e)
  {
    if e.Some? {
      var i := IndexOf(s.timeline, id);
      assert Appended(s, m).timeline[i] == s.timeline[i];
    }
  }

  lemma FoundMessage(t: seq<Entry>, id: EntryId, e: Option<Entry>)
    requires Holds(t, id, e) && (e.Some? ==> e.value.Message?)
    ensures e.None? ==> IndexOfMessage(t, id) == |t|
    ensures e.Some? ==> IndexOfMessage(t, id) < |t| && t[IndexOfMessage(t, id)] == e.value
  {
  }

  lemma SettleOther(s: Session, callId: string, outcome: Outcome, id: EntryId, e: Option<Entry>)
    requires Holds(s.timeline, id, e) && Callless(e)
    ensures Holds(SettleCall(s, callId, outcome).timeline, id, e)
  {
    var i := First(s.timeline, (x: Entry) => MakesCall(x, callId), 0);
    if i < |s.timeline| {
      assert s.timeline[i].id != id;
      UpsertOther(s.timeline, Settled(s.timeline[i], callId, outcome), id, e);
    }
  }

  lemma FinishDisowns(s: Session, request: string, messages: seq<MessageInput>, usage: UsageUpdate, preserve: bool, settle: bool)
    requires OwnsRun(s, request)
    ensures FinishOwnedRun(s, request, messages, usage, preserve, settle).activeRun.None?
  {
    AppendedAllKeepsRun(s);
    hide AppendedAll; hide Appended; hide ApplyTokenUsage; hide Mapped;
    forall t: Session, u, allow { UsageKeepsTimeline(t, u, allow); }
  }

  lemma AppendedAllKeepsRun(s: Session)
    ensures forall t: Session, ms, r :: AppendedAll(t, ms, r).activeRun == t.activeRun && AppendedAll(t, ms, r).pendingInterrupt == t.pendingInterrupt
  {
    forall t: Session, ms, r { AppendedAllKeepsOne(t, ms, r); }
  }

  lemma {:induction false} AppendedAllKeepsOne(s: Session, messages: seq<MessageInput>, request: string)
    ensures AppendedAll(s, messages, request).activeRun == s.activeRun
    ensures AppendedAll(s, messages, request).pendingInterrupt == s.pendingInterrupt
    decreases |messages|
  {
    if messages != [] {
      var m := messages[0].(request := if messages[0].request.Some? then messages[0].request else Some(request));
      AppendedAllKeepsOne(Appended(s, m), messages[1..], request);
    }
  }

  lemma DeltaOther(s: Session, q: string, m: string, token: string, message: Option<MessageInput>, id: EntryId, e: Option<Entry>)
    requires Holds(s.timeline, id, e) && IdOr(message, Named(m)) != id
    ensures Holds(AppendDelta(s, q, m, token, message).timeline, id, e)
  {
    hide Holds; hide Upsert; hide IndexOfMessage;
    var target := IdOr(message, Named(m));
    var i := IndexOfMessage(s.timeline, target);
    var previous := if i < |s.timeline| then s.timeline[i].text else "";
    UpsertOther(s.timeline, Message(target, Assistant, previous + token, [], true, Some(q)), id, e);
  }

  lemma CompletionOther(s: Session, q: string, m: string, t: string, u: Option<Usage>, message: Option<MessageInput>, r: string, id: EntryId, e: Option<Entry>)
    requires OwnsRun(s, r) && Holds(s.timeline, id, e) && IdOr(message, Named(m)) != id
    requires OwnsRun(CompleteMessage(s, q, m, t, u, message), r)
    ensures Holds(CompleteMessage(s, q, m, t, u, message).timeline, id, e)
  {
    hide Holds; hide Upsert; hide FinishOwnedRun; hide ApplyTokenUsage; hide CompletedText; hide IndexOfMessage; hide HasRequest; hide HasRelease;
    var target := IdOr(message, Named(m));
    var x := Message(target, Assistant, CompletedText(s.timeline, target, t), [], false, Some(q));
    var z := s.(timeline := Upsert(s.timeline, x));
    UpsertOther(s.timeline, x, id, e);
    if q == r {
      FinishDisowns(z, q, [], if u.Some? then ApplyUsage(u.value) else DropUsage, false, false);
    } else if u.Some? {
      UsageKeepsTimeline(z, u.value, false);
    }
  }

  lemma ToolCallsOther(s: Session, q: string, m: string, t: string, calls: seq<(string, string)>, id: EntryId, e: Option<Entry>)
    requires Holds(s.timeline, id, e) && Named(m) != id
    ensures Holds(AppendToolCalls(s, q, m, t, calls).timeline, id, e)
  {
    hide Holds; hide Upsert; hide CallsOf; hide IndexOfMessage;
    forall made { UpsertOther(s.timeline, Message(Named(m), Assistant, t, made, false, Some(q)), id, e); }
  }

  lemma OperationOther(s: Session, q: string, key: string, phase: Phase, info: OperationInfo, id: EntryId, e: Option<Entry>)
    requires Holds(s.timeline, id, e) && OperationId(q, key) != id
    ensures Holds(ApplyOperation(s, q, key, phase, info).timeline, id, e)
  {
    hide Holds; hide Upsert; hide MergedDetail; hide HasOpenOperation;
    forall detail { UpsertOther(s.timeline, Operation(OperationId(q, key), q, phase, detail), id, e); }
  }

  lemma SubagentOther(s: Session, q: string, n: string, source: string, said: string, id: EntryId, e: Option<Entry>)
    requires Holds(s.timeline, id, e) && SubagentId(q, n, JsText.Trim(source)) != id
    ensures Holds(AppendSubagent(s, q, n, source, said).timeline, id, e)
  {
    hide Holds; hide Upsert;
    UpsertOther(s.timeline, Message(SubagentId(q, n, JsText.Trim(source)), Subagent, said, [], false, Some(q)), id, e);
  }

  lemma NoticeOther(s: Session, q: string, said: string, message: Option<MessageInput>, id: EntryId, e: Option<Entry>)
    requires Holds(s.timeline, id, e) && !id.Counted? && !(message.Some? && message.value.id == Some(id))
    ensures Holds(AppendNotice(s, q, said, message).timeline, id, e)
  {
    hide Holds;
    forall m: MessageInput | m.id != Some(id) { AppendedOther(s.(pendingInterrupt := None), m, id, e); }
  }

  lemma EndOther(s: Session, q: string, messages: seq<MessageInput>, preserve: bool, r: string, id: EntryId, e: Option<Entry>)
    requires OwnsRun(s, r) && Holds(s.timeline, id, e)
    requires OwnsRun(FinishOwnedRun(s, q, messages, KeepUsage, preserve, true), r)
    ensures Holds(FinishOwnedRun(s, q, messages, KeepUsage, preserve, true).timeline, id, e)
  {
    if q == r {
      FinishDisowns(s, q, messages, KeepUsage, preserve, true);
    }
  }

  lemma StartedOther(s: Session, q: string, input: Option<string>, r: string)
    requires OwnsRun(s, r) && OwnsRun(StartRun(s, q, input), r)
    ensures StartRun(s, q, input) == s
  {
  }

  /** While a run goes on, an entry without calls is changed by nothing but the events addressed to it. */
  lemma EventOther(s: Session, event: RuntimeEvent, message: Option<MessageInput>, r: string, id: EntryId, e: Option<Entry>)
    requires OwnsRun(s, r) && OwnsRun(ReduceRuntimeEvent(s, event, message), r)
    requires !id.Counted? && !Names(event, message, id) && Holds(s.timeline, id, e) && Callless(e)
    ensures Holds(ReduceRuntimeEvent(s, event, message).timeline, id, e)
  {
    hide Holds; hide FinishOwnedRun; hide ApplyTokenUsage; hide Appended; hide AppendDelta; hide AppendToolCalls;
    hide CompleteMessage; hide SettleCall; hide ApplyOperation; hide AppendNotice; hide AppendSubagent;
    match event
    case MessageDelta(q, m, token) => DeltaOther(s, q, m, token, message, id, e);
    case MessageCompleted(q, m, t, u) => CompletionOther(s, q, m, t, u, message, r, id, e);
    case MessageToolCalls(q, m, t, calls) => ToolCallsOther(s, q, m, t, calls, id, e);
    case ToolCallSettled(c, outcome) => SettleOther(s, c, outcome, id, e);
    case OperationEvent(q, key, phase, info) => OperationOther(s, q, key, phase, info, id, e);
    case SubagentCompleted(q, n, source, said) => SubagentOther(s, q, n, source, said, id, e);
    case SystemNotice(q, said) => NoticeOther(s, q, said, message, id, e);
    case RunInterrupted(q, said) =>
      var m := MessageInput(None, System, if JsText.IsBlank(said) then "Run interrupted." else JsText.Trim(said), Some(q));
      EndOther(s, q, [m], false, r, id, e);
    case ErrorEvent(q, said) =>
      var m := MessageInput(if message.Some? then message.value.id else None, System,
                            if message.Some? then message.value.text else said, Some(q));
      EndOther(s, q, [m], true, r, id, e);
    case RunStarted(q, input) => StartedOther(s, q, input, r);
    case UsageUpdated(_, u) => UsageKeepsTimeline(s, u, true);
    case InterruptRequested(q, i, u) =>
    case PlanUpdated(_, _) =>
  }

  // ----------------------------------------------------------- streaming text

  /** The message that streams a text, once there is any. */
  function StreamingEntry(id: EntryId, r: string, text: string): Option<Entry> {
    if text == "" then None else Some(Message(id, Assistant, text, [], true, Some(r)))
  }

  /** What an event streams into a message of run `r`. */
  function Token(event: RuntimeEvent, message: Option<MessageInput>, r: string, id: EntryId): string {
    if event.MessageDelta? && event.request == r && IdOr(message, Named(event.messageId)) == id then event.text else ""
  }

  lemma DeltaStreams(s: Session, q: string, m: string, token: string, message: Option<MessageInput>, r: string, id: EntryId, text: string)
    requires OwnsRun(s, r) && Holds(s.timeline, id, StreamingEntry(id, r, text)) && IdOr(message, Named(m)) == id
    ensures Holds(AppendDelta(s, q, m, token, message).timeline, id,
                  StreamingEntry(id, r, text + Token(MessageDelta(q, m, token), message, r, id)))
  {
    assert text + "" == text;
    FoundMessage(s.timeline, id, StreamingEntry(id, r, text));
    hide Holds; hide Upsert; hide IndexOfMessage;
    if token != "" && q == r {
      UpsertOwn(s.timeline, Message(id, Assistant, text + token, [], true, Some(r)), StreamingEntry(id, r, text));
    }
  }

  lemma EventStreams(s: Session, event: RuntimeEvent, message: Option<MessageInput>, r: string, id: EntryId, text: string)
    requires OwnsRun(s, r) && OwnsRun(ReduceRuntimeEvent(s, event, message), r)
    requires id.Named? && (Names(event, message, id) ==> event.MessageDelta?)
    requires Holds(s.timeline, id, StreamingEntry(id, r, text))
    ensures Holds(ReduceRuntimeEvent(s, event, message).timeline, id, StreamingEntry(id, r, text + Token(event, message, r, id)))
  {
    assert text + "" == text;
    if Names(event, message, id) {
      DeltaStreams(s, event.request, event.messageId, event.text, message, r, id, text);
    } else {
      hide Holds; hide ReduceRuntimeEvent;
      EventOther(s, event, message, r, id, StreamingEntry(id, r, text));
    }
  }

  type Observed = (RuntimeEvent, Option<MessageInput>)

  function Observe(s: Session, e: Observed): Session {
    ReduceRuntimeEvent(s, e.0, e.1)
  }

  /** The reader follows run `r` through all of these events. */
  predicate OwnedThroughout(s: Session, events: seq<Observed>, r: string)
    decreases |events|
  {
    OwnsRun(s, r) && (events != [] ==> OwnedThroughout(ReduceRuntimeEvent(s, events[0].0, events[0].1), events[1..], r))
  }

  function Tokens(events: seq<Observed>, r: string, id: EntryId): string
    decreases |events|
  {
    if events == [] then "" else Token(events[0].0, events[0].1, r, id) + Tokens(events[1..], r, id)
  }

  /** Ids of different kinds do not clash: a message is addressed by its deltas only, an operation by its reports. */
  predicate OwnKind(event: RuntimeEvent, id: EntryId) {
    if id.Named? then event.MessageDelta? else event.OperationEvent?
  }

  predicate OnlyOwn(events: seq<Observed>, id: EntryId) {
    forall k :: 0 <= k < |events| && Names(events[k].0, events[k].1, id) ==> OwnKind(events[k].0, id)
  }

  lemma OnlyOwnLater(events: seq<Observed>, id: EntryId)
    requires events != [] && OnlyOwn(events, id)
    ensures OnlyOwn(events[1..], id)
  {
    hide Names;
    forall k | 0 <= k < |events[1..]| && Names(events[1..][k].0, events[1..][k].1, id) ensures OwnKind(events[1..][k].0, id) {
      assert events[1..][k] == events[k + 1];
    }
  }

  /**
   Whatever other events come in between, a streaming message is exactly its own deltas,
   put together in the order they arrived.
   */
  lemma {:induction false} TextIsItsDeltas(s: Session, events: seq<Observed>, r: string, id: EntryId, text: string)
    requires OwnedThroughout(s, events, r) && OnlyOwn(events, id) && id.Named?
    requires Holds(s.timeline, id, StreamingEntry(id, r, text))
    ensures Holds(After(Observe, s, events).timeline, id, StreamingEntry(id, r, text + Tokens(events, r, id)))
    decreases |events|
  {
    hide Holds; hide Token; hide ReduceRuntimeEvent;
    if events == [] {
      assert text + "" == text;
    } else {
      AfterFirst(Observe, s, events);
      var (event, message) := events[0];
      assert Names(event, message, id) ==> OwnKind(event, id);
      EventStreams(s, event, message, r, id, text);
      var next := text + Token(event, message, r, id);
      OnlyOwnLater(events, id);
      TextIsItsDeltas(ReduceRuntimeEvent(s, event, message), events[1..], r, id, next);
      assert next + Tokens(events[1..], r, id) == text + Tokens(events, r, id);
    }
  }

  /** In particular, a message nobody had heard of before. */
  lemma NewMessageText(s: Session, events: seq<Observed>, r: string, id: EntryId)
    requires OwnedThroughout(s, events, r) && OnlyOwn(events, id) && id.Named?
    requires id !in Ids(s.timeline) && Tokens(events, r, id) != ""
    ensures exists i :: 0 <= i < |After(Observe, s, events).timeline|
              && After(Observe, s, events).timeline[i] == Message(id, Assistant, Tokens(events, r, id), [], true, Some(r))
  {
    assert Holds(s.timeline, id, StreamingEntry(id, r, "")) by {
      forall j | 0 <= j < |s.timeline| ensures s.timeline[j].id != id { assert Ids(s.timeline)[j] == s.timeline[j].id; }
    }
    TextIsItsDeltas(s, events, r, id, "");
    assert "" + Tokens(events, r, id) == Tokens(events, r, id);
  }

  // -------------------------------------------------------------- operations

  /** What an operation's entry says after all of its events. */
  function DetailAfter(infos: seq<OperationInfo>): Option<Detail> {
    if infos == [] then None else Some(MergedDetail(infos[|infos| - 1], DetailAfter(infos[..|infos| - 1])))
  }

  /** Where something was last said: the place of the last event that meets a test, or none. */
  predicate LastSaid(infos: seq<OperationInfo>, said: OperationInfo -> Option<string>, value: Option<string>) {
    if value.None? then forall k :: 0 <= k < |infos| ==> said(infos[k]).None?
    else exists k :: 0 <= k < |infos| && said(infos[k]) == value && forall j :: k < j < |infos| ==> said(infos[j]).None?
  }

  lemma LastSaidNext(infos: seq<OperationInfo>, info: OperationInfo, said: OperationInfo -> Option<string>, before: Option<string>)
    requires LastSaid(infos, said, before)
    ensures LastSaid(infos + [info], said, if said(info).Some? then said(info) else before)
  {
    var all := infos + [info];
    assert all[|infos|] == info;
    if said(info).None? && before.Some? {
      var k :| 0 <= k < |infos| && said(infos[k]) == before && forall j :: k < j < |infos| ==> said(infos[j]).None?;
      assert said(all[k]) == before;
      assert forall j :: k < j < |all| ==> said(all[j]).None?;
    }
  }

  /**
   An operation keeps what its events said last: a later event that leaves the title, the
   target or the summary out does not erase it. Never given a title, it has its first kind.
   */
  lemma {:induction false} OperationKeepsLatest(infos: seq<OperationInfo>)
    requires infos != []
    ensures DetailAfter(infos).Some?
    ensures LastSaid(infos, (i: OperationInfo) => i.target, DetailAfter(infos).value.target)
    ensures LastSaid(infos, (i: OperationInfo) => i.summary, DetailAfter(infos).value.summary)
    ensures if (forall k :: 0 <= k < |infos| ==> infos[k].title.None?) then DetailAfter(infos).value.title == infos[0].kind
            else LastSaid(infos, (i: OperationInfo) => i.title, Some(DetailAfter(infos).value.title))
    ensures DetailAfter(infos).value.kind == infos[|infos| - 1].kind
  {
    var front, last := infos[..|infos| - 1], infos[|infos| - 1];
    assert front + [last] == infos;
    if front == [] {
      LastSaidNext([], last, (i: OperationInfo) => i.target, None);
      LastSaidNext([], last, (i: OperationInfo) => i.summary, None);
      LastSaidNext([], last, (i: OperationInfo) => i.title, None);
    } else {
      OperationKeepsLatest(front);
      LastSaidNext(front, last, (i: OperationInfo) => i.target, DetailAfter(front).value.target);
      LastSaidNext(front, last, (i: OperationInfo) => i.summary, DetailAfter(front).value.summary);
      if forall k :: 0 <= k < |front| ==> front[k].title.None? {
        LastSaidNext(front, last, (i: OperationInfo) => i.title, None);
      } else {
        LastSaidNext(front, last, (i: OperationInfo) => i.title, Some(DetailAfter(front).value.title));
      }
      hide LastSaid;
    }
  }

  datatype Report = Report(phase: Phase, info: OperationInfo)

  /** The entry of an operation after its reports. */
  function Reported(r: string, key: string, reports: seq<Report>): Option<Entry> {
    if reports == [] then None
    else Some(Operation(OperationId(r, key), r, reports[|reports| - 1].phase,
                        DetailAfter(InfosOf(reports)).value))
  }

  function InfosOf(reports: seq<Report>): (infos: seq<OperationInfo>)
    ensures |infos| == |reports|
  {
    seq(|reports|, i requires 0 <= i < |reports| => reports[i].info)
  }

  function ReportsOf(events: seq<Observed>, r: string, key: string): seq<Report>
    decreases |events|
  {
    if events == [] then []
    else
      var e := events[0].0;
      (if e.OperationEvent? && e.request == r && e.key == key then [Report(e.phase, e.info)] else []) + ReportsOf(events[1..], r, key)
  }

  lemma ReportedNext(r: string, key: string, reports: seq<Report>, phase: Phase, info: OperationInfo)
    ensures Reported(r, key, reports + [Report(phase, info)])
         == Some(Operation(OperationId(r, key), r, phase, MergedDetail(info, if reports == [] then None else Some(Reported(r, key, reports).value.detail))))
  {
    var all := reports + [Report(phase, info)];
    assert InfosOf(all)[..|all| - 1] == InfosOf(reports);
    assert InfosOf(all)[|all| - 1] == info;
    assert DetailAfter(InfosOf(all)) == Some(MergedDetail(info, DetailAfter(InfosOf(reports))));
    assert reports != [] ==> DetailAfter(InfosOf(reports)).Some?;
  }

  lemma OperationReports(s: Session, r: string, key: string, phase: Phase, info: OperationInfo, reports: seq<Report>)
    requires OwnsRun(s, r) && Holds(s.timeline, OperationId(r, key), Reported(r, key, reports))
    ensures Holds(ApplyOperation(s, r, key, phase, info).timeline, OperationId(r, key), Reported(r, key, reports + [Report(phase, info)]))
  {
    var id := OperationId(r, key);
    var i := First(s.timeline, (e: Entry) => e.Operation? && e.id == id, 0);
    assert reports == [] ==> i == |s.timeline|;
    assert reports != [] ==> i < |s.timeline| && s.timeline[i] == Reported(r, key, reports).value;
    ReportedNext(r, key, reports, phase, info);
    hide Holds; hide Upsert; hide MergedDetail; hide HasOpenOperation; hide DetailAfter;
    UpsertOwn(s.timeline, Reported(r, key, reports + [Report(phase, info)]).value, Reported(r, key, reports));
  }

  /** Likewise an operation's entry is exactly its own reports, whatever comes in between. */
  lemma {:induction false} OperationIsItsReports(s: Session, events: seq<Observed>, r: string, key: string, reports: seq<Report>)
    requires OwnedThroughout(s, events, r) && OnlyOwn(events, OperationId(r, key))
    requires Holds(s.timeline, OperationId(r, key), Reported(r, key, reports))
    ensures Holds(After(Observe, s, events).timeline, OperationId(r, key), Reported(r, key, reports + ReportsOf(events, r, key)))
    decreases |events|
  {
    hide Holds; hide ReduceRuntimeEvent; hide Reported;
    if events == [] {
      assert reports + [] == reports;
    } else {
      AfterFirst(Observe, s, events);
      var (event, message) := events[0];
      var id, t := OperationId(r, key), ReduceRuntimeEvent(s, event, message);
      OnlyOwnLater(events, id);
      assert Names(event, message, id) ==> OwnKind(event, id);
      if Names(event, message, id) {
        OwnReport(s, event, message, r, key, reports);
        OperationIsItsReports(t, events[1..], r, key, reports + [Report(event.phase, event.info)]);
        assert reports + [Report(event.phase, event.info)] + ReportsOf(events[1..], r, key) == reports + ReportsOf(events, r, key);
      } else {
        assert Callless(Reported(r, key, reports)) by { IsOperation(r, key, reports); }
        EventOther(s, event, message, r, id, Reported(r, key, reports));
        OperationIsItsReports(t, events[1..], r, key, reports);
        assert [] + ReportsOf(events[1..], r, key) == ReportsOf(events[1..], r, key);
      }
    }
  }

  lemma OwnReport(s: Session, event: RuntimeEvent, message: Option<MessageInput>, r: string, key: string, reports: seq<Report>)
    requires OwnsRun(s, r) && event.OperationEvent? && event.request == r && event.key == key
    requires Holds(s.timeline, OperationId(r, key), Reported(r, key, reports))
    ensures Holds(ReduceRuntimeEvent(s, event, message).timeline, OperationId(r, key), Reported(r, key, reports + [Report(event.phase, event.info)]))
  {
    hide Holds; hide Reported; hide ApplyOperation;
    OperationReports(s, r, key, event.phase, event.info, reports);
  }

  lemma IsOperation(r: string, key: string, reports: seq<Report>)
    ensures Callless(Reported(r, key, reports))
  {
  }
}

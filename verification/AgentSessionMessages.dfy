/** What each input of the reducer says in the session: the entry it leaves, the run and the review. */
module AgentSessionMessages {
  import opened AgentSession
  import opened AgentSessionTimeline
  import opened History
  import opened Options
  import JsText

  /** The one entry that changes: it stands where the first of its id stood, or comes last. */
  ghost predicate Put(t: seq<Entry>, u: seq<Entry>, e: Entry) {
    exists k :: 0 <= k < |u| && PutAt(t, u, e, k)
  }

  ghost predicate PutAt(t: seq<Entry>, u: seq<Entry>, e: Entry, k: nat) {
    && k <= |t| && |u| == (if k < |t| then |t| else |t| + 1) && k < |u| && u[k] == e
    && (forall i :: 0 <= i < k ==> t[i].id != e.id) && (k < |t| ==> t[k].id == e.id)
    && (forall i :: 0 <= i < |t| && i != k ==> u[i] == t[i])
  }

  lemma UpsertPuts(t: seq<Entry>, e: Entry)
    ensures Put(t, Upsert(t, e), e)
  {
    assert PutAt(t, Upsert(t, e), e, IndexOf(t, e.id));
  }

  /** The first message of an id, as it stands. */
  ghost predicate Stands(t: seq<Entry>, id: EntryId, e: Entry) {
    exists k :: 0 <= k < |t| && t[k] == e && IsMessage(e, id) && forall i :: 0 <= i < k ==> !IsMessage(t[i], id)
  }

  predicate IsMessage(e: Entry, id: EntryId) { e.Message? && e.id == id }

  ghost predicate Absent(t: seq<Entry>, id: EntryId) {
    forall i :: 0 <= i < |t| ==> !IsMessage(t[i], id)
  }

  lemma FoundStands(t: seq<Entry>, id: EntryId)
    ensures var i := IndexOfMessage(t, id); if i < |t| then Stands(t, id, t[i]) && t[i].Message? else Absent(t, id)
  {
  }

  lemma StandsOnce(t: seq<Entry>, id: EntryId, e: Entry, f: Entry)
    requires Stands(t, id, e) && Stands(t, id, f)
    ensures e == f
  {
    var i :| 0 <= i < |t| && t[i] == e && IsMessage(e, id) && forall j :: 0 <= j < i ==> !IsMessage(t[j], id);
    var k :| 0 <= k < |t| && t[k] == f && IsMessage(f, id) && forall j :: 0 <= j < k ==> !IsMessage(t[j], id);
    assert IsMessage(t[i], id) && IsMessage(t[k], id);
  }

  predicate Active(s: Session, r: string) {
    s.activeRun.Some? && s.activeRun.value.request == r
  }

  function IdGiven(message: Option<MessageInput>, id: EntryId): EntryId {
    match message
    case Some(MessageInput(Some(given), _, _, _)) => given
    case _ => id
  }

  // ---------------------------------------------------------------- deltas

  /** A token extends the message that streams under its id, or begins it. */
  lemma DeltaExtends(s: Session, r: string, m: string, token: string, message: Option<MessageInput>)
    ensures var t := ReduceRuntimeEvent(s, MessageDelta(r, m, token), message);
            var id := IdGiven(message, Named(m));
            if token == "" || !Active(s, r) || (exists e :: Stands(s.timeline, id, e) && !e.streaming) then t == s
            else
              && (forall e :: Stands(s.timeline, id, e) ==> Put(s.timeline, t.timeline, Message(id, Assistant, e.text + token, [], true, Some(r))))
              && (Absent(s.timeline, id) ==> Put(s.timeline, t.timeline, Message(id, Assistant, token, [], true, Some(r))))
              && t == s.(timeline := t.timeline, pendingInterrupt := None, activeRun := Some(Run(r, Running(Streaming))))
  {
    var id := IdGiven(message, Named(m));
    assert IdOr(message, Named(m)) == id;
    FoundStands(s.timeline, id);
    var i := IndexOfMessage(s.timeline, id);
    var previous := if i < |s.timeline| then s.timeline[i].text else "";
    UpsertPuts(s.timeline, Message(id, Assistant, previous + token, [], true, Some(r)));
    forall e | i < |s.timeline| && Stands(s.timeline, id, e) ensures e == s.timeline[i] { StandsOnce(s.timeline, id, e, s.timeline[i]); }
    hide Put; hide Stands; hide Upsert; hide IndexOfMessage;
    assert i == |s.timeline| ==> forall e :: !Stands(s.timeline, id, e) by { NobodyStands(s.timeline, id); }
    assert i < |s.timeline| ==> !Absent(s.timeline, id);
    assert "" + token == token;
  }

  lemma NobodyStands(t: seq<Entry>, id: EntryId)
    ensures Absent(t, id) ==> forall e :: !Stands(t, id, e)
  {
  }

  // ------------------------------------------------------------ completions

  /** A completion is taken from the run that is followed, or for a run the timeline knows and has not locally released. */
  ghost predicate Taken(s: Session, r: string) {
    || Active(s, r)
    || ((exists i :: 0 <= i < |s.timeline| && Concerns(s.timeline[i], r)) && forall i :: 0 <= i < |s.timeline| ==> !ReleaseOf(s.timeline[i], r))
  }

  predicate Concerns(e: Entry, r: string) {
    match e
    case Message(_, _, _, _, _, request) => request == Some(r)
    case Operation(_, owner, _, _) => owner == r
  }

  predicate ReleaseOf(e: Entry, r: string) {
    e.Message? && e.role == System && e.id == LocalRelease(r)
  }

  /** The completed text, or else what had streamed so far, without the white space around it; a mark if both are blank. */
  ghost predicate Completes(t: seq<Entry>, id: EntryId, text: string, x: string) {
    if !JsText.IsBlank(text) then JsText.Trims(text, x)
    else if exists e :: Stands(t, id, e) && !JsText.IsBlank(e.text) then forall e :: Stands(t, id, e) ==> JsText.Trims(e.text, x)
    else x == "..."
  }

  lemma CompletedTextCompletes(t: seq<Entry>, id: EntryId, text: string)
    ensures Completes(t, id, text, CompletedText(t, id, text))
  {
    FoundStands(t, id);
    NobodyStands(t, id);
    var i := IndexOfMessage(t, id);
    if i < |t| {
      forall e | Stands(t, id, e) ensures e == t[i] { StandsOnce(t, id, e, t[i]); }
      JsText.TrimTrims(t[i].text);
    }
    JsText.TrimTrims(text);
    hide Stands; hide JsText.Trims;
  }

  /** What a run's end leaves of an entry: its calls that still ran are interrupted, and its own streaming messages settled. */
  predicate EndsAs(e: Entry, f: Entry, r: string, stops: bool, settles: bool) {
    if e.Operation? then f == e
    else
      && f.Message? && f.id == e.id && f.role == e.role && f.text == e.text && f.request == e.request
      && f.streaming == (e.streaming && !(settles && e.request == Some(r)))
      && |f.calls| == |e.calls|
      && forall j :: 0 <= j < |e.calls| ==> f.calls[j] == if stops && e.calls[j].status == CallRunning then e.calls[j].(status := CallOver(CallInterrupted)) else e.calls[j]
  }

  predicate AllEndAs(t: seq<Entry>, u: seq<Entry>, r: string, stops: bool, settles: bool) {
    |u| >= |t| && forall i :: 0 <= i < |t| ==> EndsAs(t[i], u[i], r, stops, settles)
  }

  /** One after another what was said comes last: each under its own id or the next free one of its owner and role. */
  ghost predicate Speaks(sessionId: string, t: seq<Entry>, u: seq<Entry>, said: MessageInput) {
    if said.text == "" then u == t
    else |u| == |t| + 1 && u[..|t|] == t && Utters(sessionId, t, u[|t|], said)
  }

  ghost predicate Utters(sessionId: string, t: seq<Entry>, e: Entry, said: MessageInput) {
    && e.Message? && e.role == said.role && e.text == said.text && e.request == said.request && e.calls == [] && !e.streaming
    && (said.id.Some? ==> e.id == said.id.value)
    && (said.id.None? ==> e.id == Counted(if said.request.Some? then said.request.value else sessionId, said.role, |Like(t, said)|))
  }

  /** Where the timeline already has a message of that request and role. */
  function Like(t: seq<Entry>, said: MessageInput): set<nat> {
    set i: nat | i < |t| && t[i].Message? && t[i].request == said.request && t[i].role == said.role
  }

  lemma {:induction false} CountIsLike(t: seq<Entry>, said: MessageInput)
    ensures CountMessages(t, said.request, said.role) == |Like(t, said)|
  {
    if t != [] {
      var front, last := t[..|t| - 1], |t| - 1;
      CountIsLike(front, said);
      if t[last].Message? && t[last].request == said.request && t[last].role == said.role {
        assert Like(t, said) == Like(front, said) + {last};
      } else {
        assert Like(t, said) == Like(front, said);
      }
    }
  }

  lemma AppendedSpeaks(s: Session, said: MessageInput)
    ensures Speaks(s.sessionId, s.timeline, Appended(s, said).timeline, said)
    ensures Appended(s, said) == s.(timeline := Appended(s, said).timeline)
  {
    CountIsLike(s.timeline, said);
    hide CountMessages;
  }

  /** A whole list of things said, each for the run unless it names another. */
  ghost predicate AllSpeak(sessionId: string, t: seq<Entry>, u: seq<Entry>, said: seq<MessageInput>, r: string)
    decreases |said|
  {
    if said == [] then u == t
    else
      var first := said[0].(request := Or(said[0].request, Some(r)));
      exists mid :: Speaks(sessionId, t, mid, first) && AllSpeak(sessionId, mid, u, said[1..], r)
  }

  lemma {:induction false} AppendedAllSpeak(s: Session, said: seq<MessageInput>, r: string)
    ensures AllSpeak(s.sessionId, s.timeline, AppendedAll(s, said, r).timeline, said, r)
    ensures AppendedAll(s, said, r) == s.(timeline := AppendedAll(s, said, r).timeline)
    decreases |said|
  {
    if said != [] {
      var first := said[0].(request := if said[0].request.Some? then said[0].request else Some(r));
      hide Appended; hide Speaks;
      AppendedSpeaks(s, first);
      AppendedAllSpeak(Appended(s, first), said[1..], r);
    }
  }

  /** A run has ended: what it left open is closed, and then something may be said. */
  ghost predicate RunEnds(s: Session, t: Session, r: string, said: seq<MessageInput>, settles: bool, keepsReview: bool) {
    && (exists mid :: |mid| == |s.timeline| && AllEndAs(s.timeline, mid, r, s.pendingInterrupt.None?, settles)
                      && AllSpeak(s.sessionId, mid, t.timeline, said, r))
    && t.activeRun.None? && t.pendingInterrupt == (if keepsReview then s.pendingInterrupt else None)
    && t.plan == s.plan && t.omitted == s.omitted && t.sessionId == s.sessionId
  }

  lemma EntryEndsAs(e: Entry, r: string, stops: bool, settles: bool)
    ensures var stopped := if stops then InterruptCalls(e) else e;
            EndsAs(e, if settles then Finalized(stopped, r) else stopped, r, stops, settles)
  {
  }

  lemma InterruptedEndAs(t: seq<Entry>, r: string, stops: bool, settles: bool)
    ensures var stopped := if stops then Mapped(t, InterruptCalls) else t;
            var u := if settles then Mapped(stopped, (e: Entry) => Finalized(e, r)) else stopped;
            |u| == |t| && AllEndAs(t, u, r, stops, settles)
  {
    var stopped := if stops then Mapped(t, InterruptCalls) else t;
    var u := if settles then Mapped(stopped, (e: Entry) => Finalized(e, r)) else stopped;
    forall i | 0 <= i < |t| ensures EndsAs(t[i], u[i], r, stops, settles) {
      EntryEndsAs(t[i], r, stops, settles);
      hide EndsAs; hide InterruptCalls; hide Finalized;
      assert stopped[i] == if stops then InterruptCalls(t[i]) else t[i];
    }
  }

  lemma UsageTouchesTotals(s: Session, usage: Usage, allow: bool)
    ensures var t := ApplyTokenUsage(s, usage, allow);
            t == s.(runtimeWindow := t.runtimeWindow, tokenUsage := t.tokenUsage, sessionUsage := t.sessionUsage)
  {
    hide Stale; hide Accumulated;
  }

  lemma FinishEnds(s: Session, r: string, said: seq<MessageInput>, usage: UsageUpdate, preserve: bool, settle: bool)
    requires Active(s, r)
    ensures RunEnds(s, FinishOwnedRun(s, r, said, usage, preserve, settle), r, said, settle, preserve)
    ensures usage.DropUsage? ==> FinishOwnedRun(s, r, said, usage, preserve, settle).tokenUsage.None?
    ensures usage.KeepUsage? ==> FinishOwnedRun(s, r, said, usage, preserve, settle).tokenUsage == s.tokenUsage
  {
    var stops := s.pendingInterrupt.None?;
    InterruptedEndAs(s.timeline, r, stops, settle);
    var stopped := if stops then InterruptOpenCalls(s, r) else s;
    var ended := stopped.(
      timeline := if settle then Mapped(stopped.timeline, (e: Entry) => Finalized(e, r)) else stopped.timeline,
      activeRun := None,
      pendingInterrupt := if preserve then stopped.pendingInterrupt else None);
    hide Mapped; hide AllEndAs; hide AllSpeak; hide ApplyTokenUsage; hide AppendedAll;
    AppendedAllSpeak(ended, said, r);
    if usage.ApplyUsage? { UsageTouchesTotals(AppendedAll(ended, said, r), usage.usage, false); }
  }

  /** An interruption says so, an error says what was wrong and keeps the review; for another run neither changes anything. */
  lemma StopsSay(s: Session, r: string, text: string, message: Option<MessageInput>)
    ensures var t := ReduceRuntimeEvent(s, RunInterrupted(r, text), message);
            if Active(s, r) then
              exists x :: (if JsText.IsBlank(text) then x == "Run interrupted." else JsText.Trims(text, x))
                          && RunEnds(s, t, r, [MessageInput(None, System, x, Some(r))], true, false)
            else t == s
    ensures var t := ReduceRuntimeEvent(s, ErrorEvent(r, text), message);
            if Active(s, r) then
              match message
              case Some(said) => RunEnds(s, t, r, [MessageInput(said.id, System, said.text, Some(r))], true, true)
              case None => RunEnds(s, t, r, [MessageInput(None, System, text, Some(r))], true, true)
            else t == s
  {
    JsText.TrimTrims(text);
    hide RunEnds; hide FinishOwnedRun; hide JsText.Trims;
    var x := if JsText.IsBlank(text) then "Run interrupted." else JsText.Trim(text);
    var said := MessageInput(if message.Some? then message.value.id else None, System, if message.Some? then message.value.text else text, Some(r));
    if Active(s, r) {
      FinishEnds(s, r, [MessageInput(None, System, x, Some(r))], KeepUsage, false, true);
      FinishEnds(s, r, [said], KeepUsage, true, true);
    } else {
      NotOwnedStays(s, r);
    }
  }

  lemma NotOwnedStays(s: Session, r: string)
    requires !Active(s, r)
    ensures forall said, usage, preserve, settle :: FinishOwnedRun(s, r, said, usage, preserve, settle) == s
  {
  }

  /** A run that finishes says its last messages. */
  lemma FinishSays(s: Session, r: string, said: seq<MessageInput>, usage: UsageUpdate)
    ensures var t := ReduceSession(s, RunFinished(r, said, usage));
            if Active(s, r) then RunEnds(s, t, r, said, true, false) else t == s
  {
    hide RunEnds; hide FinishOwnedRun;
    if Active(s, r) { FinishEnds(s, r, said, usage, false, true); } else { NotOwnedStays(s, r); }
  }

  lemma TakesIsTaken(s: Session, r: string)
    ensures Taken(s, r) <==> OwnsRun(s, r) || (HasRequest(s.timeline, r) && !HasRelease(s.timeline, r))
  {
    if HasRequest(s.timeline, r) {
      var i :| 0 <= i < |s.timeline| && (if s.timeline[i].Message? then s.timeline[i].request == Some(r) else s.timeline[i].owner == r);
      assert Concerns(s.timeline[i], r);
    }
    if HasRelease(s.timeline, r) {
      var i :| 0 <= i < |s.timeline| && s.timeline[i].Message? && s.timeline[i].role == System && s.timeline[i].id == LocalRelease(r);
      assert ReleaseOf(s.timeline[i], r);
    }
  }

  /** A message's own entry is the assistant's and complete, and nothing is left of what it called. */
  function Complete(id: EntryId, x: string, r: string): Entry {
    Message(id, Assistant, x, [], false, Some(r))
  }

  /**
   A completion that is taken puts the whole message in its place; one of the run that is
   followed also ends that run, without settling its other messages.
   */
  lemma CompletionSays(s: Session, r: string, m: string, text: string, spent: Option<Usage>, message: Option<MessageInput>)
    returns (x: string, mid: seq<Entry>)
    ensures var t := ReduceRuntimeEvent(s, MessageCompleted(r, m, text, spent), message);
            var id := IdGiven(message, Named(m));
            if !Taken(s, r) then t == s
            else
              && Completes(s.timeline, id, text, x) && Put(s.timeline, mid, Complete(id, x, r))
              && (if Active(s, r) then RunEnds(s.(timeline := mid), t, r, [], false, false) && (spent.None? ==> t.tokenUsage.None?)
                  else t.timeline == mid && t.activeRun == s.activeRun && t.pendingInterrupt == s.pendingInterrupt && t.plan == s.plan)
  {
    var id := IdGiven(message, Named(m));
    assert IdOr(message, Named(m)) == id;
    x := CompletedText(s.timeline, id, text);
    var e := Message(id, Assistant, x, [], false, Some(r));
    mid := Upsert(s.timeline, e);
    CompletedTextCompletes(s.timeline, id, text);
    UpsertPuts(s.timeline, e);
    TakesIsTaken(s, r);
    var t := s.(timeline := mid);
    hide Put; hide Completes; hide RunEnds; hide FinishOwnedRun; hide ApplyTokenUsage; hide CompletedText; hide Upsert; hide HasRequest; hide HasRelease; hide Taken;
    hide IndexOfMessage;
    if OwnsRun(s, r) {
      FinishEnds(t, r, [], if spent.Some? then ApplyUsage(spent.value) else DropUsage, false, false);
    } else if spent.Some? {
      UsageTouchesTotals(t, spent.value, false);
    }
  }

  /** So the message stands, with exactly what was completed or had streamed. */
  lemma CompletionStands(s: Session, r: string, m: string, text: string, spent: Option<Usage>, message: Option<MessageInput>) returns (x: string)
    requires Taken(s, r)
    ensures var id := IdGiven(message, Named(m));
            Completes(s.timeline, id, text, x)
            && Stands(ReduceRuntimeEvent(s, MessageCompleted(r, m, text, spent), message).timeline, id, Complete(id, x, r))
  {
    var mid: seq<Entry>;
    x, mid := CompletionSays(s, r, m, text, spent, message);
    var id, t := IdGiven(message, Named(m)), ReduceRuntimeEvent(s, MessageCompleted(r, m, text, spent), message);
    hide ReduceRuntimeEvent; hide Completes; hide Taken;
    PutStands(s.timeline, mid, Complete(id, x, r));
    if Active(s, r) {
      var later :| |later| == |mid| && AllEndAs(mid, later, r, s.pendingInterrupt.None?, false) && AllSpeak(s.sessionId, later, t.timeline, [], r);
      EndsStand(mid, later, r, s.pendingInterrupt.None?, false, Complete(id, x, r));
    }
  }

  lemma PutStands(t: seq<Entry>, u: seq<Entry>, e: Entry)
    requires Put(t, u, e) && e.Message?
    ensures Stands(u, e.id, e)
  {
    var k :| 0 <= k < |u| && PutAt(t, u, e, k);
    forall i | 0 <= i < k ensures !IsMessage(u[i], e.id) { assert u[i] == t[i]; }
  }

  lemma EndsStand(t: seq<Entry>, u: seq<Entry>, r: string, stops: bool, settles: bool, e: Entry)
    requires |u| == |t| && AllEndAs(t, u, r, stops, settles) && e.Message? && e.calls == [] && !e.streaming && Stands(t, e.id, e)
    ensures Stands(u, e.id, e)
  {
    var k :| 0 <= k < |t| && t[k] == e && IsMessage(e, e.id) && forall i :: 0 <= i < k ==> !IsMessage(t[i], e.id);
    assert EndsAs(t[k], u[k], r, stops, settles) && u[k].calls == [] && u[k] == e;
    forall i | 0 <= i < k ensures !IsMessage(u[i], e.id) { assert EndsAs(t[i], u[i], r, stops, settles) && !IsMessage(t[i], e.id); }
  }

  /** A message that nobody had heard of stands, once it has streamed, with just its tokens. */
  lemma StreamedStands(s: Session, events: seq<Observed>, r: string, id: EntryId)
    requires OwnedThroughout(s, events, r) && OnlyOwn(events, id) && id.Named? && id !in Ids(s.timeline) && Tokens(events, r, id) != ""
    ensures Taken(After(Observe, s, events), r)
    ensures Stands(After(Observe, s, events).timeline, id, Message(id, Assistant, Tokens(events, r, id), [], true, Some(r)))
  {
    var t := After(Observe, s, events);
    var tokens := Tokens(events, r, id);
    hide Tokens; hide Stands; hide OnlyOwn; hide OwnedThroughout;
    NothingHeld(s.timeline, id, r);
    TextIsItsDeltas(s, events, r, id, "");
    assert "" + tokens == tokens;
    OwnedAfter(s, events, r);
    HeldStands(t.timeline, id, Message(id, Assistant, tokens, [], true, Some(r)));
  }

  /** What completes such a message without text is what had streamed. */
  lemma CompletesStreamed(t: seq<Entry>, id: EntryId, text: string, tokens: string, r: string, x: string)
    requires Completes(t, id, text, x) && JsText.IsBlank(text) && !JsText.IsBlank(tokens)
    requires Stands(t, id, Message(id, Assistant, tokens, [], true, Some(r)))
    ensures JsText.Trims(tokens, x)
  {
    var e := Message(id, Assistant, tokens, [], true, Some(r));
    assert JsText.IsBlank("");
    hide JsText.IsBlank; hide JsText.Trims;
  }

  /** A message that has streamed and is then completed without text says exactly its own deltas, in the order they came. */
  lemma StreamsThenCompletes(s: Session, events: seq<Observed>, r: string, m: string, text: string, spent: Option<Usage>) returns (x: string)
    requires OwnedThroughout(s, events, r) && OnlyOwn(events, Named(m)) && Named(m) !in Ids(s.timeline)
    requires JsText.IsBlank(text) && !JsText.IsBlank(Tokens(events, r, Named(m)))
    ensures JsText.Trims(Tokens(events, r, Named(m)), x)
    ensures Stands(ReduceRuntimeEvent(After(Observe, s, events), MessageCompleted(r, m, text, spent), None).timeline, Named(m), Complete(Named(m), x, r))
  {
    assert JsText.IsBlank("");
    hide JsText.IsBlank; hide JsText.Trims; hide Tokens; hide ReduceRuntimeEvent; hide Stands; hide OwnedThroughout; hide OnlyOwn; hide Taken; hide Completes; hide Complete;
    var t := After(Observe, s, events);
    StreamedStands(s, events, r, Named(m));
    x := CompletionStands(t, r, m, text, spent, None);
    CompletesStreamed(t.timeline, Named(m), text, Tokens(events, r, Named(m)), r, x);
  }

  lemma NothingHeld(t: seq<Entry>, id: EntryId, r: string)
    requires id !in Ids(t)
    ensures Holds(t, id, StreamingEntry(id, r, ""))
  {
    forall j | 0 <= j < |t| ensures t[j].id != id { assert Ids(t)[j] == t[j].id; }
  }

  lemma HeldStands(t: seq<Entry>, id: EntryId, e: Entry)
    requires Holds(t, id, Some(e)) && e.Message?
    ensures Stands(t, id, e)
  {
    FoundMessage(t, id, Some(e));
    FoundStands(t, id);
  }

  lemma {:induction false} OwnedAfter(s: Session, events: seq<Observed>, r: string)
    requires OwnedThroughout(s, events, r)
    ensures Active(After(Observe, s, events), r)
    decreases |events|
  {
    hide ReduceRuntimeEvent;
    if events != [] {
      AfterFirst(Observe, s, events);
      OwnedAfter(ReduceRuntimeEvent(s, events[0].0, events[0].1), events[1..], r);
    }
  }

  // ------------------------------------------------------- the other inputs

  /** A run begins with nothing pending; the input it was given, if it says anything, comes last as the user's. */
  lemma RunBegins(s: Session, r: string, input: Option<string>, message: Option<MessageInput>)
    ensures var t := ReduceRuntimeEvent(s, RunStarted(r, input), message);
            if Active(s, r) then t == s
            else
              && t == s.(timeline := t.timeline, tokenUsage := None, plan := None, pendingInterrupt := None, activeRun := Some(Run(r, Running(Thinking))))
              && (match input
                  case Some(text) =>
                    if JsText.IsBlank(text) then t.timeline == s.timeline
                    else Speaks(s.sessionId, s.timeline, t.timeline, MessageInput(None, User, text, Some(r)))
                  case None => t.timeline == s.timeline)
  {
    if input.Some? { AppendedSpeaks(Begun(s, r), MessageInput(None, User, input.value, Some(r))); }
    hide Speaks; hide Appended; hide JsText.IsBlank;
  }

  /** The same for what a user of the terminal says, whatever ran before. */
  lemma UserSpeaks(s: Session, r: string, text: string, id: Option<EntryId>)
    ensures var t := ReduceSession(s, UserAccepted(r, text, id));
            && t == s.(timeline := t.timeline, tokenUsage := None, plan := None, pendingInterrupt := None, activeRun := Some(Run(r, Running(Thinking))))
            && Speaks(s.sessionId, s.timeline, t.timeline, MessageInput(id, User, text, Some(r)))
  {
    AppendedSpeaks(Begun(s, r), MessageInput(id, User, text, Some(r)));
    hide Speaks; hide Appended;
  }

  lemma MessageSpeaks(s: Session, said: MessageInput)
    ensures var t := ReduceSession(s, MessageAppended(said));
            t == s.(timeline := t.timeline) && Speaks(s.sessionId, s.timeline, t.timeline, said)
  {
    AppendedSpeaks(s, said);
    hide Speaks; hide Appended;
  }

  /** A notice of the run that is followed comes last as the system's, and clears the review. */
  lemma NoticeSpeaks(s: Session, r: string, text: string, message: Option<MessageInput>)
    ensures var t := ReduceRuntimeEvent(s, SystemNotice(r, text), message);
            if Active(s, r) && !JsText.IsBlank(text) then
              && t == s.(timeline := t.timeline, pendingInterrupt := None)
              && Speaks(s.sessionId, s.timeline, t.timeline,
                        match message
                        case Some(said) => MessageInput(said.id, System, said.text, Some(r))
                        case None => MessageInput(None, System, text, Some(r)))
            else t == s
  {
    AppendedSpeaks(s.(pendingInterrupt := None), MessageInput(if message.Some? then message.value.id else None, System,
                                                              if message.Some? then message.value.text else text, Some(r)));
    hide Speaks; hide Appended; hide JsText.IsBlank;
  }

  /** A subagent's message stands whole under its namespace and its source's id, without the white space around that. */
  lemma SubagentSpeaks(s: Session, r: string, namespace: string, source: string, text: string, message: Option<MessageInput>) returns (x: string)
    ensures JsText.Trims(source, x)
    ensures var t := ReduceRuntimeEvent(s, SubagentCompleted(r, namespace, source, text), message);
            if Active(s, r) && !JsText.IsBlank(text) then
              && Put(s.timeline, t.timeline, Message(SubagentId(r, namespace, x), Subagent, text, [], false, Some(r)))
              && t == s.(timeline := t.timeline, pendingInterrupt := None, activeRun := Some(Run(r, Running(Streaming))))
            else t == s
  {
    x := JsText.Trim(source);
    JsText.TrimTrims(source);
    UpsertPuts(s.timeline, Message(SubagentId(r, namespace, x), Subagent, text, [], false, Some(r)));
    hide Put; hide Upsert; hide JsText.Trims; hide JsText.IsBlank;
  }

  /** The calls a message makes: a call that was made already under its id keeps its status, a new one runs. */
  ghost predicate CallsMade(known: seq<ToolCall>, made: seq<(string, string)>, calls: seq<ToolCall>) {
    && |calls| == |made|
    && forall j :: 0 <= j < |made| ==>
         && calls[j].id == made[j].0 && calls[j].name == made[j].1
         && ((forall k :: 0 <= k < |known| ==> known[k].id != made[j].0) ==> calls[j].status == CallRunning)
         && (forall k :: 0 <= k < |known| && known[k].id == made[j].0 && (forall i :: 0 <= i < k ==> known[i].id != made[j].0)
               ==> calls[j].status == known[k].status)
  }

  lemma CallsOfMade(known: seq<ToolCall>, made: seq<(string, string)>)
    ensures CallsMade(known, made, CallsOf(made, known))
  {
    forall j, k | 0 <= j < |made| && 0 <= k < |known| && known[k].id == made[j].0 && (forall i :: 0 <= i < k ==> known[i].id != made[j].0)
      ensures CallsOf(made, known)[j].status == known[k].status
    {
      assert First(known, (c: ToolCall) => c.id == made[j].0, 0) == k;
    }
  }

  lemma CallsStand(s: Session, r: string, m: string, text: string, made: seq<(string, string)>, message: Option<MessageInput>)
    returns (calls: seq<ToolCall>)
    ensures var t := ReduceRuntimeEvent(s, MessageToolCalls(r, m, text, made), message);
            if Active(s, r) && made != [] then
              && (forall e :: Stands(s.timeline, Named(m), e) ==> CallsMade(e.calls, made, calls))
              && (Absent(s.timeline, Named(m)) ==> CallsMade([], made, calls))
              && Put(s.timeline, t.timeline, Message(Named(m), Assistant, text, calls, false, Some(r)))
              && t == s.(timeline := t.timeline, pendingInterrupt := None, activeRun := Some(Run(r, Running(UsingTool))))
            else t == s
  {
    var id := Named(m);
    var i := IndexOfMessage(s.timeline, id);
    var known := if i < |s.timeline| then s.timeline[i].calls else [];
    calls := CallsOf(made, known);
    CallsOfMade(known, made);
    FoundStands(s.timeline, id);
    forall e | i < |s.timeline| && Stands(s.timeline, id, e) ensures e == s.timeline[i] { StandsOnce(s.timeline, id, e, s.timeline[i]); }
    NobodyStands(s.timeline, id);
    assert i < |s.timeline| ==> !Absent(s.timeline, id);
    UpsertPuts(s.timeline, Message(id, Assistant, text, calls, false, Some(r)));
    hide Put; hide Stands; hide Upsert; hide IndexOfMessage; hide CallsMade; hide CallsOf;
  }

  predicate Makes(e: Entry, callId: string) {
    e.Message? && exists j :: 0 <= j < |e.calls| && e.calls[j].id == callId
  }

  /** A settled call gets its outcome in the first message that makes it, and nothing else changes. */
  lemma CallSettles(s: Session, callId: string, outcome: Outcome, message: Option<MessageInput>)
    requires forall i, j :: 0 <= i < j < |s.timeline| ==> s.timeline[i].id != s.timeline[j].id
    ensures var t := ReduceRuntimeEvent(s, ToolCallSettled(callId, outcome), message);
            && t == s.(timeline := t.timeline) && |t.timeline| == |s.timeline|
            && forall i :: 0 <= i < |s.timeline| ==>
                 if Makes(s.timeline[i], callId) && forall h :: 0 <= h < i ==> !Makes(s.timeline[h], callId)
                 then SettlesAs(s.timeline[i], t.timeline[i], callId, outcome)
                 else t.timeline[i] == s.timeline[i]
  {
    var k := First(s.timeline, (e: Entry) => MakesCall(e, callId), 0);
    forall i | 0 <= i < |s.timeline| ensures MakesCall(s.timeline[i], callId) <==> Makes(s.timeline[i], callId) {}
    if k < |s.timeline| {
      var f := Settled(s.timeline[k], callId, outcome);
      assert IndexOf(s.timeline, f.id) == k;
      assert SettlesAs(s.timeline[k], f, callId, outcome);
    }
    hide SettlesAs; hide Makes; hide MakesCall; hide Settled;
  }

  predicate SettlesAs(e: Entry, f: Entry, callId: string, outcome: Outcome)
    requires e.Message?
  {
    && f.Message? && f == e.(calls := f.calls) && |f.calls| == |e.calls|
    && forall j :: 0 <= j < |e.calls| ==> f.calls[j] == if e.calls[j].id == callId then e.calls[j].(status := CallOver(outcome)) else e.calls[j]
  }

  predicate Open(e: Entry, r: string) {
    e.Operation? && e.owner == r && (e.phase == Started || e.phase == Updated)
  }

  /** While an operation of the run is open the run is using a tool; once none is, it is thinking again, unless it is being interrupted. */
  lemma OperationMoves(s: Session, r: string, key: string, phase: Phase, info: OperationInfo, message: Option<MessageInput>)
    ensures var t := ReduceRuntimeEvent(s, OperationEvent(r, key, phase, info), message);
            if !Active(s, r) then t == s
            else
              && t == s.(timeline := t.timeline, pendingInterrupt := None, activeRun := t.activeRun)
              && Active(t, r)
              && (phase == Started || phase == Updated ==> t.activeRun.value.state == Running(UsingTool))
              && (phase != Started && phase != Updated ==>
                    t.activeRun.value.state ==
                    if s.activeRun.value.state.Interrupting? then Interrupting
                    else Running(if exists i :: 0 <= i < |t.timeline| && Open(t.timeline[i], r) then UsingTool else Thinking))
  {
    if Active(s, r) {
      var t := ReduceRuntimeEvent(s, OperationEvent(r, key, phase, info), message);
      OpenIsOpen(t.timeline, r);
      hide Upsert; hide MergedDetail; hide HasOpenOperation;
    }
  }

  lemma OpenIsOpen(t: seq<Entry>, r: string)
    ensures HasOpenOperation(t, r) <==> exists i :: 0 <= i < |t| && Open(t[i], r)
  {
    if HasOpenOperation(t, r) {
      var i :| 0 <= i < |t| && OpenOperation(t[i], r);
      assert Open(t[i], r);
    }
    if exists i :: 0 <= i < |t| && Open(t[i], r) {
      var i :| 0 <= i < |t| && Open(t[i], r);
      assert OpenOperation(t[i], r);
    }
  }

  /** What moves the run, the review and the plan and says nothing. */
  lemma SilentInputs(s: Session, r: string, message: Option<MessageInput>)
    ensures forall plan :: ReduceRuntimeEvent(s, PlanUpdated(r, plan), message) == if Active(s, r) then s.(plan := plan, pendingInterrupt := None) else s
    ensures forall review, spent :: var t := ReduceRuntimeEvent(s, InterruptRequested(r, review, spent), message);
              if Active(s, r) then t.timeline == s.timeline && t.activeRun.None? && t.pendingInterrupt == Some(review) && t.plan == s.plan
              else t == s
    ensures ReduceSession(s, RunInterrupting(r)) == if Active(s, r) then s.(activeRun := Some(Run(r, Interrupting))) else s
    ensures forall review :: ReduceSession(s, ResumeAccepted(r, review)) ==
              if s.activeRun.None? && s.pendingInterrupt == Some(review) then s.(tokenUsage := None, activeRun := Some(Run(r, Running(Thinking)))) else s
    ensures var t := ReduceSession(s, SessionCleared);
            && t.timeline == [] && t.activeRun.None? && t.pendingInterrupt.None? && t.plan.None? && t.tokenUsage.None? && t.sessionUsage.None?
            && t.sessionId == s.sessionId && t.omitted == s.omitted
  {
    forall spent: Usage { UsageTouchesTotals(s, spent, true); }
    hide ApplyTokenUsage;
  }

  /** A snapshot brings its run, review and plan, and its usage of the last run unless that may be kept where it is left out. */
  lemma SnapshotBrings(s: Session, incoming: Session, options: SnapshotOptions)
    ensures var t := ApplySnapshot(s, incoming, options);
            && t.sessionId == incoming.sessionId && t.activeRun == incoming.activeRun
            && t.pendingInterrupt == incoming.pendingInterrupt && t.plan == incoming.plan
            && (incoming.runtimeWindow.Some? ==> t.runtimeWindow == incoming.runtimeWindow)
            && (incoming.runtimeWindow.None? ==> t.runtimeWindow == s.runtimeWindow)
            && (incoming.tokenUsage.Some? || !options.preserveUsage ==> t.tokenUsage == incoming.tokenUsage)
            && (incoming.tokenUsage.None? && options.preserveUsage ==> t.tokenUsage == s.tokenUsage)
            && (incoming.sessionUsage.None? ==> t.sessionUsage == if options.preserveSessionUsage then s.sessionUsage else None)
  {
    hide Spliced;
  }

  /** A usage is out of date within its epoch when its revision is older or missing, and in another epoch unless a new one may begin. */
  predicate Outdated(held: Option<Usage>, usage: Usage, mayBegin: bool) {
    match held
    case None => false
    case Some(h) =>
      if h.epoch == usage.epoch then
        match (h.revision, usage.revision)
        case (Some(known), Some(given)) => given < known
        case (Some(_), None) => true
        case (None, _) => false
      else !mayBegin && h.epoch.Some? && h.epoch.value != ""
  }

  /** A usage that is not out of date is the last one, and knows the context window it came with or else, unless it is one run's own, the one known. */
  lemma UsageShows(s: Session, r: string, usage: Usage, message: Option<MessageInput>)
    ensures var t := ReduceRuntimeEvent(s, UsageUpdated(r, usage), message);
            if !Active(s, r) || Outdated(s.sessionUsage, usage, true) then t == s else ShowsUsage(s, t, usage)
    ensures var t := ApplyTokenUsage(s, usage, false);
            if Outdated(s.sessionUsage, usage, false) then t == s else ShowsUsage(s, t, usage)
  {
  }

  predicate ShowsUsage(s: Session, t: Session, usage: Usage) {
    var window := if usage.contextWindow.Some? then usage.contextWindow else if usage.scope == RunScope then None else s.runtimeWindow;
    && t.tokenUsage == Some(usage.(contextWindow := window))
    && t.sessionUsage.Some? && (usage.scope == SessionScope ==> t.sessionUsage == t.tokenUsage)
    && t.runtimeWindow == (if window.Some? then window else s.runtimeWindow)
    && t.timeline == s.timeline && t.activeRun == s.activeRun && t.pendingInterrupt == s.pendingInterrupt
  }

  /** The session's totals keep the latest input count and context window that were reported. */
  lemma TotalsRemember(held: Option<Usage>, usage: Usage, window: Option<nat>)
    requires usage.scope != SessionScope
    ensures var total := Accumulated(held, usage, window);
            && total.scope == SessionScope && total.epoch.None? && total.revision.None?
            && (usage.latest.Some? ==> total.latest == usage.latest)
            && (usage.latest.None? ==> total.latest == if held.Some? then held.value.latest else None)
            && (usage.contextWindow.Some? ==> total.contextWindow == usage.contextWindow)
            && (usage.contextWindow.None? ==>
                  total.contextWindow == if held.Some? && held.value.contextWindow.Some? then held.value.contextWindow else window)
            && (total.eligible.Some? <==> total.cached.Some?)
            && (total.cached.Some? <==> (held.Some? && held.value.cached.Some?) || usage.cached.Some?)
            && (total.eligible.Some? ==> total.eligible.value == (if held.Some? then Count(held.value.eligible) else 0) + Count(usage.eligible))
  {
  }
}

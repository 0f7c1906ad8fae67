/**
 The Console's view of a Channel: opening, refreshing, reading later and earlier pages,
 all in flight together over logs that grow. A window has a token of its own, and a read
 that was started for another window is dropped.
 */
module ChannelView {
  import opened History
  import opened ChannelLog
  import opened Options

  const PAGE_LIMIT := 100
  const LATER_LIMIT := 200

  datatype Window = Window(channel: string, token: nat, nextAfter: int, nextBefore: int, hasEarlier: bool)

  datatype Loader =
    | OpenAsked(channel: string)
    | OpenRead(channel: string, page: Page)
    | LaterReading(readFor: Window, after: int, entries: seq<int>)
    | LaterRead(readFor: Window, after: int, entries: seq<int>)

  datatype Earlier = NoEarlier | EarlierAsked(wanted: Window) | EarlierRead(wanted: Window, page: Page)

  /** `shown` is the Channel whose messages are on the screen, held or forgotten. */
  datatype State = State(
    logs: map<string, seq<int>>, held: Option<Window>, shown: string, messages: seq<int>, tokens: nat,
    loaders: map<nat, Loader>, earlier: Earlier)

  datatype Action =
    | Post(channel: string, sequence: int)
    | Open(id: nat, channel: string)
    | Later(id: nat)
    | Answer(id: nat)
    | Apply(id: nat)
    | Drop(id: nat)
    | StartEarlier
    | AnswerEarlier
    | ApplyEarlier
    | DropEarlier
    | Leave
    | Forget

  function LogOf(logs: map<string, seq<int>>, channel: string): seq<int> {
    if channel in logs then logs[channel] else []
  }

  function Largest(a: int, b: int): int { if a < b then b else a }

  /** After reading newer messages only the newer edge moves; nothing when the read is stale. */
  function AfterLater(current: Option<Window>, readFor: Window, nextAfter: int): Option<Window> {
    if current.None? || current.value.token != readFor.token then None
    else Some(current.value.(nextAfter := Largest(current.value.nextAfter, nextAfter)))
  }

  /** After reading an older page only the older edge moves; nothing when the read is stale. */
  function AfterEarlier(current: Option<Window>, readFor: Window, page: Page): Option<Window> {
    if current.None? || current.value.token != readFor.token then None
    else Some(current.value.(nextBefore := page.nextBefore, hasEarlier := page.hasEarlier))
  }

  predicate CanDo(s: State, a: Action) {
    match a
    case Post(channel, sequence) => sequence > Reach(LogOf(s.logs, channel))
    case Open(id, _) => id !in s.loaders
    case Later(id) => id !in s.loaders && s.held.Some?
    case Answer(id) => id in s.loaders && (s.loaders[id].OpenAsked? || s.loaders[id].LaterReading?)
    case Apply(id) => id in s.loaders && (s.loaders[id].OpenRead? || s.loaders[id].LaterRead?)
    case Drop(id) => id in s.loaders
    case StartEarlier => s.earlier == NoEarlier && s.held.Some? && s.held.value.hasEarlier
    case AnswerEarlier => s.earlier.EarlierAsked?
    case ApplyEarlier => s.earlier.EarlierRead?
    case DropEarlier => true
    case Leave => true
    case Forget => true
  }

  function Answered(logs: map<string, seq<int>>, l: Loader): Loader
    requires l.OpenAsked? || l.LaterReading?
  {
    match l
    case OpenAsked(channel) => OpenRead(channel, NewestPage(LogOf(logs, channel), PAGE_LIMIT))
    case LaterReading(readFor, after, entries) =>
      var page := PageAfter(LogOf(logs, readFor.channel), after, LATER_LIMIT);
      if page.hasMore then LaterReading(readFor, page.nextAfter, entries + page.items)
      else LaterRead(readFor, page.nextAfter, entries + page.items)
  }

  function Shown(s: State, l: Loader): State
    requires l.OpenRead? || l.LaterRead?
  {
    match l
    case OpenRead(channel, page) =>
      s.(tokens := s.tokens + 1, shown := channel, messages := page.items,
         held := Some(Window(channel, s.tokens + 1, page.nextAfter, page.nextBefore, page.hasEarlier)))
    case LaterRead(readFor, nextAfter, entries) =>
      var next := AfterLater(s.held, readFor, nextAfter);
      if next.None? then s else s.(held := next, messages := Merge(s.messages, entries))
  }

  function ShownEarlier(s: State): State
    requires s.earlier.EarlierRead?
  {
    var next := AfterEarlier(s.held, s.earlier.wanted, s.earlier.page);
    var t := s.(earlier := NoEarlier);
    if next.None? then t else t.(held := next, messages := Merge(s.earlier.page.items, s.messages))
  }

  function Do(s: State, a: Action): State
    requires CanDo(s, a)
  {
    match a
    case Post(channel, sequence) => s.(logs := s.logs[channel := LogOf(s.logs, channel) + [sequence]])
    case Open(id, channel) => s.(loaders := s.loaders[id := OpenAsked(channel)])
    case Later(id) => s.(loaders := s.loaders[id := LaterReading(s.held.value, s.held.value.nextAfter, [])])
    case Answer(id) => s.(loaders := s.loaders[id := Answered(s.logs, s.loaders[id])])
    case Apply(id) => Shown(s.(loaders := s.loaders - {id}), s.loaders[id])
    case Drop(id) => s.(loaders := s.loaders - {id})
    case StartEarlier => s.(earlier := EarlierAsked(s.held.value))
    case AnswerEarlier =>
      var w := s.earlier.wanted;
      s.(earlier := EarlierRead(w, PageBefore(LogOf(s.logs, w.channel), w.nextBefore, PAGE_LIMIT)))
    case ApplyEarlier => ShownEarlier(s)
    case DropEarlier => s.(earlier := NoEarlier)
    case Leave => s.(held := None, messages := [])
    case Forget => s.(held := None)
  }

  /** An action that cannot happen leaves everything as it is. */
  function Next(s: State, a: Action): State {
    if CanDo(s, a) then Do(s, a) else s
  }

  // -------------------------------------------------------------- invariant

  /** The messages of the log from one cursor to the other, and nothing else. */
  predicate Segment(log: seq<int>, messages: seq<int>, nextBefore: int, nextAfter: int) {
    1 <= nextBefore <= nextAfter + 1 <= Reach(log) + 1 && messages == Between(log, nextBefore, nextAfter)
  }

  ghost predicate LogsOk(logs: map<string, seq<int>>) {
    forall c :: c in logs ==> IsLog(logs[c])
  }

  predicate HeldOk(logs: map<string, seq<int>>, w: Window, messages: seq<int>) {
    && Segment(LogOf(logs, w.channel), messages, w.nextBefore, w.nextAfter)
    && (w.hasEarlier <==> Before(LogOf(logs, w.channel), w.nextBefore) > 0)
  }

  /** While its window is still held, a read's own edges have only been passed outwards. */
  predicate Linked(held: Option<Window>, readFor: Window) {
    held.Some? && held.value.token == readFor.token ==>
      && held.value.channel == readFor.channel
      && held.value.nextBefore <= readFor.nextBefore && readFor.nextAfter <= held.value.nextAfter
  }

  predicate LoaderOk(logs: map<string, seq<int>>, l: Loader) {
    match l
    case OpenAsked(_) => true
    case OpenRead(channel, page) =>
      && Segment(LogOf(logs, channel), page.items, page.nextBefore, page.nextAfter)
      && (page.hasEarlier <==> Before(LogOf(logs, channel), page.nextBefore) > 0)
    case LaterReading(w, after, entries) => LaterOk(LogOf(logs, w.channel), w, after, entries)
    case LaterRead(w, after, entries) => LaterOk(LogOf(logs, w.channel), w, after, entries)
  }

  predicate LaterOk(log: seq<int>, w: Window, after: int, entries: seq<int>) {
    1 <= w.nextBefore <= w.nextAfter + 1 && w.nextAfter <= after && Segment(log, entries, w.nextAfter + 1, after)
  }

  predicate EarlierOk(logs: map<string, seq<int>>, e: Earlier) {
    match e
    case NoEarlier => true
    case EarlierAsked(w) => 1 <= w.nextBefore <= Reach(LogOf(logs, w.channel)) + 1
    case EarlierRead(w, page) =>
      && Segment(LogOf(logs, w.channel), page.items, page.nextBefore, w.nextBefore - 1)
      && (page.hasEarlier <==> Before(LogOf(logs, w.channel), page.nextBefore) > 0)
  }

  ghost predicate LoadersOk(s: State) {
    forall id :: id in s.loaders ==> LoaderOk(s.logs, s.loaders[id])
  }

  predicate IsLater(l: Loader) { l.LaterReading? || l.LaterRead? }

  ghost predicate LinksOk(s: State) {
    && (forall id :: id in s.loaders && IsLater(s.loaders[id]) ==>
          Linked(s.held, s.loaders[id].readFor) && s.loaders[id].readFor.token <= s.tokens)
    && (s.earlier != NoEarlier ==>
          && s.earlier.wanted.token <= s.tokens
          && (s.held.Some? && s.held.value.token == s.earlier.wanted.token ==>
                s.held.value.channel == s.earlier.wanted.channel && s.held.value.nextBefore == s.earlier.wanted.nextBefore))
    && (s.held.Some? ==> s.held.value.token <= s.tokens)
  }

  /** What the view shows is a segment of one Channel's log, with the held window at its edges. */
  ghost predicate ViewOk(s: State) {
    if s.held.Some? then s.shown == s.held.value.channel && HeldOk(s.logs, s.held.value, s.messages)
    else exists from, to :: Segment(LogOf(s.logs, s.shown), s.messages, from, to)
  }

  ghost predicate Inv(s: State) {
    LogsOk(s.logs) && LoadersOk(s) && EarlierOk(s.logs, s.earlier) && LinksOk(s) && ViewOk(s)
  }

  lemma LogIsLog(logs: map<string, seq<int>>, channel: string)
    requires LogsOk(logs)
    ensures IsLog(LogOf(logs, channel))
  {
  }

  // ---------------------------------------------------------- growing logs

  lemma SegmentStays(log: seq<int>, later: seq<int>, messages: seq<int>, nb: int, na: int)
    requires Grown(log, later) && Segment(log, messages, nb, na)
    ensures Segment(later, messages, nb, na) && Before(later, nb) == Before(log, nb)
  {
    hide Before; hide Between;
    BetweenStays(log, later, nb, na);
    BeforeStays(log, later, nb);
    ReachGrows(log, later);
  }

  lemma LoaderStays(logs: map<string, seq<int>>, more: map<string, seq<int>>, l: Loader)
    requires forall c :: Grown(LogOf(logs, c), LogOf(more, c))
    requires LoaderOk(logs, l)
    ensures LoaderOk(more, l)
  {
    hide Grown; hide Segment; hide Before; hide LogOf;
    match l
    case OpenAsked(_) =>
    case OpenRead(channel, page) => SegmentStays(LogOf(logs, channel), LogOf(more, channel), page.items, page.nextBefore, page.nextAfter);
    case LaterReading(w, after, entries) => SegmentStays(LogOf(logs, w.channel), LogOf(more, w.channel), entries, w.nextAfter + 1, after);
    case LaterRead(w, after, entries) => SegmentStays(LogOf(logs, w.channel), LogOf(more, w.channel), entries, w.nextAfter + 1, after);
  }

  lemma EarlierStays(logs: map<string, seq<int>>, more: map<string, seq<int>>, e: Earlier)
    requires forall c :: Grown(LogOf(logs, c), LogOf(more, c))
    requires EarlierOk(logs, e)
    ensures EarlierOk(more, e)
  {
    match e
    case NoEarlier =>
    case EarlierAsked(w) => ReachGrows(LogOf(logs, w.channel), LogOf(more, w.channel));
    case EarlierRead(w, page) => SegmentStays(LogOf(logs, w.channel), LogOf(more, w.channel), page.items, page.nextBefore, w.nextBefore - 1);
  }

  lemma ViewStays(s: State, more: map<string, seq<int>>)
    requires forall c :: Grown(LogOf(s.logs, c), LogOf(more, c))
    requires ViewOk(s)
    ensures ViewOk(s.(logs := more))
  {
    hide Before; hide Segment; hide LogOf;
    if s.held.Some? {
      var w := s.held.value;
      SegmentStays(LogOf(s.logs, w.channel), LogOf(more, w.channel), s.messages, w.nextBefore, w.nextAfter);
    } else {
      var from, to :| Segment(LogOf(s.logs, s.shown), s.messages, from, to);
      SegmentStays(LogOf(s.logs, s.shown), LogOf(more, s.shown), s.messages, from, to);
    }
  }

  lemma PostKeepsInv(s: State, channel: string, sequence: int)
    requires Inv(s) && CanDo(s, Post(channel, sequence))
    ensures Inv(Do(s, Post(channel, sequence)))
  {
    var t := Do(s, Post(channel, sequence));
    forall c ensures Grown(LogOf(s.logs, c), LogOf(t.logs, c)) { LogIsLog(s.logs, c); LogIsLog(s.logs, channel); }
    assert LogsOk(t.logs) by { LogIsLog(s.logs, channel); }
    ViewStays(s, t.logs);
    EarlierStays(s.logs, t.logs, s.earlier);
    hide LogOf; hide LoaderOk; hide Grown; hide EarlierOk;
    forall id | id in s.loaders ensures LoaderOk(t.logs, s.loaders[id]) { LoaderStays(s.logs, t.logs, s.loaders[id]); }
  }

  // -------------------------------------------------------------- the reads

  lemma NewestIsSegment(log: seq<int>)
    requires IsLog(log)
    ensures var page := NewestPage(log, PAGE_LIMIT);
            Segment(log, page.items, page.nextBefore, page.nextAfter) && (page.hasEarlier <==> Before(log, page.nextBefore) > 0)
  {
    NewestIsSlice(log, PAGE_LIMIT);
    hide Before; hide Between;
  }

  lemma EarlierIsSegment(log: seq<int>, before: int)
    requires IsLog(log) && 1 <= before <= Reach(log) + 1
    ensures var page := PageBefore(log, before, PAGE_LIMIT);
            Segment(log, page.items, page.nextBefore, before - 1) && (page.hasEarlier <==> Before(log, page.nextBefore) > 0)
  {
    UpToIsSlice(log, Before(log, before), before, PAGE_LIMIT);
    hide Before; hide Between;
  }

  lemma LaterGoesOn(log: seq<int>, w: Window, after: int, entries: seq<int>)
    requires IsLog(log) && LaterOk(log, w, after, entries)
    ensures var page := PageAfter(log, after, LATER_LIMIT); LaterOk(log, w, page.nextAfter, entries + page.items)
  {
    PageExtends(log, log, w.nextAfter, after);
    hide Before; hide Between; hide PageAfter;
  }

  /** A reader starts, or has one more answer. */
  lemma LoaderKeepsInv(s: State, id: nat, l: Loader)
    requires Inv(s) && LoaderOk(s.logs, l) && (IsLater(l) ==> Linked(s.held, l.readFor) && l.readFor.token <= s.tokens)
    ensures Inv(s.(loaders := s.loaders[id := l]))
  {
    hide LoaderOk; hide HeldOk; hide EarlierOk; hide Linked; hide Segment; hide LogOf; hide IsLater;
  }

  lemma AnswerIsOk(logs: map<string, seq<int>>, l: Loader)
    requires LogsOk(logs) && LoaderOk(logs, l) && (l.OpenAsked? || l.LaterReading?)
    ensures LoaderOk(logs, Answered(logs, l))
    ensures IsLater(Answered(logs, l)) ==> IsLater(l) && Answered(logs, l).readFor == l.readFor
  {
    hide Segment; hide LogOf; hide Before; hide LaterOk; hide NewestPage; hide PageAfter;
    match l
    case OpenAsked(channel) => LogIsLog(logs, channel); NewestIsSegment(LogOf(logs, channel));
    case LaterReading(w, after, entries) => LogIsLog(logs, w.channel); LaterGoesOn(LogOf(logs, w.channel), w, after, entries);
  }

  lemma AnswerKeepsInv(s: State, id: nat)
    requires Inv(s) && CanDo(s, Answer(id))
    ensures Inv(Do(s, Answer(id)))
  {
    LoaderFacts(s, id);
    hide LoaderOk; hide Answered; hide LinksOk; hide ViewOk; hide EarlierOk; hide Linked;
    AnswerIsOk(s.logs, s.loaders[id]);
    LoaderKeepsInv(s, id, Answered(s.logs, s.loaders[id]));
  }

  lemma EarlierAnswerOk(logs: map<string, seq<int>>, w: Window)
    requires LogsOk(logs) && EarlierOk(logs, EarlierAsked(w))
    ensures EarlierOk(logs, EarlierRead(w, PageBefore(LogOf(logs, w.channel), w.nextBefore, PAGE_LIMIT)))
  {
    LogIsLog(logs, w.channel);
    EarlierIsSegment(LogOf(logs, w.channel), w.nextBefore);
    hide Before; hide Segment; hide PageBefore; hide LogOf;
  }

  lemma AnswerEarlierKeepsInv(s: State)
    requires Inv(s) && CanDo(s, AnswerEarlier)
    ensures Inv(Do(s, AnswerEarlier))
  {
    hide EarlierOk; hide Before; hide Segment; hide PageBefore; hide LogOf; hide LoaderOk; hide Linked;
    EarlierAnswerOk(s.logs, s.earlier.wanted);
  }

  // ------------------------------------------------------- what is shown

  /** Newer messages, read from where the window reached, join on. */
  lemma LaterJoins(log: seq<int>, messages: seq<int>, w: Window, readFor: Window, after: int, entries: seq<int>)
    requires IsLog(log) && Segment(log, messages, w.nextBefore, w.nextAfter)
    requires LaterOk(log, readFor, after, entries) && w.nextBefore <= readFor.nextBefore && readFor.nextAfter <= w.nextAfter
    ensures Segment(log, Merge(messages, entries), w.nextBefore, Largest(w.nextAfter, after))
  {
    hide Before; hide Merge;
    var f, last := readFor.nextAfter, Largest(w.nextAfter, after);
    BeforeMonotone(log, w.nextBefore, f + 1);
    BeforeMonotone(log, f + 1, w.nextAfter + 1);
    BeforeMonotone(log, f + 1, after + 1);
    if w.nextAfter < after { BeforeMonotone(log, w.nextAfter + 1, after + 1); } else { BeforeMonotone(log, after + 1, w.nextAfter + 1); }
    MergeStretches(log, Before(log, w.nextBefore), Before(log, w.nextAfter + 1), Before(log, f + 1), Before(log, after + 1));
  }

  /** Older messages, read from where the window begins, join on before it. */
  lemma EarlierJoins(log: seq<int>, messages: seq<int>, w: Window, items: seq<int>, from: int)
    requires IsLog(log) && Segment(log, messages, w.nextBefore, w.nextAfter) && Segment(log, items, from, w.nextBefore - 1)
    ensures Segment(log, Merge(items, messages), from, w.nextAfter)
  {
    hide Before; hide Merge;
    BeforeMonotone(log, from, w.nextBefore);
    BeforeMonotone(log, w.nextBefore, w.nextAfter + 1);
    MergeStretches(log, Before(log, from), Before(log, w.nextBefore), Before(log, w.nextBefore), Before(log, w.nextAfter + 1));
  }

  lemma DroppedKeepsInv(s: State, id: nat)
    requires Inv(s)
    ensures Inv(s.(loaders := s.loaders - {id}))
  {
    hide LoaderOk; hide EarlierOk; hide Linked; hide HeldOk; hide Segment; hide LogOf;
  }

  lemma OpenShows(s: State, channel: string, page: Page)
    requires Inv(s) && LoaderOk(s.logs, OpenRead(channel, page))
    ensures Inv(Shown(s, OpenRead(channel, page)))
  {
    hide LoaderOk; hide EarlierOk; hide Segment; hide LogOf; hide Before;
    assert Segment(LogOf(s.logs, channel), page.items, page.nextBefore, page.nextAfter)
           && (page.hasEarlier <==> Before(LogOf(s.logs, channel), page.nextBefore) > 0) by { OpenIsOk(s.logs, channel, page); }
  }

  lemma OpenIsOk(logs: map<string, seq<int>>, channel: string, page: Page)
    requires LoaderOk(logs, OpenRead(channel, page))
    ensures Segment(LogOf(logs, channel), page.items, page.nextBefore, page.nextAfter)
            && (page.hasEarlier <==> Before(LogOf(logs, channel), page.nextBefore) > 0)
  {
  }

  lemma LaterShows(s: State, readFor: Window, after: int, entries: seq<int>)
    requires Inv(s) && LoaderOk(s.logs, LaterRead(readFor, after, entries)) && Linked(s.held, readFor)
    ensures Inv(Shown(s, LaterRead(readFor, after, entries)))
  {
    if AfterLater(s.held, readFor, after).Some? {
      var w := s.held.value;
      LogIsLog(s.logs, w.channel);
      LaterJoins(LogOf(s.logs, w.channel), s.messages, w, readFor, after, entries);
      hide LoaderOk; hide EarlierOk; hide Segment; hide LogOf; hide Before; hide Merge;
    }
  }

  lemma ApplyKeepsInv(s: State, id: nat)
    requires Inv(s) && CanDo(s, Apply(id))
    ensures Inv(Do(s, Apply(id)))
  {
    var l := s.loaders[id];
    DroppedKeepsInv(s, id);
    hide Inv; hide Shown;
    assert LoaderOk(s.logs, l) && (IsLater(l) ==> Linked(s.held, l.readFor)) by { LoaderFacts(s, id); }
    match l
    case OpenRead(channel, page) => OpenShows(s.(loaders := s.loaders - {id}), channel, page);
    case LaterRead(readFor, after, entries) => LaterShows(s.(loaders := s.loaders - {id}), readFor, after, entries);
  }

  lemma LoaderFacts(s: State, id: nat)
    requires Inv(s) && id in s.loaders
    ensures LoaderOk(s.logs, s.loaders[id])
    ensures IsLater(s.loaders[id]) ==> Linked(s.held, s.loaders[id].readFor) && s.loaders[id].readFor.token <= s.tokens
  {
  }

  lemma NoEarlierKeepsInv(s: State)
    requires Inv(s)
    ensures Inv(s.(earlier := NoEarlier))
  {
    hide LoaderOk; hide HeldOk; hide Linked; hide Segment; hide LogOf;
  }

  lemma EarlierShows(s: State, page: Page, readFor: Window)
    requires Inv(s) && EarlierOk(s.logs, EarlierRead(readFor, page)) && s.earlier == NoEarlier
    requires s.held.Some? && s.held.value.channel == readFor.channel && s.held.value.nextBefore == readFor.nextBefore
    ensures Inv(s.(held := Some(s.held.value.(nextBefore := page.nextBefore, hasEarlier := page.hasEarlier)), messages := Merge(page.items, s.messages)))
  {
    var w := s.held.value;
    LogIsLog(s.logs, w.channel);
    EarlierJoins(LogOf(s.logs, w.channel), s.messages, w, page.items, page.nextBefore);
    assert page.nextBefore <= w.nextBefore;
    hide LoaderOk; hide LogOf; hide Before; hide Merge; hide Segment;
  }

  lemma ApplyEarlierKeepsInv(s: State)
    requires Inv(s) && CanDo(s, ApplyEarlier)
    ensures Inv(Do(s, ApplyEarlier))
  {
    var readFor, page := s.earlier.wanted, s.earlier.page;
    NoEarlierKeepsInv(s);
    if AfterEarlier(s.held, readFor, page).Some? {
      assert s.held.value.channel == readFor.channel && s.held.value.nextBefore == readFor.nextBefore;
      hide Inv; hide EarlierOk;
      assert EarlierOk(s.logs, s.earlier) by { EarlierFact(s); }
      EarlierShows(s.(earlier := NoEarlier), page, readFor);
    }
  }

  lemma EarlierFact(s: State)
    requires Inv(s)
    ensures EarlierOk(s.logs, s.earlier)
  {
  }

  lemma LaterStartOk(s: State)
    requires Inv(s) && s.held.Some?
    ensures LoaderOk(s.logs, LaterReading(s.held.value, s.held.value.nextAfter, []))
    ensures Linked(s.held, s.held.value) && s.held.value.token <= s.tokens
  {
    NothingBetween(LogOf(s.logs, s.held.value.channel), s.held.value.nextAfter);
    hide Before; hide Between; hide LogOf;
  }

  lemma StartKeepsInv(s: State, a: Action)
    requires Inv(s) && CanDo(s, a) && (a.Open? || a.Later?)
    ensures Inv(Do(s, a))
  {
    hide Inv; hide Linked;
    if a.Later? {
      LaterStartOk(s);
      LoaderKeepsInv(s, a.id, LaterReading(s.held.value, s.held.value.nextAfter, []));
    } else {
      LoaderKeepsInv(s, a.id, OpenAsked(a.channel));
    }
  }

  lemma EarlierStartKeepsInv(s: State)
    requires Inv(s) && CanDo(s, StartEarlier)
    ensures Inv(Do(s, StartEarlier))
  {
    hide LoaderOk; hide Linked; hide LogOf; hide Before; hide Between;
  }

  lemma LeaveKeepsInv(s: State, a: Action)
    requires Inv(s) && (a.Leave? || a.Forget? || a.DropEarlier?)
    ensures Inv(Do(s, a))
  {
    hide LoaderOk; hide LogOf; hide Before; hide Segment; hide Between;
    if a.Leave? {
      NothingShown(s.logs, s.shown);
    } else if a.Forget? && s.held.Some? {
      assert Segment(LogOf(s.logs, s.shown), s.messages, s.held.value.nextBefore, s.held.value.nextAfter);
    }
  }

  lemma NothingShown(logs: map<string, seq<int>>, channel: string)
    requires LogsOk(logs)
    ensures Segment(LogOf(logs, channel), [], 1, 0)
  {
    NothingBetween(LogOf(logs, channel), 0);
    LogIsLog(logs, channel);
    ReachIsNatural(LogOf(logs, channel));
  }

  lemma ReachIsNatural(log: seq<int>)
    requires IsLog(log)
    ensures Reach(log) >= 0
  {
  }

  lemma DoKeepsInv(s: State, a: Action)
    requires Inv(s) && CanDo(s, a)
    ensures Inv(Do(s, a))
  {
    hide Inv; hide Shown; hide ShownEarlier; hide Answered;
    match a
    case Post(channel, sequence) => PostKeepsInv(s, channel, sequence);
    case Answer(id) => AnswerKeepsInv(s, id);
    case Apply(id) => ApplyKeepsInv(s, id);
    case Drop(id) => DroppedKeepsInv(s, id);
    case AnswerEarlier => AnswerEarlierKeepsInv(s);
    case ApplyEarlier => ApplyEarlierKeepsInv(s);
    case Open(_, _) => StartKeepsInv(s, a);
    case Later(_) => StartKeepsInv(s, a);
    case StartEarlier => EarlierStartKeepsInv(s);
    case _ => LeaveKeepsInv(s, a);
  }

  lemma RunKeepsInv(s: State, actions: seq<Action>)
    requires Inv(s)
    ensures Inv(After(Next, s, actions))
  {
    hide Inv; hide CanDo; hide Do;
    forall x, a | Inv(x) ensures Inv(Next(x, a)) {
      if CanDo(x, a) { DoKeepsInv(x, a); }
    }
    AfterKeeps(Next, Inv, s, actions);
  }

  const Nothing := State(map[], None, "", [], 0, map[], NoEarlier)

  /**
   Whatever is opened, refreshed, read later or earlier, answered late or dropped while
   messages are posted: what the view shows is without a gap or a repetition, in order,
   exactly the stretch of one Channel's log between the edges of the window it holds.
   */
  lemma ViewIsSegment(actions: seq<Action>, t: State)
    requires t == After(Next, Nothing, actions)
    ensures Ascending(t.messages)
    ensures t.held.Some? ==>
              var w := t.held.value;
              && t.shown == w.channel && t.messages == Between(LogOf(t.logs, w.channel), w.nextBefore, w.nextAfter)
              && (w.hasEarlier <==> Before(LogOf(t.logs, w.channel), w.nextBefore) > 0)
    ensures forall x :: x in LogOf(t.logs, t.shown) && t.messages != [] && t.messages[0] <= x <= t.messages[|t.messages| - 1] ==> x in t.messages
  {
    StartsOk();
    RunKeepsInv(Nothing, actions);
    LogIsLog(t.logs, t.shown);
    var from, to := ShownBetween(t);
    SegmentIsWhole(LogOf(t.logs, t.shown), t.messages, from, to);
  }

  lemma StartsOk()
    ensures Inv(Nothing)
  {
    assert Segment(LogOf(Nothing.logs, Nothing.shown), Nothing.messages, 1, 0);
  }

  lemma ShownBetween(s: State) returns (from: int, to: int)
    requires Inv(s)
    ensures Segment(LogOf(s.logs, s.shown), s.messages, from, to)
  {
    if s.held.Some? {
      from, to := s.held.value.nextBefore, s.held.value.nextAfter;
    } else {
      from, to :| Segment(LogOf(s.logs, s.shown), s.messages, from, to);
    }
  }

  lemma SegmentIsWhole(log: seq<int>, messages: seq<int>, from: int, to: int)
    requires IsLog(log) && Segment(log, messages, from, to)
    ensures Ascending(messages)
    ensures forall x :: x in log && messages != [] && messages[0] <= x <= messages[|messages| - 1] ==> x in messages
  {
    var a, b := Before(log, from), Before(log, to + 1);
    BeforeMonotone(log, from, to + 1);
    forall x | x in log && messages != [] && messages[0] <= x <= messages[|messages| - 1] ensures x in messages {
      var i :| 0 <= i < |log| && log[i] == x;
      assert log[a] == messages[0] && log[b - 1] == messages[|messages| - 1];
      assert a <= i < b;
      assert messages[i - a] == x;
    }
  }

  // ------------------------------------------------ what each read does show

  /** The view holds the window a read was for. */
  predicate StillFor(s: State, readFor: Window) {
    s.held.Some? && s.held.value.token == readFor.token
  }

  /** Only the messages, the held window and the reader itself may have changed. */
  predicate OnlyShows(s: State, t: State) {
    t == s.(held := t.held, shown := t.shown, messages := t.messages, tokens := t.tokens, loaders := t.loaders, earlier := t.earlier)
  }

  /**
   A later read that is applied while its window is held moves the newer edge to its
   cursor, unless that was passed already, and shows every message it read beside those
   shown before, and no others. For another window it changes nothing.
   */
  lemma LaterApplies(s: State, id: nat)
    requires Inv(s) && id in s.loaders && s.loaders[id].LaterRead?
    ensures var l, t := s.loaders[id], Next(s, Apply(id));
            && OnlyShows(s, t) && t.loaders == s.loaders - {id} && t.earlier == s.earlier && t.tokens == s.tokens && t.shown == s.shown
            && if StillFor(s, l.readFor) then
                 && t.held.Some? && t.held.value == s.held.value.(nextAfter := t.held.value.nextAfter)
                 && t.held.value.nextAfter >= s.held.value.nextAfter && t.held.value.nextAfter >= l.after
                 && (t.held.value.nextAfter == s.held.value.nextAfter || t.held.value.nextAfter == l.after)
                 && (forall x :: x in t.messages <==> x in s.messages || x in l.entries)
               else t.held == s.held && t.messages == s.messages
  {
    var l := s.loaders[id];
    hide Inv; hide LogOf; hide Merge;
    MergeHolds(s.messages, l.entries);
  }

  lemma MergeHolds(a: seq<int>, b: seq<int>)
    ensures forall x :: x in Merge(a, b) <==> x in a || x in b
  {
    SortedSorts(a + b);
  }

  /** Likewise an earlier page moves the older edge to where it begins, and says whether there is more before. */
  lemma EarlierApplies(s: State)
    requires Inv(s) && s.earlier.EarlierRead?
    ensures var wanted, page, t := s.earlier.wanted, s.earlier.page, Next(s, ApplyEarlier);
            && OnlyShows(s, t) && t.loaders == s.loaders && t.earlier == NoEarlier && t.tokens == s.tokens && t.shown == s.shown
            && if StillFor(s, wanted) then
                 && t.held == Some(s.held.value.(nextBefore := page.nextBefore, hasEarlier := page.hasEarlier))
                 && (forall x :: x in t.messages <==> x in s.messages || x in page.items)
               else t.held == s.held && t.messages == s.messages
  {
    hide Inv; hide LogOf; hide Merge;
    MergeHolds(s.earlier.page.items, s.messages);
  }

  /** An opening shows its page alone, and holds a window that no read in flight was for. */
  lemma OpenApplies(s: State, id: nat)
    requires Inv(s) && id in s.loaders && s.loaders[id].OpenRead?
    ensures var l, t := s.loaders[id], Next(s, Apply(id));
            && OnlyShows(s, t) && t.loaders == s.loaders - {id} && t.earlier == s.earlier
            && t.shown == l.channel && t.messages == l.page.items
            && t.held.Some? && t.held.value.channel == l.channel
            && t.held.value.nextAfter == l.page.nextAfter && t.held.value.nextBefore == l.page.nextBefore && t.held.value.hasEarlier == l.page.hasEarlier
            && (forall other :: other in t.loaders && IsLater(t.loaders[other]) ==> !StillFor(t, t.loaders[other].readFor))
            && (t.earlier != NoEarlier ==> !StillFor(t, t.earlier.wanted))
  {
    hide LoaderOk; hide EarlierOk; hide ViewOk; hide LogsOk; hide LogOf;
  }

  /** A message posted is the last of its Channel's log, and no other log changes. */
  lemma PostAppends(s: State, channel: string, sequence: int)
    requires CanDo(s, Post(channel, sequence))
    ensures var t := Next(s, Post(channel, sequence));
            && LogOf(t.logs, channel) == LogOf(s.logs, channel) + [sequence]
            && (forall other :: other != channel ==> LogOf(t.logs, other) == LogOf(s.logs, other))
            && t == s.(logs := t.logs)
  {
  }

  /** Leaving forgets what was shown, forgetting only where it reached. */
  lemma LeavesAndForgets(s: State)
    ensures Next(s, Leave) == s.(held := None, messages := [])
    ensures Next(s, Forget) == s.(held := None)
    ensures Next(s, DropEarlier) == s.(earlier := NoEarlier)
  {
  }

  // ------------------------------------------- reads that nothing comes between

  lemma NextKeepsInv(s: State, a: Action)
    requires Inv(s)
    ensures Inv(Next(s, a))
  {
    hide Inv; hide Do; hide CanDo;
    if CanDo(s, a) { DoKeepsInv(s, a); }
  }

  /** How far a log goes beyond a cursor. */
  function Beyond(log: seq<int>, after: int): nat {
    |log| - Before(log, after + 1)
  }

  /** One answer to a later read: the cursor moves on, and the read is over just when it has reached the log's end. */
  lemma AnswerMoves(s: State, id: nat)
    requires Inv(s) && id in s.loaders && s.loaders[id].LaterReading?
    ensures var l, m := s.loaders[id], Next(s, Answer(id)).loaders[id];
            var log := LogOf(s.logs, l.readFor.channel);
            && Next(s, Answer(id)) == s.(loaders := s.loaders[id := m])
            && IsLater(m) && m.readFor == l.readFor
            && (m.LaterRead? <==> Beyond(log, m.after) == 0)
            && (m.LaterReading? ==> Beyond(log, m.after) < Beyond(log, l.after))
  {
    var l := s.loaders[id];
    LogIsLog(s.logs, l.readFor.channel);
    AfterIsSlice(LogOf(s.logs, l.readFor.channel), l.after, LATER_LIMIT);
    PageEnds(LogOf(s.logs, l.readFor.channel), l.after, LATER_LIMIT);
    hide Inv; hide LogOf; hide Before; hide PageAfter;
  }

  /** More is to come just when the page does not reach the log's end. */
  lemma PageEnds(log: seq<int>, after: int, limit: nat)
    requires IsLog(log) && limit > 0
    ensures var page := PageAfter(log, after, limit); page.hasMore <==> Before(log, page.nextAfter + 1) < |log|
  {
    AfterIsSlice(log, after, limit);
  }

  /** A later read that goes on undisturbed comes to the log's end. */
  lemma {:induction false} LaterReadEnds(s: State, id: nat) returns (answers: seq<Action>)
    requires Inv(s) && id in s.loaders && s.loaders[id].LaterReading?
    ensures var t := After(Next, s, answers);
            && Inv(t) && id in t.loaders && t == s.(loaders := s.loaders[id := t.loaders[id]])
            && t.loaders[id].LaterRead? && t.loaders[id].readFor == s.loaders[id].readFor
            && Beyond(LogOf(s.logs, s.loaders[id].readFor.channel), t.loaders[id].after) == 0
    decreases Beyond(LogOf(s.logs, s.loaders[id].readFor.channel), s.loaders[id].after)
  {
    AnswerMoves(s, id);
    NextKeepsInv(s, Answer(id));
    var m := Next(s, Answer(id));
    hide Inv; hide Next; hide Beyond; hide LogOf;
    if m.loaders[id].LaterRead? {
      answers := [Answer(id)];
      AfterFirst(Next, s, answers);
      assert answers[1..] == [];
    } else {
      var more := LaterReadEnds(m, id);
      answers := [Answer(id)] + more;
      AfterFirst(Next, s, answers);
      assert answers[1..] == more;
    }
  }

  lemma WholeTail(log: seq<int>, messages: seq<int>, from: int, after: int)
    requires IsLog(log) && Segment(log, messages, from, after) && Beyond(log, after) == 0
    ensures forall x :: x in log && x >= from ==> x in messages
  {
    BeforeSplits(log, from);
    forall x | x in log && x >= from ensures x in messages {
      var i :| 0 <= i < |log| && log[i] == x;
      assert messages[i - Before(log, from)] == x;
    }
  }

  /**
   Undisturbed, a refresh shows everything: whatever the view of a Channel holds, a later
   read that is started, answered and applied with nothing in between shows every message
   of the log from the window's older edge on.
   */
  lemma RefreshShowsAll(s: State, id: nat) returns (actions: seq<Action>)
    requires Inv(s) && s.held.Some? && id !in s.loaders
    ensures var t, w := After(Next, s, actions), s.held.value;
            && t.logs == s.logs && t.held.Some? && t.held.value.channel == w.channel && t.held.value.nextBefore == w.nextBefore
            && t.messages == Between(LogOf(s.logs, w.channel), w.nextBefore, t.held.value.nextAfter)
            && (forall x :: x in LogOf(s.logs, w.channel) && x >= w.nextBefore ==> x in t.messages)
  {
    var w, started := s.held.value, Next(s, Later(id));
    NextKeepsInv(s, Later(id));
    var answers := LaterReadEnds(started, id);
    var read := After(Next, started, answers);
    LaterApplies(read, id);
    NextKeepsInv(read, Apply(id));
    var t := Next(read, Apply(id));
    actions := [Later(id)] + answers + [Apply(id)];
    AfterFirst(Next, s, [Later(id)] + answers);
    assert ([Later(id)] + answers)[1..] == answers;
    AfterNext(Next, s, [Later(id)] + answers, Apply(id));
    assert HeldOk(t.logs, t.held.value, t.messages) && LogsOk(t.logs);
    LogIsLog(t.logs, w.channel);
    hide Inv; hide Next; hide LogOf;
    var log := LogOf(s.logs, w.channel);
    BeyondShrinks(log, read.loaders[id].after, t.held.value.nextAfter);
    WholeTail(log, t.messages, w.nextBefore, t.held.value.nextAfter);
  }

  lemma BeyondShrinks(log: seq<int>, a: int, b: int)
    requires IsLog(log) && a <= b
    ensures Beyond(log, b) <= Beyond(log, a)
  {
    BeforeMonotone(log, a + 1, b + 1);
  }

  /** Undisturbed, an opening shows the newest messages of the log, a page of them. */
  lemma OpeningShows(s: State, id: nat, channel: string)
    requires Inv(s) && id !in s.loaders
    ensures var t, log := After(Next, s, [Open(id, channel), Answer(id), Apply(id)]), LogOf(s.logs, channel);
            && t.logs == s.logs && t.shown == channel && t.held.Some? && t.held.value.channel == channel
            && t.messages == log[if |log| < PAGE_LIMIT then 0 else |log| - PAGE_LIMIT..]
            && (t.held.value.hasEarlier <==> |log| > PAGE_LIMIT)
  {
    var log := LogOf(s.logs, channel);
    var a := Next(s, Open(id, channel));
    NextKeepsInv(s, Open(id, channel));
    var b := Next(a, Answer(id));
    NextKeepsInv(a, Answer(id));
    assert b.loaders[id] == OpenRead(channel, NewestPage(log, PAGE_LIMIT)) && b.logs == s.logs;
    OpenApplies(b, id);
    LogIsLog(s.logs, channel);
    NewestShown(log);
    ThreeSteps(s, Open(id, channel), Answer(id), Apply(id));
    hide Inv; hide Next; hide LogOf; hide NewestPage;
  }

  lemma NewestShown(log: seq<int>)
    requires IsLog(log)
    ensures var page := NewestPage(log, PAGE_LIMIT);
            page.items == log[if |log| < PAGE_LIMIT then 0 else |log| - PAGE_LIMIT..] && (page.hasEarlier <==> |log| > PAGE_LIMIT)
  {
  }

  lemma ThreeSteps(s: State, a: Action, b: Action, c: Action)
    ensures After(Next, s, [a, b, c]) == Next(Next(Next(s, a), b), c)
  {
    hide Next;
    AfterNext(Next, s, [], a);
    AfterNext(Next, s, [a], b);
    AfterNext(Next, s, [a, b], c);
    assert [] + [a] == [a] && [a] + [b] == [a, b] && [a, b] + [c] == [a, b, c];
  }

  lemma EarlierAnswers(s: State)
    requires Inv(s) && s.held.Some? && s.held.value.hasEarlier && s.earlier == NoEarlier
    ensures var b := Next(Next(s, StartEarlier), AnswerEarlier);
            && Inv(b) && b == s.(earlier := EarlierRead(s.held.value, PageBefore(LogOf(s.logs, s.held.value.channel), s.held.value.nextBefore, PAGE_LIMIT)))
  {
    NextKeepsInv(s, StartEarlier);
    NextKeepsInv(Next(s, StartEarlier), AnswerEarlier);
    hide Inv; hide LogOf; hide PageBefore;
  }

  /** What a held window's view is, before an earlier page and after it. */
  lemma ViewHeld(s: State)
    requires Inv(s) && s.held.Some?
    ensures var w := s.held.value; var log := LogOf(s.logs, w.channel);
            IsLog(log) && s.messages == Between(log, w.nextBefore, w.nextAfter) && w.nextBefore <= w.nextAfter + 1
  {
    assert HeldOk(s.logs, s.held.value, s.messages);
    LogIsLog(s.logs, s.held.value.channel);
  }

  lemma PageJoins(log: seq<int>, w: Window)
    requires IsLog(log) && w.nextBefore <= w.nextAfter + 1
    ensures var page := PageBefore(log, w.nextBefore, PAGE_LIMIT);
            Between(log, page.nextBefore, w.nextAfter) == page.items + Between(log, w.nextBefore, w.nextAfter)
  {
    PageShown(log, w.nextBefore);
    UpToIsSlice(log, Before(log, w.nextBefore), w.nextBefore, PAGE_LIMIT);
    hide PageBefore; hide PageUpTo; hide Between; hide Before;
    StretchExtends(log, PageBefore(log, w.nextBefore, PAGE_LIMIT).nextBefore, w.nextBefore, w.nextAfter);
  }

  /** Undisturbed, an earlier page shows up to a page more of the log before the older edge, and all of it when that is less. */
  lemma EarlierShowsMore(s: State)
    requires Inv(s) && s.held.Some? && s.held.value.hasEarlier && s.earlier == NoEarlier
    ensures var t, w := After(Next, s, [StartEarlier, AnswerEarlier, ApplyEarlier]), s.held.value;
            var log := LogOf(s.logs, w.channel);
            var before := Before(log, w.nextBefore);
            var from := if before < PAGE_LIMIT then 0 else before - PAGE_LIMIT;
            && t.logs == s.logs && t.held.Some? && t.held.value.channel == w.channel && t.held.value.nextAfter == w.nextAfter
            && t.messages == log[from..before] + s.messages
            && (t.held.value.hasEarlier <==> from > 0)
  {
    hide Inv; hide Next; hide LogOf; hide PageBefore; hide Between; hide Before; hide IsLog;
    var w, log := s.held.value, LogOf(s.logs, s.held.value.channel);
    var b := Next(Next(s, StartEarlier), AnswerEarlier);
    EarlierAnswers(s);
    EarlierApplies(b);
    NextKeepsInv(b, ApplyEarlier);
    ThreeSteps(s, StartEarlier, AnswerEarlier, ApplyEarlier);
    ViewHeld(s);
    ViewHeld(Next(b, ApplyEarlier));
    PageShown(log, w.nextBefore);
    PageJoins(log, w);
  }

  lemma PageShown(log: seq<int>, before: int)
    requires IsLog(log)
    ensures var page, n := PageBefore(log, before, PAGE_LIMIT), Before(log, before);
            var from := if n < PAGE_LIMIT then 0 else n - PAGE_LIMIT;
            page.items == log[from..n] && (page.hasEarlier <==> from > 0)
            && page == PageUpTo(log, n, before, PAGE_LIMIT)
  {
    hide Before;
  }

  lemma StretchExtends(log: seq<int>, a: int, b: int, c: int)
    requires IsLog(log) && a <= b <= c + 1
    ensures Between(log, a, c) == Between(log, a, b - 1) + Between(log, b, c)
  {
    BetweenJoins(log, a, b - 1, c);
  }
}

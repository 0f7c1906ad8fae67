/**
 The Studio core: dispatch with its idempotency records, and the start and stop of the
 Plugins, as one process among awaits. One action is what runs between two awaits.
 */
module StudioCore {
  import opened History
  import opened Options
  import opened Sequences

  /** The key of an idempotency record: who dispatches, to which Pet, under which key. */
  datatype Key = Key(source: string, pet: string, key: string)

  type Invocation = nat

  datatype Phase = Running | Accepted | Fulfilled | Rejected

  /** One admission; `ported` says the Pet accepted it, whatever became of it afterwards. */
  datatype Admission = Admission(key: Option<Key>, phase: Phase, ported: bool)

  datatype Activation = Idle | Restoring | Checking(next: nat) | Starting(current: nat) | Failing | Settled

  datatype Shutdown = NotCalled | Waiting | Leaving | Left

  /** stopStartedPlugins, then closeCore, run by a failed activation or by the shutdown. */
  datatype Teardown =
    | NoTeardown | Stopping(rest: seq<nat>, calling: bool) | Closing | ClosingPets | ClosingRecords

  /** The last four are history: a teardown began, starts entered, stops called, core closings. */
  datatype State = State(
    plugins: nat,
    records: map<Key, Invocation>, admissions: map<Invocation, Admission>,
    stopped: bool, busClosed: bool, coreClosed: bool,
    started: seq<nat>, activation: Activation, shutdown: Shutdown, teardown: Teardown,
    torn: bool, entered: seq<nat>, halted: seq<nat>, closes: nat)

  datatype Action =
    | Reserve(a: Invocation, key: Option<Key>)
    | PortAccept(a: Invocation)
    | PortReject(a: Invocation)
    | Notify(a: Invocation)
    | Release(a: Invocation)
    | Lifecycle(step: Step)

  datatype Step =
    | Activate | Restored(ok: bool) | CheckNext | StartReturned(ok: bool)
    | CallShutdown | ActivationOver
    | CallStop | StopReturned | CloseCore | PetsClosed(ok: bool) | ClearRecords

  // ------------------------------------------------------------- dispatch

  predicate CanDispatch(s: State, action: Action) {
    match action
    case Reserve(a, key) => !s.stopped && a !in s.admissions && (key.Some? ==> key.value !in s.records)
    case PortAccept(a) => a in s.admissions && s.admissions[a].phase == Running
    case PortReject(a) => a in s.admissions && s.admissions[a].phase == Running
    case Notify(a) => a in s.admissions && s.admissions[a].phase == Accepted
    case Release(a) => a in s.admissions && s.admissions[a].phase == Rejected
    case Lifecycle(_) => false
  }

  /**
   A dispatch finds no record and reserves its key before the port is awaited; a failed
   admission deletes its own record and no other.
   */
  function Dispatched(s: State, action: Action): State
    requires CanDispatch(s, action)
  {
    match action
    case Reserve(a, key) =>
      s.(admissions := s.admissions[a := Admission(key, Running, false)],
         records := if key.Some? then s.records[key.value := a] else s.records)
    case PortAccept(a) => s.(admissions := s.admissions[a := s.admissions[a].(phase := Accepted, ported := true)])
    case PortReject(a) => s.(admissions := s.admissions[a := s.admissions[a].(phase := Rejected)])
    case Notify(a) =>
      s.(admissions := s.admissions[a := s.admissions[a].(phase := if s.busClosed then Rejected else Fulfilled)])
    case Release(a) =>
      var key := s.admissions[a].key;
      if key.Some? && key.value in s.records && s.records[key.value] == a then s.(records := s.records - {key.value}) else s
  }

  // ------------------------------------------------------------ lifecycle

  predicate CanStep(s: State, step: Step) {
    match step
    case Activate => s.activation == Idle && !s.stopped
    case Restored(_) => s.activation == Restoring
    case CheckNext => s.activation.Checking?
    case StartReturned(_) => s.activation.Starting?
    case CallShutdown => s.shutdown == NotCalled
    case ActivationOver => s.shutdown == Waiting && (s.activation == Idle || s.activation == Settled)
    case CallStop => s.teardown.Stopping? && !s.teardown.calling && s.teardown.rest != []
    case StopReturned => s.teardown.Stopping? && s.teardown.calling && s.teardown.rest != []
    case CloseCore => s.teardown == Stopping([], false)
    case PetsClosed(_) => s.teardown == ClosingPets
    case ClearRecords => s.teardown == ClosingRecords
  }

  /** Both ways out take the list of started Plugins as it is, leaving it empty. */
  function TornDown(s: State): State {
    s.(stopped := true, torn := true, started := [], teardown := Stopping(Reverse(s.started), false))
  }

  /** The end of a teardown: whoever ran it is done. */
  function Ended(s: State): State {
    s.(teardown := NoTeardown,
       activation := if s.activation == Failing then Settled else s.activation,
       shutdown := if s.activation != Failing && s.shutdown == Leaving then Left else s.shutdown)
  }

  function Failed(s: State): State {
    TornDown(s).(activation := Failing)
  }

  function Stepped(s: State, step: Step): State
    requires CanStep(s, step)
  {
    match step
    case Activate => s.(activation := Restoring)
    case Restored(ok) => if ok then s.(activation := Checking(0)) else Failed(s)
    case CheckNext =>
      var i := s.activation.next;
      if i >= s.plugins then (if s.busClosed then Failed(s) else s.(activation := Settled))
      else if s.stopped then Failed(s)
      else s.(activation := Starting(i), started := s.started + [i], entered := s.entered + [i])
    case StartReturned(ok) => if ok then s.(activation := Checking(s.activation.current + 1)) else Failed(s)
    case CallShutdown => s.(stopped := true, shutdown := Waiting)
    case ActivationOver => TornDown(s).(shutdown := Leaving)
    case CallStop => s.(teardown := s.teardown.(calling := true), halted := s.halted + [s.teardown.rest[0]])
    case StopReturned => s.(teardown := Stopping(s.teardown.rest[1..], false))
    case CloseCore => if s.coreClosed then Ended(s) else s.(coreClosed := true, closes := s.closes + 1, teardown := ClosingPets)
    case PetsClosed(ok) => if ok then s.(busClosed := true, teardown := ClosingRecords) else Ended(s)
    case ClearRecords => Ended(s).(records := map[])
  }

  predicate CanDo(s: State, action: Action) {
    if action.Lifecycle? then CanStep(s, action.step) else CanDispatch(s, action)
  }

  function Do(s: State, action: Action): State
    requires CanDo(s, action)
  {
    if action.Lifecycle? then Stepped(s, action.step) else Dispatched(s, action)
  }

  ghost predicate Init(s: State) {
    s == State(s.plugins, map[], map[], false, false, false, [], Idle, NotCalled, NoTeardown, false, [], [], 0)
  }

  /** An action that cannot happen leaves everything as it is. */
  function Next(s: State, a: Action): State {
    if CanDo(s, a) then Do(s, a) else s
  }

  // -------------------------------------------------- one admission per key

  /** The admission may yet reach the Pet, or has. */
  predicate Holding(x: Admission) {
    x.phase != Rejected || x.ported
  }

  predicate Rivals(x: Admission, y: Admission) {
    x.key.Some? && x.key == y.key && Holding(x) && Holding(y)
  }

  ghost predicate Reserved(s: State) {
    && (forall k :: k in s.records ==> s.records[k] in s.admissions && s.admissions[s.records[k]].key == Some(k))
    && (forall a :: a in s.admissions && !s.stopped && Holding(s.admissions[a]) && s.admissions[a].key.Some?
          ==> s.admissions[a].key.value in s.records && s.records[s.admissions[a].key.value] == a)
    && (s.busClosed ==> s.stopped)
    && (forall a :: a in s.admissions && s.admissions[a].ported && s.admissions[a].phase == Rejected ==> s.stopped)
    && (forall a :: a in s.admissions && (s.admissions[a].phase == Accepted || s.admissions[a].phase == Fulfilled) ==> s.admissions[a].ported)
    && (forall a :: a in s.admissions && s.admissions[a].phase == Running ==> !s.admissions[a].ported)
  }

  ghost predicate Single(s: State) {
    forall a, b :: a in s.admissions && b in s.admissions && Rivals(s.admissions[a], s.admissions[b]) ==> a == b
  }

  lemma DispatchKeepsReserved(s: State, action: Action)
    requires CanDispatch(s, action) && Reserved(s)
    ensures Reserved(Dispatched(s, action))
  {
  }

  /**
   A key can only be reserved again while no admission under it can still reach the Pet.
   An admission whose announcement fails after the Pet accepted it releases its key too,
   but the announcement only fails on a closed bus, and then nothing is reserved any more.
   */
  lemma DispatchKeepsSingle(s: State, action: Action)
    requires CanDispatch(s, action) && Reserved(s) && Single(s)
    ensures Single(Dispatched(s, action))
  {
  }

  // ---------------------------------------------------- start and stop order

  /** While no teardown has begun, every Plugin whose start was entered is on the list. */
  predicate Up(s: State) {
    && s.started == s.entered && s.halted == [] && s.closes == 0 && !s.coreClosed && !s.busClosed
    && s.teardown == NoTeardown && s.shutdown != Leaving && s.shutdown != Left && s.activation != Failing
  }

  /** From then on the stops go down the list exactly once, and the core closes after them. */
  predicate Down(s: State) {
    && s.started == [] && s.stopped
    && (s.activation == Idle || s.activation == Failing || s.activation == Settled)
    && (s.teardown.NoTeardown? <==> s.activation != Failing && s.shutdown != Leaving)
    && (s.shutdown == Leaving || s.shutdown == Left ==> s.activation != Failing)
    && (s.activation == Idle ==> s.shutdown == Leaving || s.shutdown == Left)
    && (if s.teardown.Stopping? then
          && (s.teardown.calling ==> s.teardown.rest != [])
          && s.halted + (if s.teardown.calling then s.teardown.rest[1..] else s.teardown.rest) == Reverse(s.entered)
        else s.halted == Reverse(s.entered))
    && s.closes == (if s.coreClosed then 1 else 0)
    && (s.coreClosed && s.teardown.Stopping? ==> s.teardown == Stopping([], false))
    && (s.busClosed || s.teardown == ClosingPets || s.teardown == ClosingRecords ==> s.coreClosed)
    && (s.teardown.NoTeardown? ==> s.coreClosed)
  }

  ghost predicate Ordered(s: State) {
    && (forall i :: 0 <= i < |s.entered| ==> s.entered[i] == i)
    && |s.entered| <= s.plugins
    && (s.activation.Checking? ==> s.activation.next == |s.entered|)
    && (s.activation.Starting? ==> s.activation.current + 1 == |s.entered|)
    && (s.activation == Idle || s.activation == Restoring ==> s.entered == [])
    && (s.shutdown != NotCalled ==> s.stopped)
    && (s.stopped && !s.torn ==> s.shutdown != NotCalled)
    && (if s.torn then Down(s) else Up(s))
  }

  /** Where a failed activation or the shutdown takes over from. */
  lemma GoesDown(s: State)
    requires Ordered(s) && !s.torn
    requires s.activation != Idle
    ensures Ordered(Failed(s))
  {
    hide Reverse;
    assert [] + Reverse(s.started) == Reverse(s.started);
  }

  lemma LeavesDown(s: State)
    requires Ordered(s) && !s.torn && s.shutdown == Waiting && (s.activation == Idle || s.activation == Settled)
    ensures Ordered(TornDown(s).(shutdown := Leaving))
  {
    hide Reverse;
    assert [] + Reverse(s.started) == Reverse(s.started);
  }

  lemma UpSteps(s: State, step: Step)
    requires CanStep(s, step) && Ordered(s) && !s.torn
    ensures Ordered(Stepped(s, step))
  {
    if s.activation != Idle { GoesDown(s); }
    if step.ActivationOver? { LeavesDown(s); }
    hide Reverse; hide TornDown; hide Failed; hide Ended;
  }

  lemma DownSteps(s: State, step: Step)
    requires CanStep(s, step) && Ordered(s) && s.torn
    ensures Ordered(Stepped(s, step))
  {
    hide Reverse;
    assert Reverse<nat>([]) == [] by { ReverseNothing(); }
    assert s.halted + [] == s.halted;
    if step.CallStop? {
      assert (s.halted + [s.teardown.rest[0]]) + s.teardown.rest[1..] == s.halted + s.teardown.rest;
    }
  }

  lemma ReverseNothing()
    ensures Reverse<nat>([]) == []
  {
  }

  ghost predicate Inv(s: State) {
    Reserved(s) && Single(s) && Ordered(s)
  }

  /** What the ways out of a step leave alone. */
  lemma WaysOut(s: State)
    ensures forall t :: t == Failed(s) || t == TornDown(s) ==> t.admissions == s.admissions && t.records == s.records && t.entered == s.entered && t.stopped
    ensures var t := Ended(s); t.admissions == s.admissions && t.records == s.records && t.entered == s.entered && t.stopped == s.stopped && t.busClosed == s.busClosed
  {
    hide Reverse;
  }

  /** The lifecycle leaves the admissions alone, and clears the records only when it has stopped the Studio. */
  lemma StepFrame(s: State, step: Step)
    requires CanStep(s, step)
    ensures Stepped(s, step).admissions == s.admissions
    ensures Stepped(s, step).records == if step.ClearRecords? then map[] else s.records
  {
    WaysOut(s);
    hide Reverse; hide TornDown; hide Failed; hide Ended;
    match step
    case Activate =>
    case Restored(_) =>
    case CheckNext =>
    case StartReturned(_) =>
    case CallShutdown =>
    case ActivationOver =>
    case CallStop =>
    case StopReturned =>
    case CloseCore =>
    case PetsClosed(_) =>
    case ClearRecords =>
  }

  /** An admission keeps its key, and once fulfilled it stays so. */
  lemma AdmissionGrows(s: State, action: Action, a: Invocation)
    requires CanDo(s, action) && a in s.admissions
    ensures a in Do(s, action).admissions && Do(s, action).admissions[a].key == s.admissions[a].key
    ensures s.admissions[a].phase == Fulfilled ==> Do(s, action).admissions[a].phase == Fulfilled
  {
    if action.Lifecycle? {
      StepFrame(s, action.step);
      hide Stepped; hide CanStep;
    }
  }

  lemma StepStops(s: State, step: Step)
    requires CanStep(s, step) && (!s.teardown.NoTeardown? || s.busClosed ==> s.stopped)
    ensures s.stopped || Stepped(s, step).busClosed || step.ClearRecords? ==> Stepped(s, step).stopped
    ensures s.stopped ==> Stepped(s, step).entered == s.entered
  {
    WaysOut(s);
    hide Reverse; hide TornDown; hide Failed; hide Ended;
  }

  lemma TeardownStopped(s: State)
    requires Ordered(s)
    ensures !s.teardown.NoTeardown? || s.busClosed ==> s.stopped
  {
    hide Reverse;
  }

  lemma StepKeepsDispatches(s: State, step: Step)
    requires CanStep(s, step) && Inv(s)
    ensures Reserved(Stepped(s, step)) && Single(Stepped(s, step))
  {
    assert Ordered(s);
    hide Stepped; hide CanStep; hide Ordered; hide Reserved; hide Single;
    TeardownStopped(s);
    StepFrame(s, step);
    StepStops(s, step);
    DispatchesStay(s, Stepped(s, step));
  }

  lemma DispatchesStay(s: State, t: State)
    requires Reserved(s) && Single(s) && t.admissions == s.admissions && (s.stopped || t.busClosed ==> t.stopped)
    requires t.records == s.records || (t.records == map[] && t.stopped)
    ensures Reserved(t) && Single(t)
  {
    hide Holding;
  }

  lemma DispatchKeepsOrdered(s: State, action: Action)
    requires CanDispatch(s, action) && Ordered(s)
    ensures Ordered(Dispatched(s, action))
  {
    hide Reverse;
  }

  lemma DoKeepsInv(s: State, action: Action)
    requires CanDo(s, action) && Inv(s)
    ensures Inv(Do(s, action))
  {
    hide Reserved; hide Single; hide Ordered; hide CanStep; hide CanDispatch; hide Stepped; hide Dispatched;
    if action.Lifecycle? {
      if s.torn { DownSteps(s, action.step); } else { UpSteps(s, action.step); }
      StepKeepsDispatches(s, action.step);
    } else {
      DispatchKeepsReserved(s, action);
      DispatchKeepsSingle(s, action);
      DispatchKeepsOrdered(s, action);
    }
  }

  lemma RunKeepsInv(s: State, actions: seq<Action>)
    requires Inv(s)
    ensures Inv(After(Next, s, actions))
  {
    hide Inv; hide CanDo; hide Do;
    forall x, a | Inv(x) ensures Inv(Next(x, a)) {
      if CanDo(x, a) { DoKeepsInv(x, a); }
    }
    AfterKeeps(Next, Inv, s, actions);
  }

  lemma InitInv(s: State)
    requires Init(s)
    ensures Inv(s)
  {
  }

  // -------------------------------------------------------- main theorems

  /** However often a key is dispatched, and whatever fails or shuts down in between, the Pet accepts it at most once. */
  lemma OnePortDispatchPerKey(s: State, actions: seq<Action>, t: State, a: Invocation, b: Invocation)
    requires Init(s) && t == After(Next, s, actions) && a in t.admissions && b in t.admissions
    requires t.admissions[a].ported && t.admissions[b].ported
    requires t.admissions[a].key.Some? && t.admissions[a].key == t.admissions[b].key
    ensures a == b
  {
    InitInv(s);
    RunKeepsInv(s, actions);
  }

  /** A caller only gets a receipt for an admission the Pet accepted. */
  lemma ReceiptsArePorted(s: State, actions: seq<Action>, t: State, a: Invocation)
    requires Init(s) && t == After(Next, s, actions) && a in t.admissions && t.admissions[a].phase == Fulfilled
    ensures t.admissions[a].ported
  {
    InitInv(s);
    RunKeepsInv(s, actions);
  }

  /** Once stopping has begun, nothing more is reserved and no further Plugin is started. */
  lemma NothingBeginsOnceStopped(s: State, actions: seq<Action>, t: State)
    requires Inv(s) && s.stopped && t == After(Next, s, actions)
    ensures t.stopped && t.admissions.Keys == s.admissions.Keys && t.entered == s.entered
  {
    var still := (x: State) => Inv(x) && x.stopped && x.admissions.Keys == s.admissions.Keys && x.entered == s.entered;
    forall x, a | still(x) ensures still(Next(x, a)) {
      if CanDo(x, a) {
        DoKeepsInv(x, a);
        StoppedStays(x, a);
      }
      hide Inv; hide CanDo; hide Do;
    }
    AfterKeeps(Next, still, s, actions);
  }

  lemma StoppedStays(s: State, action: Action)
    requires CanDo(s, action) && Ordered(s) && s.stopped
    ensures Do(s, action).stopped && Do(s, action).admissions.Keys == s.admissions.Keys
    ensures Do(s, action).entered == s.entered
  {
    TeardownStopped(s);
    hide Ordered;
    if action.Lifecycle? {
      StepFrame(s, action.step);
      StepStops(s, action.step);
      hide Stepped; hide CanStep;
    }
  }

  /** The Plugins whose start was entered, the last one first. */
  function StopOrder(s: State): seq<nat> {
    Reverse(s.entered)
  }

  /**
   At every moment the stops called so far are the beginning of the exact reverse of the
   start order; a Plugin is stopped only once stopping has begun.
   */
  lemma StopsGoDown(s: State, actions: seq<Action>, t: State)
    requires Init(s) && t == After(Next, s, actions)
    ensures t.halted <= StopOrder(t) && (t.halted != [] ==> t.stopped)
  {
    InitInv(s);
    RunKeepsInv(s, actions);
    hide Reserved; hide Single;
    if t.torn && t.teardown.Stopping? {
      assert t.halted + (if t.teardown.calling then t.teardown.rest[1..] else t.teardown.rest) == StopOrder(t);
    }
  }

  /** No stop is called twice. */
  lemma StopsOnce(s: State, actions: seq<Action>, t: State, i: nat, j: nat)
    requires Init(s) && t == After(Next, s, actions) && i < j < |t.halted|
    ensures t.halted[i] > t.halted[j]
  {
    InitInv(s);
    RunKeepsInv(s, actions);
    StopsGoDown(s, actions, t);
    hide Reserved; hide Single;
    ReverseAt(t.entered, i);
    ReverseAt(t.entered, j);
  }

  /** The core closes at most once, and only when every Plugin that was started has been stopped. */
  lemma CoreClosesLast(s: State, actions: seq<Action>, t: State)
    requires Init(s) && t == After(Next, s, actions)
    ensures t.closes <= 1
    ensures t.closes == 1 ==> t.halted == StopOrder(t) && !(t.teardown.Stopping? && t.teardown.calling)
    ensures t.shutdown == Left ==> t.closes == 1
  {
    InitInv(s);
    RunKeepsInv(s, actions);
    hide Reserved; hide Single; hide Reverse;
    if t.torn && t.teardown == Stopping([], false) { assert t.halted + [] == t.halted; }
  }

  // --------------------------------------------------------- whole runs

  /** A dispatch that nothing disturbs and the Pet accepts is fulfilled, and keeps its key. Nothing else changes. */
  lemma DispatchRuns(s: State, a: Invocation, key: Option<Key>)
    requires Inv(s) && !s.stopped && a !in s.admissions && (key.Some? ==> key.value !in s.records)
    ensures Next(Next(Next(s, Reserve(a, key)), PortAccept(a)), Notify(a))
         == s.(admissions := s.admissions[a := Admission(key, Fulfilled, true)],
               records := if key.Some? then s.records[key.value := a] else s.records)
  {
    assert !s.busClosed;
    hide Inv; hide CanStep; hide Stepped;
    var reserved := Next(s, Reserve(a, key));
    var accepted := Next(reserved, PortAccept(a));
    assert accepted == reserved.(admissions := s.admissions[a := Admission(key, Accepted, true)]);
  }

  /** One that the Pet rejects is rejected, and its key is free again. */
  lemma RejectionRuns(s: State, a: Invocation, key: Option<Key>)
    requires !s.stopped && a !in s.admissions && (key.Some? ==> key.value !in s.records)
    ensures Next(Next(Next(s, Reserve(a, key)), PortReject(a)), Release(a))
         == s.(admissions := s.admissions[a := Admission(key, Rejected, false)])
  {
    hide CanStep; hide Stepped;
    var reserved := Next(s, Reserve(a, key));
    var rejected := Next(reserved, PortReject(a));
    assert rejected == reserved.(admissions := s.admissions[a := Admission(key, Rejected, false)]);
    assert key.Some? ==> s.records[key.value := a] - {key.value} == s.records;
  }

  /** The numbers of the Plugins from i on. */
  function Upto(i: nat, n: nat): seq<nat>
    requires i <= n
  {
    seq(n - i, k requires 0 <= k < n - i => i + k)
  }

  lemma Goes(s: State, m: State, step: Step)
    requires Evolves(Next, s, m) && CanStep(m, step)
    ensures Evolves(Next, s, Stepped(m, step))
  {
    EvolvesNext(Next, s, m, Lifecycle(step));
    hide Stepped; hide CanStep; hide Evolves;
  }

  /** Starts that all return bring the activation to its end, one Plugin after the other. */
  lemma {:induction false} StartsAll(from: State, s: State, i: nat)
    requires Evolves(Next, from, s) && s.activation == Checking(i) && i <= s.plugins && !s.stopped && !s.busClosed
    ensures Evolves(Next, from, s.(activation := Settled, started := s.started + Upto(i, s.plugins), entered := s.entered + Upto(i, s.plugins)))
    decreases s.plugins - i
  {
    hide Evolves;
    Goes(from, s, CheckNext);
    if i == s.plugins {
      assert s.started + Upto(i, i) == s.started && s.entered + Upto(i, i) == s.entered;
    } else {
      var begun := s.(activation := Starting(i), started := s.started + [i], entered := s.entered + [i]);
      Goes(from, begun, StartReturned(true));
      StartsAll(from, begun.(activation := Checking(i + 1)), i + 1);
      assert [i] + Upto(i + 1, s.plugins) == Upto(i, s.plugins);
      assert s.started + [i] + Upto(i + 1, s.plugins) == s.started + Upto(i, s.plugins);
      assert s.entered + [i] + Upto(i + 1, s.plugins) == s.entered + Upto(i, s.plugins);
    }
  }

  /** Every stop is called and awaited, down to the last. */
  lemma {:induction false} StopsAll(from: State, s: State)
    requires Evolves(Next, from, s) && s.teardown.Stopping? && !s.teardown.calling
    ensures Evolves(Next, from, s.(teardown := Stopping([], false), halted := s.halted + s.teardown.rest))
    decreases |s.teardown.rest|
  {
    hide Evolves;
    var rest := s.teardown.rest;
    if rest == [] {
      assert s.halted + rest == s.halted;
    } else {
      Goes(from, s, CallStop);
      var called := s.(teardown := s.teardown.(calling := true), halted := s.halted + [rest[0]]);
      Goes(from, called, StopReturned);
      StopsAll(from, called.(teardown := Stopping(rest[1..], false)));
      assert s.halted + [rest[0]] + rest[1..] == s.halted + rest;
    }
  }

  /** A teardown by whoever runs it: the stops, then the Pets, then the bus and the records. */
  lemma TearsDown(from: State, s: State) returns (t: State)
    requires Evolves(Next, from, s) && s.teardown.Stopping? && !s.teardown.calling && !s.coreClosed
    ensures Evolves(Next, from, t)
    ensures t.halted == s.halted + s.teardown.rest && t.coreClosed && t.busClosed && t.closes == s.closes + 1
    ensures t.records == map[] && t.admissions == s.admissions && t.entered == s.entered && t.started == s.started && t.stopped == s.stopped && t.plugins == s.plugins
    ensures t.teardown == NoTeardown
    ensures if s.activation == Failing then t.activation == Settled && t.shutdown == s.shutdown
            else t.activation == s.activation && t.shutdown == if s.shutdown == Leaving then Left else s.shutdown
  {
    hide Evolves;
    StopsAll(from, s);
    var stopped := s.(teardown := Stopping([], false), halted := s.halted + s.teardown.rest);
    Goes(from, stopped, CloseCore);
    var closing := stopped.(coreClosed := true, closes := s.closes + 1, teardown := ClosingPets);
    Goes(from, closing, PetsClosed(true));
    var cleared := closing.(busClosed := true, teardown := ClosingRecords);
    Goes(from, cleared, ClearRecords);
    t := Stepped(cleared, ClearRecords);
  }

  /**
   A Studio can come up with all its Plugins started in order, be shut down, and go: every
   Plugin stopped, the last started first, and the core closed once.
   */
  lemma ComesAndGoes(s: State) returns (up: State, down: State)
    requires Init(s)
    ensures Evolves(Next, s, up) && up.activation == Settled && !up.stopped && up.entered == Upto(0, s.plugins)
    ensures Evolves(Next, up, down) && down.shutdown == Left && down.busClosed && down.closes == 1
    ensures down.halted == Reverse(Upto(0, s.plugins)) && down.started == [] && down.entered == up.entered
  {
    hide Evolves; hide Reverse;
    EvolvesNot(Next, s);
    Goes(s, s, Activate);
    Goes(s, s.(activation := Restoring), Restored(true));
    StartsAll(s, s.(activation := Checking(0)), 0);
    assert [] + Upto(0, s.plugins) == Upto(0, s.plugins);
    up := s.(activation := Settled, started := Upto(0, s.plugins), entered := Upto(0, s.plugins));
    EvolvesNot(Next, up);
    Goes(up, up, CallShutdown);
    var called := up.(stopped := true, shutdown := Waiting);
    Goes(up, called, ActivationOver);
    down := TearsDown(up, TornDown(called).(shutdown := Leaving));
    assert [] + Reverse(Upto(0, s.plugins)) == Reverse(Upto(0, s.plugins));
  }

  /** Where the start of one Plugin throws, those entered so far are stopped, this one first, and the core closes; a later shutdown finds it closed. */
  lemma FailsAndGoes(s: State, i: nat) returns (settled: State, down: State)
    requires Init(s) && i < s.plugins
    ensures Evolves(Next, s, settled) && settled.activation == Settled && settled.stopped && settled.closes == 1
    ensures settled.entered == Upto(0, i + 1) && settled.halted == Reverse(Upto(0, i + 1))
    ensures Evolves(Next, settled, down) && down.shutdown == Left && down.closes == 1 && down.halted == settled.halted
  {
    hide Evolves; hide Reverse;
    EvolvesNot(Next, s);
    Goes(s, s, Activate);
    Goes(s, s.(activation := Restoring), Restored(true));
    StartsTo(s, s.(activation := Checking(0)), 0, i);
    var begun := s.(activation := Starting(i), started := Upto(0, i + 1), entered := Upto(0, i + 1));
    assert [] + Upto(0, i + 1) == Upto(0, i + 1);
    Goes(s, begun, StartReturned(false));
    settled := TearsDown(s, Failed(begun));
    assert [] + Reverse(Upto(0, i + 1)) == Reverse(Upto(0, i + 1));
    down := LeavesAfter(settled);
  }

  lemma {:induction false} StartsTo(from: State, s: State, i: nat, n: nat)
    requires Evolves(Next, from, s) && s.activation == Checking(i) && i <= n < s.plugins && !s.stopped
    ensures Evolves(Next, from, s.(activation := Starting(n), started := s.started + Upto(i, n + 1), entered := s.entered + Upto(i, n + 1)))
    decreases n - i
  {
    hide Evolves;
    Goes(from, s, CheckNext);
    assert [i] == Upto(i, i + 1);
    if i < n {
      var begun := s.(activation := Starting(i), started := s.started + [i], entered := s.entered + [i]);
      Goes(from, begun, StartReturned(true));
      StartsTo(from, begun.(activation := Checking(i + 1)), i + 1, n);
      assert [i] + Upto(i + 1, n + 1) == Upto(i, n + 1);
      assert s.started + [i] + Upto(i + 1, n + 1) == s.started + Upto(i, n + 1);
      assert s.entered + [i] + Upto(i + 1, n + 1) == s.entered + Upto(i, n + 1);
    }
  }

  /** A shutdown of a Studio whose activation has torn it down already only comes to its own end. */
  lemma LeavesAfter(s: State) returns (t: State)
    requires s.activation == Settled && s.started == [] && s.coreClosed && s.teardown == NoTeardown
    requires s.shutdown == NotCalled || s.shutdown == Waiting
    ensures Evolves(Next, s, t) && t.shutdown == Left && t.closes == s.closes && t.halted == s.halted
  {
    hide Evolves;
    assert Reverse(s.started) == [] by { ReverseNothing(); }
    EvolvesNot(Next, s);
    var called := s;
    if s.shutdown == NotCalled {
      Goes(s, s, CallShutdown);
      called := s.(stopped := true, shutdown := Waiting);
    }
    Goes(s, called, ActivationOver);
    var leaving := TornDown(called).(shutdown := Leaving);
    Goes(s, leaving, CloseCore);
    t := Ended(leaving);
  }

  /** A shutdown that is called while Plugins are starting makes the activation stop what it has started; then it ends itself. */
  lemma StopsMidway(s: State, i: nat) returns (settled: State, down: State)
    requires Init(s) && i + 1 < s.plugins
    ensures Evolves(Next, s, settled) && settled.activation == Settled && settled.shutdown == Waiting && settled.closes == 1
    ensures settled.entered == Upto(0, i + 1) && settled.halted == Reverse(Upto(0, i + 1))
    ensures Evolves(Next, settled, down) && down.shutdown == Left && down.closes == 1 && down.halted == settled.halted
  {
    hide Evolves; hide Reverse;
    EvolvesNot(Next, s);
    Goes(s, s, Activate);
    Goes(s, s.(activation := Restoring), Restored(true));
    StartsTo(s, s.(activation := Checking(0)), 0, i);
    var begun := s.(activation := Starting(i), started := Upto(0, i + 1), entered := Upto(0, i + 1));
    assert [] + Upto(0, i + 1) == Upto(0, i + 1);
    Goes(s, begun, CallShutdown);
    var called := begun.(stopped := true, shutdown := Waiting);
    Goes(s, called, StartReturned(true));
    var checking := called.(activation := Checking(i + 1));
    Goes(s, checking, CheckNext);
    settled := TearsDown(s, Failed(checking));
    assert [] + Reverse(Upto(0, i + 1)) == Reverse(Upto(0, i + 1));
    down := LeavesAfter(settled);
  }
}

/**
 The Studio core's own methods as the code runs them, among the steps of everything else
 that is in flight: each makes only moves of the core, and what it promises its caller
 holds whatever comes in between.
 */
module Studio {
  import opened History
  import opened StudioCore
  import opened Options
  import opened Sequences

  class Studio {
    var state: State

    constructor (plugins: nat)
      ensures Init(state) && Inv(state) && state.plugins == plugins
    {
      state := State(plugins, map[], map[], false, false, false, [], Idle, NotCalled, NoTeardown, false, [], [], 0);
      new;
      InitInv(state);
    }

    /**
     What comes in at an await: nobody else moves this caller's own admission, and while
     `busy` nobody else starts or stops Plugins, though the shutdown may be called.
     */
    method Others(mine: Option<Invocation>, busy: bool)
      requires Inv(state)
      modifies this
      ensures Inv(state) && Evolves(Next, old(state), state)
      ensures mine.Some? ==> Untouched(old(state), state, mine.value)
      ensures busy ==> SameLife(old(state), state)
    {
      EvolvesNot(Next, state);
      var n: int := *;
      var i := 0;
      while i < n
        invariant Inv(state) && Evolves(Next, old(state), state)
        invariant mine.Some? ==> Untouched(old(state), state, mine.value)
        invariant busy ==> SameLife(old(state), state)
      {
        var action: Action := *;
        if CanDo(state, action) && Foreign(action, mine, busy) {
          DoKeepsInv(state, action);
          ForeignKeeps(state, action, mine, busy);
          EvolvesNext(Next, old(state), state, action);
          hide Inv; hide Do; hide CanDo; hide Foreign;
          state := Do(state, action);
        }
        i := i + 1;
      }
    }

    method Take(action: Action)
      requires Inv(state) && CanDo(state, action)
      modifies this
      ensures Inv(state) && Evolves(Next, old(state), state) && state == Do(old(state), action)
    {
      DoKeepsInv(state, action);
      EvolvesNot(Next, state);
      EvolvesNext(Next, state, state, action);
      hide Inv; hide Do; hide CanDo;
      state := Do(state, action);
    }

    /**
     The admission itself: the port, which refuses or not, then the announcement; a failure
     releases the key. It fails only if the port refuses or the Studio is stopped meanwhile.
     */
    method Admit(a: Invocation, refuses: bool) returns (accepted: bool)
      requires Inv(state) && a in state.admissions && state.admissions[a].phase == Running
      modifies this
      ensures Inv(state) && Evolves(Next, old(state), state)
      ensures a in state.admissions && state.admissions[a].key == old(state).admissions[a].key
      ensures state.admissions[a].phase == (if accepted then Fulfilled else Rejected)
      ensures !accepted ==> a !in state.records.Values
      ensures state.admissions[a].ported <==> !refuses
      ensures !accepted ==> refuses || StoppedMeanwhile(old(state), state)
    {
      hide Inv; hide Evolves; hide Stepped; hide CanStep; hide StoppedMeanwhile;
      RunningIsNew(state, a);
      Others(Some(a), false);
      ghost var now := state;
      if refuses {
        Take(PortReject(a));
      } else {
        Take(PortAccept(a));
        ghost var ported := state;
        Others(Some(a), false);
        ghost var waited := state;
        ClosedBusIsStopped(state);
        Take(Notify(a));
        EvolvesOn(Next, now, ported, waited);
        EvolvesOn(Next, old(state), now, waited);
        if waited.stopped { StoppedThen(old(state), waited, state); }
        EvolvesOn(Next, ported, waited, state);
        EvolvesOn(Next, now, ported, state);
      }
      EvolvesOn(Next, old(state), now, state);
      accepted := state.admissions[a].phase == Fulfilled;
      if !accepted {
        now := state;
        RecordsName(state);
        Take(Release(a));
        if StoppedMeanwhile(old(state), now) { StoppedOn(old(state), now, state); }
        EvolvesOn(Next, old(state), now, state);
      }
    }

    /**
     A dispatch: it joins the admission that has its key or reserves one of its own. A
     receipt is always for an admission under the key that the Pet has accepted. A caller
     that joined gets the receipt of the admission it joined exactly if that is fulfilled
     when its wait is over; one that did not gets its own, unless the Pet is unknown, its
     port refuses, or the Studio is stopped meanwhile.
     */
    method Dispatch(key: Option<Key>, drawn: Invocation, unknown: bool, refuses: bool) returns (receipt: Option<Invocation>, ghost joined: Option<Invocation>)
      requires Inv(state) && drawn !in state.admissions
      modifies this
      ensures Inv(state) && Evolves(Next, old(state), state)
      ensures old(state).stopped ==> receipt.None? && state == old(state)
      ensures receipt.Some? ==> receipt.value in state.admissions && state.admissions[receipt.value].ported
                                && (key.Some? ==> state.admissions[receipt.value].key == key)
      ensures joined.Some? ==> key.Some? && joined.value in state.admissions && state.admissions[joined.value].key == key
                               && drawn !in state.admissions
      ensures joined.Some? ==> receipt == if state.admissions[joined.value].phase == Fulfilled then joined else None
      ensures joined.Some? ==> Recorded(old(state), key, joined.value, state)
      ensures joined.None? && receipt.Some? ==> receipt == Some(drawn)
      ensures drawn in state.admissions && state.admissions[drawn].phase == Fulfilled ==> receipt == Some(drawn)
      ensures key.Some? && drawn in state.admissions && receipt.None? ==> drawn !in state.records.Values
      ensures receipt.Some? || joined.Some? ==> !unknown
      ensures joined.None? && receipt.Some? ==> !refuses
      ensures joined.None? && receipt.None? ==> unknown || refuses || StoppedMeanwhile(old(state), state)
    {
      hide Inv; hide Evolves; hide Stepped; hide CanStep; hide Untouched; hide StoppedMeanwhile;
      EvolvesNot(Next, state);
      if state.stopped {
        StoppedThen(old(state), state, state);
        return None, None;
      }
      Others(Some(drawn), false);
      StillNew(old(state), state, drawn);
      if state.stopped {
        EvolvesNot(Next, state);
        StoppedThen(old(state), state, state);
      }
      if state.stopped || unknown { return None, None; }
      ghost var now := state;
      if key.Some? && key.value in state.records {
        var existing := state.records[key.value];
        RecordsName(state);
        Others(Some(drawn), false);
        StillNew(now, state, drawn);
        EvolvesOn(Next, old(state), now, state);
        AdmissionStays(now, state, existing);
        joined := Some(existing);
        if state.admissions[existing].phase != Fulfilled { return None, joined; }
        FulfilledIsPorted(state, existing);
        return Some(existing), joined;
      }
      joined := None;
      Take(Reserve(drawn, key));
      EvolvesOn(Next, old(state), now, state);
      now := state;
      var accepted := Admit(drawn, refuses);
      if StoppedMeanwhile(now, state) { StoppedSince(old(state), now, state); }
      EvolvesOn(Next, old(state), now, state);
      if !accepted { return None, None; }
      FulfilledIsPorted(state, drawn);
      receipt := Some(drawn);
    }

    /** The stop loop: every Plugin on the list, last started first, each stop awaited. */
    method StopStartedPlugins()
      requires Inv(state) && state.teardown.Stopping? && !state.teardown.calling
      modifies this
      ensures Inv(state) && Evolves(Next, old(state), state)
      ensures state.teardown == Stopping([], false) && state.halted == Reverse(state.entered)
      ensures state.entered == old(state).entered && state.activation == old(state).activation && state.plugins == old(state).plugins
      ensures state.shutdown != NotCalled || old(state).shutdown == NotCalled
    {
      hide Inv; hide Evolves; hide Reverse;
      EvolvesNot(Next, state);
      while state.teardown.rest != []
        invariant Inv(state) && Evolves(Next, old(state), state)
        invariant state.teardown.Stopping? && !state.teardown.calling
        invariant state.entered == old(state).entered && state.activation == old(state).activation && state.plugins == old(state).plugins
        invariant state.shutdown != NotCalled || old(state).shutdown == NotCalled
        decreases |state.teardown.rest|
      {
        ghost var now := state;
        StopOne();
        EvolvesOn(Next, old(state), now, state);
      }
      AllStopped(state);
    }

    method StopOne()
      requires Inv(state) && state.teardown.Stopping? && !state.teardown.calling && state.teardown.rest != []
      modifies this
      ensures Inv(state) && Evolves(Next, old(state), state)
      ensures state.teardown == Stopping(old(state).teardown.rest[1..], false)
      ensures state.halted == old(state).halted + [old(state).teardown.rest[0]]
      ensures state.entered == old(state).entered && state.activation == old(state).activation && state.plugins == old(state).plugins
      ensures state.shutdown != NotCalled || old(state).shutdown == NotCalled
    {
      hide Inv; hide Evolves; hide CanDispatch; hide Dispatched;
      Take(Lifecycle(CallStop));
      ghost var now := state;
      Others(None, true);
      EvolvesOn(Next, old(state), now, state);
      now := state;
      Take(Lifecycle(StopReturned));
      EvolvesOn(Next, old(state), now, state);
    }

    /** closeCore: the second time, nothing; the bus closes and the records go only if the Pets could be closed. */
    method CloseCore(closes: bool)
      requires Inv(state) && state.teardown == Stopping([], false)
      modifies this
      ensures Inv(state) && Evolves(Next, old(state), state) && state.teardown == NoTeardown
      ensures state.coreClosed && state.halted == old(state).halted && state.entered == old(state).entered
      ensures if old(state).coreClosed then state == Ended(old(state)) else state.closes == old(state).closes + 1
      ensures state.shutdown != NotCalled || old(state).shutdown == NotCalled
      ensures !old(state).coreClosed ==> (state.busClosed <==> closes) && (closes ==> state.records == map[])
    {
      hide Inv; hide Evolves; hide CanDispatch; hide Dispatched;
      OpenBus(state);
      Take(Lifecycle(Step.CloseCore));
      if state.teardown == NoTeardown { return; }
      ghost var now := state;
      Others(None, true);
      EvolvesOn(Next, old(state), now, state);
      now := state;
      Take(Lifecycle(PetsClosed(closes)));
      EvolvesOn(Next, old(state), now, state);
      if !closes { return; }
      now := state;
      Others(None, true);
      EvolvesOn(Next, old(state), now, state);
      now := state;
      Take(Lifecycle(ClearRecords));
      EvolvesOn(Next, old(state), now, state);
    }

    /** Start the Plugins in order; a start that throws, or a shutdown called meanwhile, ends the loop, and nothing else. */
    method StartPlugins(starts: nat -> bool)
      requires Inv(state) && state.activation == Checking(0) && state.teardown == NoTeardown
      modifies this
      ensures Inv(state) && Evolves(Next, old(state), state)
      ensures state.activation == Settled || state.activation == Failing
      ensures state.activation == Failing ==> state.teardown.Stopping? && !state.teardown.calling
      ensures state.activation == Settled ==> |state.entered| == state.plugins && state.halted == []
      ensures state.plugins == old(state).plugins && Started(state, starts)
    {
      hide Evolves; hide CanDispatch; hide Dispatched; hide Reserved; hide Single; hide Reverse;
      EvolvesNot(Next, state);
      StartsFrom(state);
      while state.activation.Checking?
        invariant Inv(state) && Evolves(Next, old(state), state)
        invariant state.activation.Checking? || state.activation == Settled || state.activation == Failing
        invariant state.activation.Checking? ==> state.teardown == NoTeardown
        invariant state.activation == Failing ==> state.teardown.Stopping? && !state.teardown.calling
        invariant state.activation == Settled ==> |state.entered| == state.plugins && state.halted == []
        invariant state.plugins == old(state).plugins && Started(state, starts)
        decreases state.activation.Checking?, state.plugins - |state.entered|
      {
        ghost var now := state;
        StartNext(starts);
        EvolvesOn(Next, old(state), now, state);
      }
    }

    method StartNext(starts: nat -> bool)
      requires Inv(state) && state.activation.Checking? && state.teardown == NoTeardown && Started(state, starts)
      modifies this
      ensures Inv(state) && Evolves(Next, old(state), state) && state.plugins == old(state).plugins
      ensures state.activation.Checking? ==> state.teardown == NoTeardown && |state.entered| == |old(state).entered| + 1 <= state.plugins
      ensures state.activation.Checking? || state.activation == Settled || state.activation == Failing
      ensures state.activation == Failing ==> state.teardown.Stopping? && !state.teardown.calling
      ensures state.activation == Settled ==> |state.entered| == state.plugins && state.halted == []
      ensures Started(state, starts)
    {
      hide Evolves; hide CanDispatch; hide Dispatched; hide Reserved; hide Single; hide Reverse;
      StartsFrom(state);
      Take(Lifecycle(CheckNext));
      if !state.activation.Starting? { return; }
      ghost var now := state;
      Others(None, true);
      EvolvesOn(Next, old(state), now, state);
      now := state;
      Take(Lifecycle(StartReturned(starts(|state.entered| - 1))));
      EvolvesOn(Next, old(state), now, state);
    }

    /**
     Activation: either every Plugin has been entered in order, or those that were have all
     been stopped in the reverse order and the core is closed. It fails only if the restoration
     or a start throws, or a shutdown was called.
     */
    method ActivatePlugins(restores: bool, starts: nat -> bool, closes: bool) returns (activated: bool)
      requires Inv(state) && state.activation == Idle
      modifies this
      ensures Inv(state) && Evolves(Next, old(state), state)
      ensures activated ==> |state.entered| == state.plugins && state.halted == []
      ensures !activated && !old(state).stopped ==> state.halted == Reverse(state.entered) && state.coreClosed && state.stopped
      ensures activated ==> restores && forall i :: 0 <= i < state.plugins ==> starts(i)
      ensures !activated && !old(state).stopped && restores && state.shutdown == NotCalled ==> exists i :: 0 <= i < |state.entered| && !starts(i)
    {
      hide Inv; hide Evolves; hide CanDispatch; hide Dispatched; hide Reverse;
      EvolvesNot(Next, state);
      if state.stopped { return false; }
      NotTearing(state);
      Take(Lifecycle(Activate));
      ghost var now := state;
      Others(None, true);
      EvolvesOn(Next, old(state), now, state);
      now := state;
      Take(Lifecycle(Restored(restores)));
      EvolvesOn(Next, old(state), now, state);
      now := state;
      if restores {
        StartPlugins(starts);
        EvolvesOn(Next, old(state), now, state);
        now := state;
      }
      activated := state.activation == Settled;
      if !activated {
        StopStartedPlugins();
        EvolvesOn(Next, old(state), now, state);
        now := state;
        CloseCore(closes);
        EvolvesOn(Next, old(state), now, state);
        ClosedIsStopped(state);
      }
    }
  }

  /** At some moment in between, stopping had begun. */
  ghost predicate StoppedMeanwhile(s: State, t: State) {
    exists m :: Evolves(Next, s, m) && Evolves(Next, m, t) && m.stopped
  }

  lemma StoppedThen(s: State, m: State, t: State)
    requires Evolves(Next, s, m) && Evolves(Next, m, t) && m.stopped
    ensures StoppedMeanwhile(s, t)
  {
  }

  lemma StoppedOn(s: State, m: State, t: State)
    requires StoppedMeanwhile(s, m) && Evolves(Next, m, t)
    ensures StoppedMeanwhile(s, t)
  {
    hide Evolves;
    var n :| Evolves(Next, s, n) && Evolves(Next, n, m) && n.stopped;
    EvolvesOn(Next, n, m, t);
  }

  lemma StoppedSince(s: State, m: State, t: State)
    requires Evolves(Next, s, m) && StoppedMeanwhile(m, t)
    ensures StoppedMeanwhile(s, t)
  {
    hide Evolves;
    var n :| Evolves(Next, m, n) && Evolves(Next, n, t) && n.stopped;
    EvolvesOn(Next, s, m, n);
  }

  lemma ClosedBusIsStopped(s: State)
    requires Inv(s)
    ensures s.busClosed ==> s.stopped
  {
    hide Single; hide Ordered;
  }

  lemma RunningIsNew(s: State, a: Invocation)
    requires Inv(s) && a in s.admissions && s.admissions[a].phase == Running
    ensures !s.admissions[a].ported
  {
    hide Single; hide Ordered;
  }

  /** The bus is open until the core closes. */
  lemma OpenBus(s: State)
    requires Inv(s) && s.teardown.Stopping?
    ensures s.busClosed ==> s.coreClosed
  {
    hide Reserved; hide Single; hide Reverse;
  }

  /** What has been started so far: all but the one that failed, if one has; otherwise only a shutdown ends the loop early. */
  predicate Started(s: State, starts: nat -> bool) {
    && (s.activation != Failing ==> forall i :: 0 <= i < |s.entered| ==> starts(i))
    && (s.activation == Failing && s.shutdown == NotCalled ==> exists i :: 0 <= i < |s.entered| && !starts(i))
  }

  /** At some moment in between, the key's record named this admission. */
  ghost predicate Recorded(s: State, key: Option<Key>, a: Invocation, t: State) {
    exists m :: Evolves(Next, s, m) && Evolves(Next, m, t) && key.Some? && key.value in m.records && m.records[key.value] == a
  }

  lemma NotTearing(s: State)
    requires Inv(s) && !s.stopped
    ensures s.teardown == NoTeardown
  {
    TeardownStopped(s);
  }

  lemma StartsFrom(s: State)
    requires Inv(s) && s.activation.Checking?
    ensures !s.torn && !s.busClosed && s.halted == [] && s.activation.next == |s.entered| <= s.plugins
  {
    hide Reserved; hide Single; hide Reverse;
  }

  lemma AllStopped(s: State)
    requires Inv(s) && s.teardown == Stopping([], false)
    ensures s.halted == Reverse(s.entered)
  {
    hide Reserved; hide Single; hide Reverse;
    assert s.halted + [] == s.halted;
  }

  lemma ClosedIsStopped(s: State)
    requires Inv(s) && s.coreClosed
    ensures s.stopped
  {
    hide Reserved; hide Single; hide Reverse;
  }

  lemma FulfilledIsPorted(s: State, a: Invocation)
    requires Inv(s) && a in s.admissions && s.admissions[a].phase == Fulfilled
    ensures s.admissions[a].ported
  {
    hide Single; hide Ordered;
  }

  lemma StillNew(s: State, t: State, a: Invocation)
    requires Untouched(s, t, a) && a !in s.admissions
    ensures a !in t.admissions
  {
  }

  /** An admission never goes away and never changes its key. */
  lemma AdmissionStays(s: State, t: State, a: Invocation)
    requires Evolves(Next, s, t) && a in s.admissions
    ensures a in t.admissions && t.admissions[a].key == s.admissions[a].key
  {
    var actions :| After(Next, s, actions) == t;
    var there := (x: State) => a in x.admissions && x.admissions[a].key == s.admissions[a].key;
    forall x, action | there(x) ensures there(Next(x, action)) {
      if CanDo(x, action) { AdmissionGrows(x, action, a); }
      hide CanDo; hide Do;
    }
    AfterKeeps(Next, there, s, actions);
  }

  /** Starting and stopping stands where it did, but for a shutdown that was called. */
  predicate SameLife(s: State, t: State) {
    && t.plugins == s.plugins && t.started == s.started && t.activation == s.activation && t.teardown == s.teardown
    && t.torn == s.torn && t.entered == s.entered && t.halted == s.halted && t.closes == s.closes && t.coreClosed == s.coreClosed
    && t.busClosed == s.busClosed
    && (t.shutdown == s.shutdown || (s.shutdown == NotCalled && t.shutdown == Waiting)) && (s.stopped ==> t.stopped)
  }

  predicate Untouched(s: State, t: State, a: Invocation) {
    if a in s.admissions then a in t.admissions && t.admissions[a] == s.admissions[a] else a !in t.admissions
  }

  predicate Foreign(action: Action, mine: Option<Invocation>, busy: bool) {
    if action.Lifecycle? then busy ==> action.step == CallShutdown else mine != Some(action.a)
  }

  lemma ForeignKeeps(s: State, action: Action, mine: Option<Invocation>, busy: bool)
    requires CanDo(s, action) && Foreign(action, mine, busy)
    ensures mine.Some? ==> Untouched(s, Do(s, action), mine.value)
    ensures busy ==> SameLife(s, Do(s, action))
  {
    if action.Lifecycle? {
      StepFrame(s, action.step);
      if !busy { hide Stepped; hide CanStep; hide SameLife; }
    }
  }

  /** A record leads to an admission under its key, so an admission has at most its own record. */
  lemma RecordsName(s: State)
    requires Inv(s)
    ensures forall k :: k in s.records ==> s.records[k] in s.admissions && s.admissions[s.records[k]].key == Some(k)
  {
    hide Single; hide Ordered;
  }
}

/**
 One call of writeDocument as the code runs it, with its early exits and its clean-up,
 among the steps of all the other calls, of crashes and of editors: it makes only moves
 of the write protocol, and it ends.
 */
module ProjectFilesService {
  import opened History
  import opened ProjectFiles
  import opened Options

  /**
   Which of a call's file-system calls throw: opening a lock, writing it, removing one
   that could not be written, reading the target, listing the documents, opening and
   writing the temporary file, reading the target again, link or rename, the unlink
   after the link, and the three removals of the clean-up. A write of the temporary file
   that throws leaves `partial` in it.
   */
  datatype Faults = Faults(
    openLock: bool, writeLock: bool, dropLock: bool, readTarget: bool,
    openCreate: bool, writeCreate: bool, dropCreate: bool, list: bool,
    openTemp: bool, writeTemp: bool, partial: Bytes, reread: bool, publish: bool, unlink: bool,
    cleanTemp: bool, freeCreate: bool, freeLock: bool)

  /** What on the disk can stand in a call's way. */
  datatype Obstacle = TakenBy(lock: Lock) | Full | Changed(path: Path, expected: Option<Digest>)

  /** It is there at this moment: another call's lock, as many documents as may be, another content than expected. */
  predicate InTheWay(s: State, w: Id, o: Obstacle) {
    match o
    case TakenBy(l) => l in s.locks && s.locks[l] != w
    case Full => |s.files| >= s.max
    case Changed(p, None) => p in s.files
    case Changed(p, Some(d)) => p !in s.files || Sha256(s.files[p]) != d
  }

  /** It was in the way at some moment from one state to another. */
  ghost predicate Met(s: State, w: Id, o: Obstacle, t: State) {
    exists m :: Evolves(Next, s, m) && Evolves(Next, m, t) && InTheWay(m, w, o)
  }

  /** Nothing threw that a creation needs from the shared lock to the count. */
  predicate Reserves(f: Faults) {
    !f.openCreate && !f.writeCreate && !f.list
  }

  /** Nothing threw from the first comparison to the end of the publication. */
  predicate Tries(f: Faults, creates: bool) {
    && !f.readTarget && !f.openTemp && !f.writeTemp && !f.reread && !f.publish
    && (creates ==> Reserves(f) && !f.unlink)
  }

  /** Nothing that a call needs to return threw. */
  predicate Clear(f: Faults, creates: bool) {
    !f.openLock && !f.writeLock && Tries(f, creates) && !f.freeLock && (creates ==> !f.freeCreate)
  }

  /** The target did not have the content expected, or a creation found no place. */
  ghost predicate Hindered(s: State, w: Id, call: Request, t: State) {
    || Met(s, w, Changed(call.target, call.expected), t)
    || (call.expected.None? && (Met(s, w, TakenBy(CreateLock), t) || Met(s, w, Full, t)))
  }

  class ProjectFilesService {
    /** The disk, and where every call stands. */
    var state: State

    constructor (max: nat, initial: map<Path, Bytes>)
      ensures state == JustStarted(max, initial)
    {
      state := JustStarted(max, initial);
    }

    /** Where one call stands. */
    ghost predicate At(w: Id, stage: Stage, call: Request)
      reads this
    {
      Inv(state) && w in state.writers && state.writers[w].stage == stage && state.writers[w].call == call
    }

    /** Whatever other calls and editors do; they do not act for this call. */
    method Others(w: Id)
      requires Inv(state)
      modifies this
      ensures Inv(state) && Evolves(Next, old(state), state)
      ensures w in old(state).writers ==> w in state.writers && state.writers[w] == old(state).writers[w]
      ensures w !in old(state).writers ==> w !in state.writers
    {
      EvolvesNot(Next, state);
      var n: int := *;
      var i := 0;
      while i < n
        invariant Inv(state) && Evolves(Next, old(state), state)
        invariant w in old(state).writers ==> w in state.writers && state.writers[w] == old(state).writers[w]
        invariant w !in old(state).writers ==> w !in state.writers
      {
        var a: Action := *;
        if CanDo(state, a) && !((a.Act? || a.Call?) && a.w == w) {
          OtherWriter(state, a, w);
          DoKeepsInv(state, a);
          EvolvesNext(Next, old(state), state, a);
          hide Inv; hide Do; hide CanDo;
          state := Do(state, a);
        }
        i := i + 1;
      }
    }

    /** One file-system call of this writer's, and then others may come in. */
    method Take(w: Id, step: Step)
      requires Inv(state) && CanAct(state, w, step)
      modifies this
      ensures Inv(state) && Evolves(Next, old(state), state)
      ensures w in state.writers && state.writers[w] == Moved(old(state).writers[w], step)
    {
      DoKeepsInv(state, Act(w, step));
      EvolvesNot(Next, state);
      EvolvesNext(Next, state, state, Act(w, step));
      MovesItself(state, w, step);
      hide Inv; hide Acted; hide CanAct;
      state := Acted(state, w, step);
      ghost var acted := state;
      Others(w);
      EvolvesOn(Next, old(state), acted, state);
    }

    /** The target's lock: it may be there already, or be created and then not be written. */
    method AcquireLock(w: Id, ghost call: Request, faults: Faults) returns (held: bool)
      requires At(w, Start, call)
      modifies this
      ensures Evolves(Next, old(state), state) && At(w, if held then Locked else Done, call)
      ensures held ==> Owns(state, w, TargetLock(call.target)) && !faults.openLock && !faults.writeLock
      ensures !held ==> faults.openLock || faults.writeLock || Met(old(state), w, TakenBy(TargetLock(call.target)), state)
      ensures !held ==> forall l :: Owns(state, w, l) ==> l == TargetLock(call.target) && faults.dropLock
      ensures !held ==> state.writers[w].failed && !state.writers[w].committed && !state.writers[w].unlinkThrew && w !in state.temps
      ensures held ==> state.writers[w].leaked == {}
    {
      hide Inv; hide Evolves; hide Moved; hide InTheWay; hide Met;
      StartsAt(state, w);
      TakesLock(state.writers[w], faults.dropLock);
      if faults.openLock || TargetLock(state.writers[w].call.target) in state.locks {
        Take(w, Refuse);
        if !faults.openLock { MetNow(old(state), old(state), w, TakenBy(TargetLock(call.target)), state); }
        StandsAt(state, w);
        return false;
      }
      Take(w, OpenLock);
      ghost var begun := state;
      if faults.writeLock {
        Take(w, AbandonLock(!faults.dropLock));
      } else {
        Take(w, WriteLock);
      }
      EvolvesOn(Next, old(state), begun, state);
      StandsAt(state, w);
      held := !faults.writeLock;
    }

    /** The lock that all creations share; one that cannot be written is removed again, or left behind. */
    method AcquireCreateLock(w: Id, ghost call: Request, faults: Faults) returns (held: bool)
      requires At(w, Matched, call) && call.expected.None?
      modifies this
      ensures Evolves(Next, old(state), state) && At(w, if held then CreateLocked else Unwinding, call)
      ensures held ==> !faults.openCreate && !faults.writeCreate
      ensures !held ==> faults.openCreate || faults.writeCreate || Met(old(state), w, TakenBy(CreateLock), state)
      ensures !held ==> state.writers[w].failed
      ensures !state.writers[w].committed && LeftCreate(state.writers[w], faults)
    {
      hide Inv; hide Evolves; hide Moved; hide InTheWay; hide Met; hide CanAct;
      NotYetWritten(state, w);
      LocksOf(state, w);
      MayTakeCreateLock(state, w);
      TakesCreateLock(state.writers[w], faults.dropCreate);
      if faults.openCreate || CreateLock in state.locks {
        Take(w, Throw);
        if !faults.openCreate { MetNow(old(state), old(state), w, TakenBy(CreateLock), state); }
        return false;
      }
      Take(w, OpenCreateLock);
      ghost var begun := state;
      MayTakeCreateLock(state, w);
      if faults.writeCreate { Take(w, AbandonCreateLock(!faults.dropCreate)); } else { Take(w, WriteCreateLock); }
      EvolvesOn(Next, old(state), begun, state);
      held := !faults.writeCreate;
    }

    /** A creation also takes that lock, and counts the documents under it. */
    method ReserveSlot(w: Id, ghost call: Request, faults: Faults) returns (reserved: bool)
      requires At(w, Matched, call) && call.expected.None?
      modifies this
      ensures Evolves(Next, old(state), state) && At(w, if reserved then Ready else Unwinding, call)
      ensures reserved ==> Owns(state, w, CreateLock) && Owns(state, w, TargetLock(call.target)) && Reserves(faults)
      ensures !reserved ==> !Reserves(faults) || Met(old(state), w, TakenBy(CreateLock), state) || Met(old(state), w, Full, state)
      ensures !reserved ==> state.writers[w].failed
      ensures !state.writers[w].committed && LeftCreate(state.writers[w], faults)
    {
      hide Inv; hide Evolves; hide HeldAfter; hide TemporaryAfter; hide LeakedAfter; hide Met;
      var held := AcquireCreateLock(w, call, faults);
      if !held { return false; }
      ghost var locked := state;
      reserved := !faults.list && |state.files| < state.max;
      if reserved { Take(w, Count); } else { Take(w, Throw); }
      Leaks(locked.writers[w], if reserved then Count else Throw);
      if !reserved && !faults.list { MetNow(old(state), locked, w, Full, state); }
      EvolvesOn(Next, old(state), locked, state);
      StandsAt(state, w);
    }

    /** The new content goes to a temporary file first, whole. */
    method WriteTemporary(w: Id, ghost call: Request, faults: Faults) returns (written: bool)
      requires At(w, Ready, call) || (At(w, Matched, call) && call.expected.Some?)
      modifies this
      ensures Evolves(Next, old(state), state) && At(w, if written then TempWritten else Unwinding, call)
      ensures written ==> w in state.temps && state.temps[w] == call.content
      ensures written == (!faults.openTemp && !faults.writeTemp)
      ensures !written ==> state.writers[w].failed
      ensures !state.writers[w].committed && state.writers[w].leaked == old(state).writers[w].leaked
    {
      hide Inv; hide Evolves; hide Moved; hide CanAct;
      NotYetWritten(state, w);
      MayWriteTemporary(state, w);
      Throws(state.writers[w]);
      if faults.openTemp {
        Take(w, Throw);
        return false;
      }
      WritesTemporary(state.writers[w], faults.partial);
      Take(w, OpenTemp(faults.partial));
      ghost var begun := state;
      MayWriteTemporary(state, w);
      Throws(state.writers[w]);
      if faults.writeTemp { Take(w, Throw); } else { Take(w, WriteTemp); }
      EvolvesOn(Next, old(state), begun, state);
      StandsAt(state, w);
      written := !faults.writeTemp;
    }

    /** Only then is the target looked at again. */
    method Prepare(w: Id, ghost call: Request, faults: Faults) returns (fine: bool)
      requires At(w, Ready, call) || (At(w, Matched, call) && call.expected.Some?)
      modifies this
      ensures Evolves(Next, old(state), state) && At(w, if fine then Rechecked else Unwinding, call)
      ensures fine && !Touched(state.log, state.writers[w].since, call.target) ==> DigestAt(state.files, call.target) == call.expected
      ensures fine ==> w in state.temps && state.temps[w] == call.content
      ensures fine ==> !faults.openTemp && !faults.writeTemp && !faults.reread
      ensures !fine ==> faults.openTemp || faults.writeTemp || faults.reread || Met(old(state), w, Changed(call.target, call.expected), state)
      ensures !fine ==> state.writers[w].failed
      ensures !state.writers[w].committed && state.writers[w].leaked == old(state).writers[w].leaked
    {
      hide Inv; hide Evolves; hide HeldAfter; hide TemporaryAfter; hide LeakedAfter; hide Met; hide InTheWay;
      var written := WriteTemporary(w, call, faults);
      if !written { return false; }
      ghost var now := state;
      var x := state.writers[w];
      fine := !faults.reread && DigestAt(state.files, x.call.target) == x.call.expected;
      if fine { Take(w, Recompare(|state.log|)); } else { Take(w, Throw); }
      Leaks(x, if fine then Recompare(|now.log|) else Throw);
      if !fine && !faults.reread {
        Differs(now, w, x.call);
        MetNow(old(state), now, w, Changed(call.target, call.expected), state);
      }
      EvolvesOn(Next, old(state), now, state);
      StandsAt(state, w);
    }

    /** A creation links its file to a free path, an update renames it over the old one. */
    method Publish(w: Id, ghost call: Request, faults: Faults) returns (ghost published: bool)
      requires At(w, Rechecked, call)
      modifies this
      ensures Evolves(Next, old(state), state) && At(w, Unwinding, call)
      ensures CommitsBy(state.log, w) == (if published then 1 else 0)
      ensures published ==> !faults.publish
      ensures !published ==> faults.publish || (call.expected.None? && Met(old(state), w, Changed(call.target, None), state))
      ensures state.writers[w].failed <==> !published || (call.expected.None? && faults.unlink)
      ensures state.writers[w].leaked == old(state).writers[w].leaked
      ensures call.expected.None? ==> state.writers[w].createHeld
    {
      hide Inv; hide Evolves; hide Met; hide InTheWay; hide Moved;
      var x := state.writers[w];
      NotYetWritten(state, w);
      StandsAt(state, w);
      Throws(x);
      Publishes(x);
      if faults.publish || (x.call.expected.None? && x.call.target in state.files) {
        Take(w, Throw);
        if !faults.publish {
          Occupies(old(state), w, x.call.target);
          MetNow(old(state), old(state), w, Changed(call.target, None), state);
        }
      } else if x.call.expected.None? {
        Take(w, Link);
        ghost var linked := state;
        Throws(state.writers[w]);
        if faults.unlink { Take(w, Throw); } else { Take(w, UnlinkTemp); }
        EvolvesOn(Next, old(state), linked, state);
      } else {
        Take(w, Rename);
      }
      published := state.writers[w].committed;
      WrittenOnce(state, w);
    }

    /** What is tried once the target's lock is held; any failure goes to the clean-up. */
    method TryWrite(w: Id, ghost call: Request, faults: Faults) returns (ghost published: bool)
      requires At(w, Locked, call) && state.writers[w].leaked == {}
      modifies this
      ensures Evolves(Next, old(state), state) && At(w, Unwinding, call)
      ensures CommitsBy(state.log, w) == (if published then 1 else 0)
      ensures if published then state.writers[w].failed <==> state.writers[w].unlinkThrew else state.writers[w].failed
      ensures state.writers[w].unlinkThrew ==> published && call.expected.None?
      ensures !state.writers[w].failed ==> Tries(faults, call.expected.None?)
      ensures state.writers[w].failed ==> !Tries(faults, call.expected.None?) || Hindered(old(state), w, call, state)
      ensures forall l :: l in state.writers[w].leaked ==> l == CreateLock && call.expected.None? && faults.dropCreate
      ensures !state.writers[w].failed && call.expected.None? ==> state.writers[w].createHeld
    {
      hide Inv; hide Evolves; hide InTurn; hide Allowed; hide Met; hide InTheWay; hide LeakedAfter;
      published := false;
      var x := state.writers[w];
      if faults.readTarget || DigestAt(state.files, x.call.target) != x.call.expected {
        MayStop(state, w);
        NotYetWritten(state, w);
        Take(w, Throw);
        Leaks(x, Throw);
        if !faults.readTarget {
          Differs(old(state), w, x.call);
          MetNow(old(state), old(state), w, Changed(call.target, call.expected), state);
        }
        Unwinds(state, w);
        return;
      }
      MayCompare(state, w);
      Take(w, Compare);
      Leaks(x, Compare);
      ghost var now := state;
      if x.call.expected.None? {
        var reserved := ReserveSlot(w, call, faults);
        HinderedLater(old(state), now, w, call, state);
        EvolvesOn(Next, old(state), now, state);
        if !reserved { Unwinds(state, w); return; }
        now := state;
      }
      var fine := Prepare(w, call, faults);
      HinderedLater(old(state), now, w, call, state);
      EvolvesOn(Next, old(state), now, state);
      if !fine { Unwinds(state, w); return; }
      now := state;
      published := Publish(w, call, faults);
      HinderedLater(old(state), now, w, call, state);
      EvolvesOn(Next, old(state), now, state);
      Unwinds(state, w);
    }

    /** The clean-up, whatever happened: the temporary file, the shared lock, the target's lock. */
    method CleanUp(w: Id, ghost call: Request, faults: Faults)
      requires At(w, Unwinding, call)
      modifies this
      ensures Evolves(Next, old(state), state) && At(w, Done, call)
      ensures forall l :: Owns(state, w, l) ==> l in state.writers[w].leaked
      ensures w in state.temps ==> faults.cleanTemp
      ensures CommitsBy(state.log, w) == old(CommitsBy(state.log, w))
      ensures state.writers[w].unlinkThrew == old(state).writers[w].unlinkThrew
      ensures forall l :: l in state.writers[w].leaked ==>
                || l in old(state).writers[w].leaked
                || (l == TargetLock(call.target) && faults.freeLock)
                || (l == CreateLock && call.expected.None? && faults.freeCreate)
      ensures state.writers[w].failed <==> old(state).writers[w].failed || faults.freeLock || (old(state).writers[w].createHeld && faults.freeCreate)
    {
      hide Inv; hide Evolves; hide Moved; hide CommitsBy; hide CanAct; hide Owns;
      WrittenOnce(state, w);
      HeldAtTheEnd(state, w);
      CleansUp(state.writers[w], !faults.cleanTemp, !faults.freeCreate, !faults.freeLock);
      MayCleanUp(state, w);
      Take(w, CleanTemp(!faults.cleanTemp));
      ghost var now := state;
      MayCleanUp(state, w);
      Take(w, ReleaseCreate(!faults.freeCreate));
      EvolvesOn(Next, old(state), now, state);
      now := state;
      MayCleanUp(state, w);
      Take(w, ReleaseTarget(!faults.freeLock));
      EvolvesOn(Next, old(state), now, state);
      StandsAt(state, w);
      WrittenOnce(state, w);
    }

    /**
     The whole call. It always ends, having gone through moves of the protocol only; it
     returns exactly when it has written once and given every lock back. It throws only
     if a file-system call of its own threw, or at some moment in between another call
     had a lock that it needs, the target did not have the content expected, or a
     creation found as many documents as there may be; and it returns only if none of
     its calls threw.
     */
    method WriteDocument(w: Id, call: Request, faults: Faults) returns (ok: bool)
      requires Inv(state) && w !in state.writers
      modifies this
      ensures Evolves(Next, old(state), state) && At(w, Done, call)
      ensures ok == !state.writers[w].failed
      ensures ok ==> CommitsBy(state.log, w) == 1 && w !in state.temps && forall l :: l in state.locks ==> state.locks[l] != w
      ensures CommitsBy(state.log, w) == 1 ==> (ok <==> !state.writers[w].unlinkThrew && state.writers[w].leaked == {})
      ensures state.writers[w].unlinkThrew ==> call.expected.None?
      ensures forall e :: e in state.log && e.Commit? && e.writer == w ==> Request(e.path, e.content, e.expected) == call
      ensures ok ==> Clear(faults, call.expected.None?)
      ensures !ok && Clear(faults, call.expected.None?) ==>
                Met(old(state), w, TakenBy(TargetLock(call.target)), state) || Hindered(old(state), w, call, state)
      ensures forall l :: Owns(state, w, l) ==>
                || (l == TargetLock(call.target) && (faults.dropLock || faults.freeLock))
                || (l == CreateLock && call.expected.None? && (faults.dropCreate || faults.freeCreate))
      ensures w in state.temps ==> faults.cleanTemp
    {
      DoKeepsInv(state, Action.Call(w, call));
      EvolvesNot(Next, state);
      EvolvesNext(Next, state, state, Action.Call(w, call));
      Begins(state, w, call);
      hide Inv; hide Evolves; hide Do; hide Met; hide Tries; hide Hindered; hide CommitsBy; hide Called;
      state := Do(state, Action.Call(w, call));
      ghost var now := state;
      Others(w);
      EvolvesOn(Next, old(state), now, state);
      now := state;
      var held := AcquireLock(w, call, faults);
      if !held && !faults.openLock && !faults.writeLock { MetLater(old(state), now, w, TakenBy(TargetLock(call.target)), state); }
      EvolvesOn(Next, old(state), now, state);
      if held {
        now := state;
        ghost var published := TryWrite(w, call, faults);
        ghost var written := state;
        HinderedLater(old(state), now, w, call, state);
        EvolvesOn(Next, old(state), now, state);
        CleanUp(w, call, faults);
        HinderedOn(old(state), written, w, call, state);
        EvolvesOn(Next, old(state), written, state);
      }
      ok := !state.writers[w].failed;
      Ended(state, w);
    }
  }

  predicate Owns(s: State, w: Id, l: Lock) {
    l in s.locks && s.locks[l] == w
  }

  /** What the invariant says of a call at the stages where others rely on it. */
  lemma StandsAt(s: State, w: Id)
    requires Inv(s) && w in s.writers
    ensures var x := s.writers[w];
            && (x.stage == Locked || x.stage == Ready ==> Owns(s, w, TargetLock(x.call.target)))
            && (x.stage == Ready && x.call.expected.None? ==> Owns(s, w, CreateLock))
            && (x.stage == Done ==> forall l :: Owns(s, w, l) ==> l in x.leaked)
            && (w in s.temps ==> x.temporary)
            && (x.stage == TempWritten || x.stage == Rechecked ==> w in s.temps && s.temps[w] == x.call.content)
            && (x.stage == Rechecked && x.call.expected.None? ==> x.createHeld)
            && (x.stage == Rechecked && !Touched(s.log, x.since, x.call.target) ==> DigestAt(s.files, x.call.target) == x.call.expected)
  {
    hide Refines; hide Once; hide Faithful; hide AllSince; hide Touched;
    var x := s.writers[w];
    if x.stage == Locked || x.stage == Ready { KeptAt(s, w, TargetLock(x.call.target)); }
    if x.stage == Ready && x.call.expected.None? { KeptAt(s, w, CreateLock); }
  }

  lemma StartsAt(s: State, w: Id)
    requires Inv(s) && w in s.writers && s.writers[w].stage == Start
    ensures var x := s.writers[w];
            && !x.failed && !x.committed && !x.unlinkThrew && !x.temporary && x.leaked == {}
            && (TargetLock(x.call.target) in s.locks ==> InTheWay(s, w, TakenBy(TargetLock(x.call.target))))
  {
    hide CommitsBy; hide Refines; hide Once; hide Faithful; hide Fresh; hide AllSince; hide Kept; hide TempsFit;
    assert Fits(s.writers[w]);
    assert !Holds(s.writers[w], TargetLock(s.writers[w].call.target));
  }

  /** A call about to take the shared lock has not got it. */
  lemma LocksOf(s: State, w: Id)
    requires Inv(s) && w in s.writers && s.writers[w].stage == Matched
    ensures s.writers[w].leaked == {} && (CreateLock in s.locks ==> InTheWay(s, w, TakenBy(CreateLock)))
  {
    hide CommitsBy; hide Refines; hide Once; hide Faithful; hide Fresh; hide AllSince; hide Kept; hide TempsFit;
    assert Fits(s.writers[w]);
    assert !Holds(s.writers[w], CreateLock);
  }

  lemma HeldAtTheEnd(s: State, w: Id)
    requires Inv(s) && w in s.writers && s.writers[w].stage == Unwinding
    ensures s.writers[w].createHeld ==> s.writers[w].call.expected.None?
  {
    hide CommitsBy; hide Refines; hide Once; hide Faithful; hide Fresh; hide AllSince; hide Owned; hide Kept; hide TempsFit;
    assert Fits(s.writers[w]);
  }

  lemma TakesLock(x: Writer, dropped: bool)
    requires x.stage == Start && x.leaked == {} && !x.failed && !x.committed && !x.unlinkThrew && !x.temporary
    ensures var y := Moved(x, Refuse);
            y.call == x.call && y.stage == Done && y.failed && !y.committed && !y.unlinkThrew && !y.temporary && y.leaked == {}
    ensures var y, z := Moved(Moved(x, OpenLock), WriteLock), Moved(x, OpenLock);
            y.call == z.call == x.call && z.stage == LockOpened && y.stage == Locked && y.leaked == {}
    ensures var y := Moved(Moved(x, OpenLock), AbandonLock(!dropped));
            && y.call == x.call && y.stage == Done && y.failed && !y.committed && !y.unlinkThrew && !y.temporary
            && forall l :: l in y.leaked ==> l == TargetLock(x.call.target) && dropped
  {
  }

  lemma CleansUp(x: Writer, cleaned: bool, freed: bool, released: bool)
    requires x.stage == Unwinding
    ensures var y := Moved(x, CleanTemp(cleaned)); var z := Moved(y, ReleaseCreate(freed)); var last := Moved(z, ReleaseTarget(released));
            && y.stage == FreeingCreate && z.stage == FreeingTarget && last.stage == Done && last.call == x.call
            && last.committed == x.committed && last.unlinkThrew == x.unlinkThrew
            && (last.temporary ==> !cleaned)
            && (last.failed <==> x.failed || !released || (x.createHeld && !freed))
            && last.leaked == x.leaked + (if x.createHeld && !freed then {CreateLock} else {}) + (if released then {} else {TargetLock(x.call.target)})
  {
  }

  lemma MayCleanUp(s: State, w: Id)
    requires w in s.writers
    ensures s.writers[w].stage == Unwinding ==> forall removed :: CanAct(s, w, CleanTemp(removed))
    ensures s.writers[w].stage == FreeingCreate ==> forall removed :: CanAct(s, w, ReleaseCreate(removed))
    ensures s.writers[w].stage == FreeingTarget ==> forall removed :: CanAct(s, w, ReleaseTarget(removed))
  {
  }

  lemma MayWriteTemporary(s: State, w: Id)
    requires w in s.writers
    ensures var x := s.writers[w];
            && (x.stage == Ready || (x.stage == Matched && x.call.expected.Some?) ==>
                  CanAct(s, w, Throw) && forall partial :: CanAct(s, w, OpenTemp(partial)))
            && (x.stage == TempOpened ==> CanAct(s, w, Throw) && CanAct(s, w, WriteTemp))
  {
  }

  lemma MayTakeCreateLock(s: State, w: Id)
    requires w in s.writers && s.writers[w].call.expected.None?
    ensures s.writers[w].stage == Matched ==> CanAct(s, w, Throw) && (CreateLock !in s.locks ==> CanAct(s, w, OpenCreateLock))
    ensures s.writers[w].stage == CreateOpened ==> CanAct(s, w, WriteCreateLock) && forall removed :: CanAct(s, w, AbandonCreateLock(removed))
  {
  }

  lemma TakesCreateLock(x: Writer, dropped: bool)
    requires x.stage == Matched && x.leaked == {}
    ensures var y := Moved(x, Throw);
            y.call == x.call && y.stage == Unwinding && y.failed && y.committed == x.committed && y.leaked == {}
    ensures var z := Moved(x, OpenCreateLock); var y := Moved(z, WriteCreateLock);
            y.call == z.call == x.call && z.stage == CreateOpened && y.stage == CreateLocked && y.committed == x.committed && y.leaked == {}
    ensures var y := Moved(Moved(x, OpenCreateLock), AbandonCreateLock(!dropped));
            y.call == x.call && y.stage == Unwinding && y.failed && y.committed == x.committed && y.leaked == if dropped then {CreateLock} else {}
  {
  }

  /** Any throw on the way to the publication only turns to the clean-up. */
  lemma Throws(x: Writer)
    ensures var y := Moved(x, Throw);
            && y.call == x.call && y.stage == Unwinding && y.failed && y.committed == x.committed && y.leaked == x.leaked
            && y.createHeld == x.createHeld
  {
  }

  lemma WritesTemporary(x: Writer, partial: Bytes)
    ensures var z := Moved(x, OpenTemp(partial)); var y := Moved(z, WriteTemp);
            && y.call == z.call == x.call && z.stage == TempOpened && y.stage == TempWritten
            && y.committed == z.committed == x.committed && y.leaked == z.leaked == x.leaked
  {
  }

  lemma Publishes(x: Writer)
    ensures var y := Moved(x, Rename);
            && y.call == x.call && y.stage == Unwinding && y.committed && y.failed == x.failed && y.leaked == x.leaked
    ensures var z := Moved(x, Link); var y := Moved(z, UnlinkTemp);
            && y.call == z.call == x.call && z.stage == Linked && y.stage == Unwinding
            && y.committed && z.committed && y.failed == z.failed == x.failed && y.leaked == z.leaked == x.leaked
            && y.createHeld == z.createHeld == x.createHeld
  {
  }

  /** The locks left behind change by the one that a step leaves. */
  lemma Leaks(x: Writer, a: Step)
    ensures Moved(x, a).leaked == if Leak(x, a).Some? then x.leaked + {Leak(x, a).value} else x.leaked
  {
  }

  /** What not being able to write the shared lock may leave behind. */
  predicate LeftCreate(x: Writer, f: Faults) {
    forall l :: l in x.leaked ==> l == CreateLock && f.dropCreate
  }

  lemma Differs(s: State, w: Id, call: Request)
    requires DigestAt(s.files, call.target) != call.expected
    ensures InTheWay(s, w, Changed(call.target, call.expected))
  {
  }

  lemma Occupies(s: State, w: Id, p: Path)
    requires p in s.files
    ensures InTheWay(s, w, Changed(p, None))
  {
  }

  lemma MetNow(s: State, m: State, w: Id, o: Obstacle, t: State)
    requires (s == m || Evolves(Next, s, m)) && Evolves(Next, m, t) && InTheWay(m, w, o)
    ensures Met(s, w, o, t)
  {
    hide InTheWay;
    if s == m { EvolvesNot(Next, s); }
    hide Evolves;
  }

  lemma MetLater(s: State, m: State, w: Id, o: Obstacle, t: State)
    requires Evolves(Next, s, m) && Met(m, w, o, t)
    ensures Met(s, w, o, t)
  {
    hide InTheWay; hide Evolves;
    var n :| Evolves(Next, m, n) && Evolves(Next, n, t) && InTheWay(n, w, o);
    EvolvesOn(Next, s, m, n);
  }

  lemma MetOn(s: State, m: State, w: Id, o: Obstacle, t: State)
    requires Met(s, w, o, m) && Evolves(Next, m, t)
    ensures Met(s, w, o, t)
  {
    hide InTheWay; hide Evolves;
    var n :| Evolves(Next, s, n) && Evolves(Next, n, m) && InTheWay(n, w, o);
    EvolvesOn(Next, n, m, t);
  }

  lemma HinderedLater(s: State, m: State, w: Id, call: Request, t: State)
    requires Evolves(Next, s, m)
    ensures Hindered(m, w, call, t) ==> Hindered(s, w, call, t)
  {
    hide Met; hide Evolves;
    if Met(m, w, Changed(call.target, call.expected), t) { MetLater(s, m, w, Changed(call.target, call.expected), t); }
    if Met(m, w, TakenBy(CreateLock), t) { MetLater(s, m, w, TakenBy(CreateLock), t); }
    if Met(m, w, Full, t) { MetLater(s, m, w, Full, t); }
  }

  lemma HinderedOn(s: State, m: State, w: Id, call: Request, t: State)
    requires Evolves(Next, m, t)
    ensures Hindered(s, w, call, m) ==> Hindered(s, w, call, t)
  {
    hide Met; hide Evolves;
    if Met(s, w, Changed(call.target, call.expected), m) { MetOn(s, m, w, Changed(call.target, call.expected), t); }
    if Met(s, w, TakenBy(CreateLock), m) { MetOn(s, m, w, TakenBy(CreateLock), t); }
    if Met(s, w, Full, m) { MetOn(s, m, w, Full, t); }
  }

  lemma WrittenOnce(s: State, w: Id)
    requires Inv(s) && w in s.writers
    ensures CommitsBy(s.log, w) == if s.writers[w].committed then 1 else 0
  {
    hide CommitsBy; hide Refines; hide Faithful; hide Fresh; hide AllSince; hide AllFit; hide Owned; hide Kept;
  }

  lemma NotYetWritten(s: State, w: Id)
    requires Inv(s) && w in s.writers && Running(s.writers[w]) && !Leaving(s.writers[w].stage) && s.writers[w].stage != Linked
    ensures !s.writers[w].committed && !s.writers[w].failed
  {
    hide CommitsBy; hide Refines; hide Once; hide Faithful; hide Fresh; hide AllSince; hide Owned; hide Kept; hide TempsFit;
    assert Fits(s.writers[w]);
  }

  /** On the way to the clean-up: written, and failed just if the unlink threw; or not written, and failed. */
  lemma Unwinds(s: State, w: Id)
    requires Inv(s) && w in s.writers && s.writers[w].stage == Unwinding
    ensures var x := s.writers[w];
            && CommitsBy(s.log, w) == (if x.committed then 1 else 0)
            && (if x.committed then x.failed <==> x.unlinkThrew else x.failed)
            && (x.unlinkThrew ==> x.committed && x.call.expected.None?)
  {
    WrittenOnce(s, w);
    hide CommitsBy; hide Refines; hide Once; hide Faithful; hide Fresh; hide AllSince; hide Owned; hide Kept; hide TempsFit;
    assert Fits(s.writers[w]);
  }

  lemma MayStop(s: State, w: Id)
    requires w in s.writers && s.writers[w].stage == Locked
    ensures CanAct(s, w, Throw) && Moved(s.writers[w], Throw).stage == Unwinding && Moved(s.writers[w], Throw).call == s.writers[w].call
  {
  }

  lemma MayCompare(s: State, w: Id)
    requires w in s.writers && s.writers[w].stage == Locked && DigestAt(s.files, s.writers[w].call.target) == s.writers[w].call.expected
    ensures CanAct(s, w, Compare) && Moved(s.writers[w], Compare).stage == Matched && Moved(s.writers[w], Compare).call == s.writers[w].call
  {
  }

  lemma Begins(s: State, w: Id, call: Request)
    requires w !in s.writers
    ensures CanDo(s, Action.Call(w, call))
    ensures w in Do(s, Action.Call(w, call)).writers && Do(s, Action.Call(w, call)).writers[w] == Called(call)
  {
  }

  lemma Ended(s: State, w: Id)
    requires Inv(s) && w in s.writers && s.writers[w].stage == Done
    ensures var x := s.writers[w];
            && (!x.failed ==> CommitsBy(s.log, w) == 1 && w !in s.temps && forall l :: l in s.locks ==> s.locks[l] != w)
            && (CommitsBy(s.log, w) == 1 ==> (x.failed <==> x.unlinkThrew || x.leaked != {}))
            && (x.unlinkThrew ==> x.call.expected.None?)
    ensures forall e :: e in s.log && e.Commit? && e.writer == w ==> Request(e.path, e.content, e.expected) == s.writers[w].call
  {
    WrittenOnce(s, w);
    StandsAt(s, w);
    hide CommitsBy; hide Refines; hide Once; hide Fresh; hide AllSince; hide Owned; hide Kept; hide TempsFit;
    assert Fits(s.writers[w]);
  }

  lemma OtherWriter(s: State, a: Action, w: Id)
    requires CanDo(s, a) && !((a.Act? || a.Call?) && a.w == w)
    ensures w in s.writers ==> w in Do(s, a).writers && Do(s, a).writers[w] == s.writers[w]
    ensures w !in s.writers ==> w !in Do(s, a).writers
  {
    hide Moved; hide InTurn; hide Allowed; hide LocksAfter; hide TempsAfter;
  }

  lemma MovesItself(s: State, w: Id, step: Step)
    requires CanAct(s, w, step)
    ensures w in Acted(s, w, step).writers && Acted(s, w, step).writers[w] == Moved(s.writers[w], step)
  {
    hide Moved; hide InTurn; hide Allowed; hide LocksAfter; hide TempsAfter;
  }
}

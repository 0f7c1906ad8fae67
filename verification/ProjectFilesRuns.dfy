/**
 Runs of the Project Files protocol that show what can happen: how a document comes to
 be there although its call failed, and how an editor loses a change.
 */
module ProjectFilesRuns {
  import opened History
  import opened ProjectFiles
  import opened Options

  /** The moves of the calls alone: editors keep still. */
  function Unedited(s: State, a: Action): State {
    if a.Edit? then s else Next(s, a)
  }

  ghost predicate Reachable(s: State, t: State) {
    Evolves(Next, s, t)
  }

  lemma UneditedReachable(s: State, t: State)
    requires Evolves(Unedited, s, t)
    ensures Reachable(s, t)
  {
    var reached := (x: State) => Evolves(Next, s, x);
    EvolvesNot(Next, s);
    forall x, a | reached(x) ensures reached(Unedited(x, a)) {
      EvolvesNext(Next, s, x, a);
      hide Next; hide Evolves;
    }
    EvolvesKeeps(Unedited, reached, s, t);
  }

  /** A state as it was, but for one writer, the locks and the temporary files. */
  function With(s: State, w: Id, x: Writer, locks: map<Lock, Id>, temps: map<Id, Bytes>): State {
    s.(writers := s.writers[w := x], locks := locks, temps := temps)
  }

  /** From the first state the calls alone can lead to this one. */
  ghost predicate Stands(from: State, s: State, w: Id, x: Writer, locks: map<Lock, Id>, temps: map<Id, Bytes>) {
    Evolves(Unedited, from, With(s, w, x, locks, temps))
  }

  /** One step of a call that only moves the call, its locks and its temporary file. */
  lemma Steps(from: State, s: State, w: Id, x: Writer, locks: map<Lock, Id>, temps: map<Id, Bytes>, step: Step,
              y: Writer, locks': map<Lock, Id>, temps': map<Id, Bytes>)
    requires Stands(from, s, w, x, locks, temps)
    requires InTurn(x, step) && Allowed(With(s, w, x, locks, temps), w, step) && !step.Link? && !step.Rename?
    requires y == Moved(x, step) && locks' == LocksAfter(locks, w, x, step) && temps' == TempsAfter(temps, w, x, step)
    ensures Stands(from, s, w, y, locks', temps')
  {
    var m := With(s, w, x, locks, temps);
    hide Moved; hide LocksAfter; hide TempsAfter; hide Allowed; hide InTurn; hide Evolves;
    EvolvesNext(Unedited, from, m, Act(w, step));
    assert m.writers[w := y] == s.writers[w := y];
  }

  /** The step that changes the documents. */
  lemma Commits(from: State, s: State, w: Id, x: Writer, locks: map<Lock, Id>, temps: map<Id, Bytes>, step: Step, y: Writer, temps': map<Id, Bytes>)
    requires Stands(from, s, w, x, locks, temps) && w in temps && (step.Link? || step.Rename?)
    requires InTurn(x, step) && Allowed(With(s, w, x, locks, temps), w, step)
    requires y == Moved(x, step) && temps' == TempsAfter(temps, w, x, step)
    ensures Stands(from, s.(files := s.files[x.call.target := temps[w]],
                            log := s.log + [Commit(w, x.call.target, x.call.expected, temps[w], x.since)]), w, y, locks, temps')
  {
    var m := With(s, w, x, locks, temps);
    assert LocksAfter(locks, w, x, step) == locks;
    hide Moved; hide LocksAfter; hide TempsAfter; hide Allowed; hide InTurn; hide Evolves;
    EvolvesNext(Unedited, from, m, Act(w, step));
    assert m.writers[w := y] == s.writers[w := y];
  }

  lemma OpensLock(from: State, s: State, w: Id, x: Writer, locks: map<Lock, Id>, temps: map<Id, Bytes>)
    requires Stands(from, s, w, x, locks, temps) && x.stage == Start && TargetLock(x.call.target) !in locks
    ensures Stands(from, s, w, x.(stage := LockOpened), locks[TargetLock(x.call.target) := w], temps)
  {
    Steps(from, s, w, x, locks, temps, OpenLock, x.(stage := LockOpened), locks[TargetLock(x.call.target) := w], temps);
  }

  lemma WritesLock(from: State, s: State, w: Id, x: Writer, locks: map<Lock, Id>, temps: map<Id, Bytes>)
    requires Stands(from, s, w, x, locks, temps) && x.stage == LockOpened
    ensures Stands(from, s, w, x.(stage := Locked), locks, temps)
  {
    Steps(from, s, w, x, locks, temps, WriteLock, x.(stage := Locked), locks, temps);
  }

  lemma Compares(from: State, s: State, w: Id, x: Writer, locks: map<Lock, Id>, temps: map<Id, Bytes>)
    requires Stands(from, s, w, x, locks, temps) && x.stage == Locked && DigestAt(s.files, x.call.target) == x.call.expected
    ensures Stands(from, s, w, x.(stage := Matched), locks, temps)
  {
    Steps(from, s, w, x, locks, temps, Compare, x.(stage := Matched), locks, temps);
  }

  lemma OpensCreateLock(from: State, s: State, w: Id, x: Writer, locks: map<Lock, Id>, temps: map<Id, Bytes>)
    requires Stands(from, s, w, x, locks, temps) && x.stage == Matched && x.call.expected.None? && CreateLock !in locks
    ensures Stands(from, s, w, x.(stage := CreateOpened), locks[CreateLock := w], temps)
  {
    Steps(from, s, w, x, locks, temps, OpenCreateLock, x.(stage := CreateOpened), locks[CreateLock := w], temps);
  }

  lemma WritesCreateLock(from: State, s: State, w: Id, x: Writer, locks: map<Lock, Id>, temps: map<Id, Bytes>)
    requires Stands(from, s, w, x, locks, temps) && x.stage == CreateOpened
    ensures Stands(from, s, w, x.(stage := CreateLocked, createHeld := true), locks, temps)
  {
    Steps(from, s, w, x, locks, temps, WriteCreateLock, x.(stage := CreateLocked, createHeld := true), locks, temps);
  }

  lemma Counts(from: State, s: State, w: Id, x: Writer, locks: map<Lock, Id>, temps: map<Id, Bytes>)
    requires Stands(from, s, w, x, locks, temps) && x.stage == CreateLocked && |s.files| < s.max
    ensures Stands(from, s, w, x.(stage := Ready), locks, temps)
  {
    Steps(from, s, w, x, locks, temps, Count, x.(stage := Ready), locks, temps);
  }

  lemma OpensTemp(from: State, s: State, w: Id, x: Writer, locks: map<Lock, Id>, temps: map<Id, Bytes>)
    requires Stands(from, s, w, x, locks, temps) && (x.stage == Ready || (x.stage == Matched && x.call.expected.Some?))
    ensures Stands(from, s, w, x.(stage := TempOpened, temporary := true), locks, temps[w := []])
  {
    Steps(from, s, w, x, locks, temps, OpenTemp([]), x.(stage := TempOpened, temporary := true), locks, temps[w := []]);
  }

  lemma WritesTemp(from: State, s: State, w: Id, x: Writer, locks: map<Lock, Id>, temps: map<Id, Bytes>)
    requires Stands(from, s, w, x, locks, temps) && x.stage == TempOpened
    ensures Stands(from, s, w, x.(stage := TempWritten), locks, temps[w := x.call.content])
  {
    Steps(from, s, w, x, locks, temps, WriteTemp, x.(stage := TempWritten), locks, temps[w := x.call.content]);
  }

  lemma Recompares(from: State, s: State, w: Id, x: Writer, locks: map<Lock, Id>, temps: map<Id, Bytes>)
    requires Stands(from, s, w, x, locks, temps) && x.stage == TempWritten && DigestAt(s.files, x.call.target) == x.call.expected
    ensures Stands(from, s, w, x.(stage := Rechecked, since := |s.log|), locks, temps)
  {
    Steps(from, s, w, x, locks, temps, Recompare(|s.log|), x.(stage := Rechecked, since := |s.log|), locks, temps);
  }

  lemma Unlinks(from: State, s: State, w: Id, x: Writer, locks: map<Lock, Id>, temps: map<Id, Bytes>, ends: bool)
    requires Stands(from, s, w, x, locks, temps) && x.stage == Linked
    ensures Stands(from, s, w, if ends then x.(stage := Unwinding, temporary := false) else x.(stage := Unwinding, failed := true, unlinkThrew := true), locks, if ends then temps - {w} else temps)
  {
    Steps(from, s, w, x, locks, temps, if ends then UnlinkTemp else Throw, if ends then x.(stage := Unwinding, temporary := false) else x.(stage := Unwinding, failed := true, unlinkThrew := true), locks, if ends then temps - {w} else temps);
  }

  lemma CleansTemp(from: State, s: State, w: Id, x: Writer, locks: map<Lock, Id>, temps: map<Id, Bytes>)
    requires Stands(from, s, w, x, locks, temps) && x.stage == Unwinding
    ensures Stands(from, s, w, x.(stage := FreeingCreate, temporary := false), locks, if x.temporary then temps - {w} else temps)
  {
    Steps(from, s, w, x, locks, temps, CleanTemp(true), x.(stage := FreeingCreate, temporary := false), locks, if x.temporary then temps - {w} else temps);
  }

  lemma ReleasesCreate(from: State, s: State, w: Id, x: Writer, locks: map<Lock, Id>, temps: map<Id, Bytes>)
    requires Stands(from, s, w, x, locks, temps) && x.stage == FreeingCreate
    ensures Stands(from, s, w, x.(stage := FreeingTarget, createHeld := false), if x.createHeld then locks - {CreateLock} else locks, temps)
  {
    Steps(from, s, w, x, locks, temps, ReleaseCreate(true), x.(stage := FreeingTarget, createHeld := false), if x.createHeld then locks - {CreateLock} else locks, temps);
  }

  lemma ReleasesTarget(from: State, s: State, w: Id, x: Writer, locks: map<Lock, Id>, temps: map<Id, Bytes>, removed: bool)
    requires Stands(from, s, w, x, locks, temps) && x.stage == FreeingTarget
    ensures Stands(from, s, w, if removed then x.(stage := Done) else x.(stage := Done, failed := true, leaked := x.leaked + {TargetLock(x.call.target)}), if removed then locks - {TargetLock(x.call.target)} else locks, temps)
  {
    Steps(from, s, w, x, locks, temps, ReleaseTarget(removed), if removed then x.(stage := Done) else x.(stage := Done, failed := true, leaked := x.leaked + {TargetLock(x.call.target)}), if removed then locks - {TargetLock(x.call.target)} else locks, temps);
  }

  /** Nothing is in the way of a new call that creates a document. */
  predicate FreeFor(s: State, w: Id, q: Path) {
    && w !in s.writers && w !in s.temps && q !in s.files && |s.files| < s.max
    && TargetLock(q) !in s.locks && CreateLock !in s.locks
  }

  function TargetTaken(s: State, w: Id, q: Path): map<Lock, Id> {
    s.locks[TargetLock(q) := w]
  }

  function BothTaken(s: State, w: Id, q: Path): map<Lock, Id> {
    s.locks[TargetLock(q) := w][CreateLock := w]
  }

  function Creator(q: Path, b: Bytes): Writer {
    Called(Request(q, b, None))
  }

  lemma Calls(s: State, w: Id, call: Request)
    requires w !in s.writers
    ensures Stands(s, s, w, Called(call), s.locks, s.temps)
  {
    EvolvesNot(Unedited, s);
    EvolvesNext(Unedited, s, s, Call(w, call));
  }

  /** A creation that has taken both locks. */
  lemma CreationLocks(s: State, w: Id, q: Path, b: Bytes)
    requires FreeFor(s, w, q)
    ensures Stands(s, s, w, Creator(q, b).(stage := CreateLocked, createHeld := true), BothTaken(s, w, q), s.temps)
  {
    hide Stands;
    var x, one, both := Creator(q, b), TargetTaken(s, w, q), BothTaken(s, w, q);
    Calls(s, w, x.call);
    OpensLock(s, s, w, x, s.locks, s.temps);
    WritesLock(s, s, w, x.(stage := LockOpened), one, s.temps);
    Compares(s, s, w, x.(stage := Locked), one, s.temps);
    OpensCreateLock(s, s, w, x.(stage := Matched), one, s.temps);
    WritesCreateLock(s, s, w, x.(stage := CreateOpened), both, s.temps);
  }

  /** A creation that has found room for its document. */
  lemma CreationCounts(s: State, w: Id, q: Path, b: Bytes)
    requires FreeFor(s, w, q)
    ensures Stands(s, s, w, Creator(q, b).(stage := Ready, createHeld := true), BothTaken(s, w, q), s.temps)
  {
    hide Stands;
    CreationLocks(s, w, q, b);
    Counts(s, s, w, Creator(q, b).(stage := CreateLocked, createHeld := true), BothTaken(s, w, q), s.temps);
  }

  /** The document is there, whatever becomes of the call that created it. */
  function Added(s: State, w: Id, q: Path, b: Bytes, since: nat): State {
    s.(files := s.files[q := b], log := s.log + [Commit(w, q, None, b, since)])
  }

  function Counted(q: Path, b: Bytes): Writer {
    Creator(q, b).(stage := Ready, createHeld := true)
  }

  function Committed(q: Path, b: Bytes, since: nat): Writer {
    Creator(q, b).(stage := Linked, createHeld := true, temporary := true, committed := true, since := since)
  }

  /** A creator that has counted can go on to link its document, if it is not there yet. */
  lemma CounterLinks(from: State, s: State, w: Id, q: Path, b: Bytes, locks: map<Lock, Id>)
    requires Stands(from, s, w, Counted(q, b), locks, s.temps) && q !in s.files
    ensures Stands(from, Added(s, w, q, b, |s.log|), w, Committed(q, b, |s.log|), locks, s.temps[w := b])
  {
    hide Stands;
    var x := Counted(q, b).(temporary := true);
    OpensTemp(from, s, w, x.(temporary := false), locks, s.temps);
    WritesTemp(from, s, w, x.(stage := TempOpened), locks, s.temps[w := []]);
    assert s.temps[w := []][w := b] == s.temps[w := b];
    Recompares(from, s, w, x.(stage := TempWritten), locks, s.temps[w := b]);
    Commits(from, s, w, x.(stage := Rechecked, since := |s.log|), locks, s.temps[w := b], Link, Committed(q, b, |s.log|), s.temps[w := b]);
  }

  lemma CreationLinks(s: State, w: Id, q: Path, b: Bytes)
    requires FreeFor(s, w, q)
    ensures Stands(s, Added(s, w, q, b, |s.log|), w, Committed(q, b, |s.log|), BothTaken(s, w, q), s.temps[w := b])
  {
    hide Stands;
    CreationCounts(s, w, q, b);
    CounterLinks(s, s, w, q, b, BothTaken(s, w, q));
  }

  /** The clean-up of a creation, up to its target's lock. */
  lemma CreationCleansUp(s: State, l: State, w: Id, q: Path, x: Writer, temps: map<Id, Bytes>)
    requires FreeFor(s, w, q) && x.stage == Unwinding && x.createHeld
    requires (if x.temporary then temps - {w} else temps) == s.temps
    requires Stands(s, l, w, x, BothTaken(s, w, q), temps)
    ensures Stands(s, l, w, x.(stage := FreeingTarget, createHeld := false, temporary := false), TargetTaken(s, w, q), s.temps)
  {
    assert BothTaken(s, w, q) - {CreateLock} == TargetTaken(s, w, q);
    hide *;
    CleansTemp(s, l, w, x, BothTaken(s, w, q), temps);
    ReleasesCreate(s, l, w, x.(stage := FreeingCreate, temporary := false), BothTaken(s, w, q), s.temps);
  }

  lemma CreationUnlinks(s: State, w: Id, q: Path, b: Bytes)
    requires FreeFor(s, w, q)
    ensures Stands(s, Added(s, w, q, b, |s.log|), w,
                   Committed(q, b, |s.log|).(stage := FreeingTarget, createHeld := false, temporary := false), TargetTaken(s, w, q), s.temps)
  {
    hide Stands;
    var l := Added(s, w, q, b, |s.log|);
    CreationLinks(s, w, q, b);
    Unlinks(s, l, w, Committed(q, b, |s.log|), BothTaken(s, w, q), s.temps[w := b], true);
    assert s.temps[w := b] - {w} == s.temps;
    CreationCleansUp(s, l, w, q, Committed(q, b, |s.log|).(stage := Unwinding, temporary := false), s.temps);
  }

  /** Wherever nothing is in its way, a creation can go through and leave no trace but its document. */
  lemma CreationEnds(s: State, w: Id, q: Path, b: Bytes)
    requires FreeFor(s, w, q)
    ensures Stands(s, Added(s, w, q, b, |s.log|), w,
                   Committed(q, b, |s.log|).(stage := Done, createHeld := false, temporary := false), s.locks, s.temps)
  {
    hide Stands;
    CreationUnlinks(s, w, q, b);
    assert TargetTaken(s, w, q) - {TargetLock(q)} == s.locks;
    ReleasesTarget(s, Added(s, w, q, b, |s.log|), w,
                   Committed(q, b, |s.log|).(stage := FreeingTarget, createHeld := false, temporary := false), TargetTaken(s, w, q), s.temps, true);
  }

  /** A creator whose unlink after the link threw. */
  function Stayed(q: Path, b: Bytes, since: nat): Writer {
    Committed(q, b, since).(stage := Unwinding, failed := true, unlinkThrew := true)
  }

  lemma CreationFails(s: State, w: Id, q: Path, b: Bytes)
    requires FreeFor(s, w, q)
    ensures Stands(s, Added(s, w, q, b, |s.log|), w, Stayed(q, b, |s.log|), BothTaken(s, w, q), s.temps[w := b])
  {
    hide Stands; hide BothTaken; hide Added; hide FreeFor;
    CreationLinks(s, w, q, b);
    Unlinks(s, Added(s, w, q, b, |s.log|), w, Committed(q, b, |s.log|), BothTaken(s, w, q), s.temps[w := b], false);
  }

  lemma CreationStays(s: State, w: Id, q: Path, b: Bytes)
    requires FreeFor(s, w, q)
    ensures Stands(s, Added(s, w, q, b, |s.log|), w,
                   Stayed(q, b, |s.log|).(stage := Done, createHeld := false, temporary := false), s.locks, s.temps)
  {
    var l, one, x := Added(s, w, q, b, |s.log|), TargetTaken(s, w, q), Stayed(q, b, |s.log|);
    assert s.temps[w := b] - {w} == s.temps && one - {TargetLock(q)} == s.locks;
    hide Stands; hide BothTaken; hide TargetTaken; hide Added; hide FreeFor;
    CreationFails(s, w, q, b);
    CreationCleansUp(s, l, w, q, x, s.temps[w := b]);
    ReleasesTarget(s, l, w, x.(stage := FreeingTarget, createHeld := false, temporary := false), one, s.temps, true);
  }

  // ------------------------------------------- written, and reported as failed

  /** What is there and what its caller is told do not agree: call 0 has written and failed. */
  ghost predicate WrittenButFailed(t: State, p: Path, b: Bytes) {
    && 0 in t.writers && t.writers[0].stage == Done && t.writers[0].failed && CommitsBy(t.log, 0) == 1
    && p in t.files && t.files[p] == b
  }

  lemma OneCommit(e: Entry)
    ensures CommitsBy([e], 0) == if e.Commit? && e.writer == 0 then 1 else 0
  {
    assert [e][..0] == [];
  }

  /** A creation whose temporary name cannot be unlinked after the link. */
  lemma UnlinkFails(max: nat, initial: map<Path, Bytes>, p: Path, b: Bytes) returns (t: State)
    requires p !in initial && |initial| < max
    ensures Reachable(JustStarted(max, initial), t) && WrittenButFailed(t, p, b)
    ensures t.writers[0].unlinkThrew && t.writers[0].leaked == {} && t.locks == map[]
  {
    var s := JustStarted(max, initial);
    CreationStays(s, 0, p, b);
    t := With(Added(s, 0, p, b, 0), 0, Stayed(p, b, 0).(stage := Done, createHeld := false, temporary := false), s.locks, s.temps);
    UneditedReachable(s, t);
    OneCommit(Commit(0, p, None, b, 0));
    assert s.log + [Commit(0, p, None, b, 0)] == [Commit(0, p, None, b, 0)];
  }

  /** A creation whose lock cannot be removed, though everything else went well. */
  lemma CreationLeaks(max: nat, initial: map<Path, Bytes>, p: Path, b: Bytes) returns (t: State)
    requires p !in initial && |initial| < max
    ensures Reachable(JustStarted(max, initial), t) && WrittenButFailed(t, p, b)
    ensures !t.writers[0].unlinkThrew && t.writers[0].leaked == {TargetLock(p)}
  {
    var s := JustStarted(max, initial);
    CreationUnlinks(s, 0, p, b);
    ReleasesTarget(s, Added(s, 0, p, b, 0), 0, Committed(p, b, 0).(stage := FreeingTarget, createHeld := false, temporary := false),
                   TargetTaken(s, 0, p), s.temps, false);
    var y := Committed(p, b, 0).(stage := Done, createHeld := false, temporary := false);
    t := With(Added(s, 0, p, b, 0), 0, y.(failed := true, leaked := {TargetLock(p)}), TargetTaken(s, 0, p), s.temps);
    UneditedReachable(s, t);
    OneCommit(Commit(0, p, None, b, 0));
    assert s.log + [Commit(0, p, None, b, 0)] == [Commit(0, p, None, b, 0)];
  }

  function Updater(initial: map<Path, Bytes>, p: Path, b: Bytes): Writer
    requires p in initial
  {
    Called(Request(p, b, Some(Sha256(initial[p]))))
  }

  /** An update of `p` by call 0 that has passed its second comparison, alone on the disk. */
  function AboutToRename(max: nat, initial: map<Path, Bytes>, p: Path, b: Bytes): State
    requires p in initial
  {
    With(JustStarted(max, initial), 0, Updater(initial, p, b).(stage := Rechecked, temporary := true),
         map[TargetLock(p) := 0], map[0 := b])
  }

  lemma UpdateMatches(max: nat, initial: map<Path, Bytes>, p: Path, b: Bytes)
    requires p in initial
    ensures Stands(JustStarted(max, initial), JustStarted(max, initial), 0, Updater(initial, p, b).(stage := Matched), map[TargetLock(p) := 0], map[])
  {
    hide Stands;
    var s, x, locks := JustStarted(max, initial), Updater(initial, p, b), map[TargetLock(p) := 0];
    Calls(s, 0, x.call);
    OpensLock(s, s, 0, x, map[], map[]);
    WritesLock(s, s, 0, x.(stage := LockOpened), locks, map[]);
    Compares(s, s, 0, x.(stage := Locked), locks, map[]);
  }

  lemma UpdateWrites(max: nat, initial: map<Path, Bytes>, p: Path, b: Bytes)
    requires p in initial
    ensures Evolves(Unedited, JustStarted(max, initial), AboutToRename(max, initial, p, b))
  {
    var s, locks := JustStarted(max, initial), map[TargetLock(p) := 0];
    var x := Updater(initial, p, b);
    assert Stands(s, s, 0, x.(stage := Rechecked, temporary := true), locks, map[0 := b]) by {
      hide Stands;
      UpdateMatches(max, initial, p, b);
      OpensTemp(s, s, 0, x.(stage := Matched), locks, map[]);
      WritesTemp(s, s, 0, x.(stage := TempOpened, temporary := true), locks, map[0 := []]);
      assert map[0 := []][0 := b] == map[0 := b];
      Recompares(s, s, 0, x.(stage := TempWritten, temporary := true), locks, map[0 := b]);
    }
  }

  function Renamed(max: nat, initial: map<Path, Bytes>, p: Path, b: Bytes): State
    requires p in initial
  {
    var s := JustStarted(max, initial);
    s.(files := initial[p := b], log := s.log + [Commit(0, p, Some(Sha256(initial[p])), b, 0)])
  }

  lemma UpdateRenames(max: nat, initial: map<Path, Bytes>, p: Path, b: Bytes)
    requires p in initial
    ensures Stands(JustStarted(max, initial), Renamed(max, initial, p, b), 0,
                   Updater(initial, p, b).(committed := true, stage := Unwinding), map[TargetLock(p) := 0], map[])
  {
    UpdateWrites(max, initial, p, b);
    var s, x := JustStarted(max, initial), Updater(initial, p, b);
    assert map[0 := b] - {0} == map[];
    assert Stands(s, s, 0, x.(stage := Rechecked, temporary := true), map[TargetLock(p) := 0], map[0 := b]);
    hide Stands;
    Commits(s, s, 0, x.(stage := Rechecked, temporary := true), map[TargetLock(p) := 0], map[0 := b], Rename,
            x.(committed := true, stage := Unwinding), map[]);
  }

  /** An update whose lock cannot be removed. */
  lemma UpdateLeaks(max: nat, initial: map<Path, Bytes>, p: Path, b: Bytes) returns (t: State)
    requires p in initial
    ensures Reachable(JustStarted(max, initial), t) && WrittenButFailed(t, p, b)
    ensures !t.writers[0].unlinkThrew && t.writers[0].leaked == {TargetLock(p)}
  {
    var s, r, locks := JustStarted(max, initial), Renamed(max, initial, p, b), map[TargetLock(p) := 0];
    var x := Updater(initial, p, b).(committed := true);
    var y := x.(stage := Done, failed := true, leaked := {TargetLock(p)});
    assert {} + {TargetLock(p)} == {TargetLock(p)};
    assert Stands(s, r, 0, y, locks, map[]) by {
      UpdateRenames(max, initial, p, b);
      hide Stands; hide Renamed;
      CleansTemp(s, r, 0, x.(stage := Unwinding), locks, map[]);
      ReleasesCreate(s, r, 0, x.(stage := FreeingCreate), locks, map[]);
      ReleasesTarget(s, r, 0, x.(stage := FreeingTarget), locks, map[], false);
    }
    t := With(r, 0, y, locks, map[]);
    UneditedReachable(s, t);
    OneCommit(Commit(0, p, Some(Sha256(initial[p])), b, 0));
    assert r.log == [Commit(0, p, Some(Sha256(initial[p])), b, 0)];
  }

  // ------------------------------------------------------ an editor in the gap

  /** A change an editor makes between an update's second comparison and its rename is overwritten unseen. */
  lemma EditorLosesChange(max: nat, initial: map<Path, Bytes>, p: Path, b: Bytes, mine: Bytes) returns (t: State)
    requires p in initial && mine != initial[p]
    ensures Reachable(JustStarted(max, initial), t)
    ensures t.log == [Outside(p, Some(mine)), Commit(0, p, Some(Sha256(initial[p])), b, 0)] && t.files == initial[p := b]
  {
    hide Evolves; hide Unedited;
    var s, r := JustStarted(max, initial), AboutToRename(max, initial, p, b);
    UpdateWrites(max, initial, p, b);
    UneditedReachable(s, r);
    EvolvesNext(Next, s, r, Edit(p, Some(mine)));
    var e := Edited(r, p, Some(mine));
    EvolvesNext(Next, s, e, Act(0, Rename));
    t := Acted(e, 0, Rename);
  }
}

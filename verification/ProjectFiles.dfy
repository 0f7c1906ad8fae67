/**
 The Project Files write protocol: any number of cooperating writers, each a process
 that may fail or crash between any two of its file-system calls, beside editors that
 know nothing of the locks. One action is one file-system call.
 */
module ProjectFiles {
  import opened History
  import opened Options

  type Path = string
  type Bytes = seq<bv8>
  type Id = nat

  /** SHA-256, taken as injective: a digest determines its content. */
  datatype Digest = Sha256(content: Bytes)

  datatype Lock = TargetLock(target: Path) | CreateLock

  /** Where one call of writeDocument stands. */
  datatype Stage =
    | Start | LockOpened | Locked | Matched | CreateOpened | CreateLocked | Ready
    | TempOpened | TempWritten | Rechecked | Linked
    | Unwinding | FreeingCreate | FreeingTarget | Done | Crashed

  datatype Request = Request(target: Path, content: Bytes, expected: Option<Digest>)

  /**
   One call. `createHeld` and `temporary` are the variables that the final clean-up
   consults; `committed` says the target was linked or renamed, `failed` that the
   caller gets an exception and `unlinkThrew` that it is the one of the unlink after the
   link; `since` is how long the log was at the second comparison, and `leaked` holds
   locks whose removal failed.
   */
  datatype Writer = Writer(
    call: Request, stage: Stage,
    createHeld: bool, temporary: bool, committed: bool, failed: bool, unlinkThrew: bool, since: nat, leaked: set<Lock>)

  /** What happened to the documents, in order. */
  datatype Entry =
    | Commit(writer: Id, path: Path, expected: Option<Digest>, content: Bytes, since: nat)
    | Outside(path: Path, edited: Option<Bytes>)

  datatype State = State(
    max: nat, initial: map<Path, Bytes>,
    files: map<Path, Bytes>, locks: map<Lock, Id>, temps: map<Id, Bytes>, writers: map<Id, Writer>,
    log: seq<Entry>)

  /** One call's own steps: each is a file-system call that went through, or one that threw. */
  datatype Step =
    | OpenLock | Refuse | WriteLock | AbandonLock(removed: bool) | Compare
    | OpenCreateLock | WriteCreateLock | AbandonCreateLock(removed: bool) | Count
    | OpenTemp(partial: Bytes) | WriteTemp | Recompare(now: nat) | Link | UnlinkTemp | Rename
    | Throw | CleanTemp(removed: bool) | ReleaseCreate(removed: bool) | ReleaseTarget(removed: bool)
    | Crash

  datatype Action =
    | Call(w: Id, call: Request)
    | Act(w: Id, step: Step)
    | Edit(path: Path, edited: Option<Bytes>)
    | RemoveStale(lock: Lock)

  function DigestAt(files: map<Path, Bytes>, p: Path): Option<Digest> {
    if p in files then Some(Sha256(files[p])) else None
  }

  predicate Running(x: Writer) { x.stage != Done && x.stage != Crashed }

  /** The stages at which a file-system call may throw into the final clean-up. */
  predicate MayThrow(x: Writer) {
    x.stage == Locked || x.stage == Matched || Creating(x.stage) || Writing(x.stage)
  }

  predicate Creating(g: Stage) { g == CreateLocked || g == Ready }

  predicate Writing(g: Stage) { g == TempOpened || g == TempWritten || g == Rechecked || g == Linked }

  predicate Leaving(g: Stage) { g == Unwinding || g == FreeingCreate || g == FreeingTarget || g == Done }

  /** Where in its own program a writer must be for a step. */
  predicate InTurn(x: Writer, a: Step) {
    match a
    case OpenLock => x.stage == Start
    case Refuse => x.stage == Start
    case WriteLock => x.stage == LockOpened
    case AbandonLock(_) => x.stage == LockOpened
    case Compare => x.stage == Locked
    case OpenCreateLock => x.stage == Matched && x.call.expected.None?
    case WriteCreateLock => x.stage == CreateOpened
    case AbandonCreateLock(_) => x.stage == CreateOpened
    case Count => x.stage == CreateLocked
    case OpenTemp(_) => x.stage == Ready || (x.stage == Matched && x.call.expected.Some?)
    case WriteTemp => x.stage == TempOpened
    case Recompare(_) => x.stage == TempWritten
    case Link => x.stage == Rechecked && x.call.expected.None?
    case UnlinkTemp => x.stage == Linked
    case Rename => x.stage == Rechecked && x.call.expected.Some?
    case Throw => MayThrow(x)
    case CleanTemp(_) => x.stage == Unwinding
    case ReleaseCreate(_) => x.stage == FreeingCreate
    case ReleaseTarget(_) => x.stage == FreeingTarget
    case Crash => Running(x)
  }

  /** What the disk must show for the file-system call to go through. */
  predicate Allowed(s: State, w: Id, a: Step)
    requires w in s.writers
  {
    var x := s.writers[w];
    match a
    case OpenLock => TargetLock(x.call.target) !in s.locks
    case Compare => DigestAt(s.files, x.call.target) == x.call.expected
    case OpenCreateLock => CreateLock !in s.locks
    case Count => |s.files| < s.max
    case Recompare(now) => now == |s.log| && DigestAt(s.files, x.call.target) == x.call.expected
    case Link => w in s.temps && x.call.target !in s.files
    case Rename => w in s.temps
    case _ => true
  }

  predicate CanAct(s: State, w: Id, a: Step) {
    w in s.writers && InTurn(s.writers[w], a) && Allowed(s, w, a)
  }

  function StageAfter(a: Step): Stage {
    match a
    case OpenLock => LockOpened
    case Refuse => Done
    case WriteLock => Locked
    case AbandonLock(_) => Done
    case Compare => Matched
    case OpenCreateLock => CreateOpened
    case WriteCreateLock => CreateLocked
    case AbandonCreateLock(_) => Unwinding
    case Count => Ready
    case OpenTemp(_) => TempOpened
    case WriteTemp => TempWritten
    case Recompare(_) => Rechecked
    case Link => Linked
    case UnlinkTemp => Unwinding
    case Rename => Unwinding
    case Throw => Unwinding
    case CleanTemp(_) => FreeingCreate
    case ReleaseCreate(_) => FreeingTarget
    case ReleaseTarget(_) => Done
    case Crash => Crashed
  }

  function HeldAfter(x: Writer, a: Step): bool {
    if a.WriteCreateLock? then true else if a.ReleaseCreate? then false else x.createHeld
  }

  function TemporaryAfter(x: Writer, a: Step): bool {
    match a
    case OpenTemp(_) => true
    case UnlinkTemp => false
    case Rename => false
    case CleanTemp(removed) => x.temporary && !removed
    case _ => x.temporary
  }

  /** A lock that should have been removed and was not. */
  function Leak(x: Writer, a: Step): Option<Lock> {
    match a
    case AbandonLock(removed) => if removed then None else Some(TargetLock(x.call.target))
    case AbandonCreateLock(removed) => if removed then None else Some(CreateLock)
    case ReleaseCreate(removed) => if x.createHeld && !removed then Some(CreateLock) else None
    case ReleaseTarget(removed) => if removed then None else Some(TargetLock(x.call.target))
    case _ => None
  }

  function LeakedAfter(x: Writer, a: Step): set<Lock> {
    if Leak(x, a).Some? then x.leaked + {Leak(x, a).value} else x.leaked
  }

  /** The exception of a step, which the caller will get. */
  predicate Fails(x: Writer, a: Step) {
    a.Refuse? || a.AbandonLock? || a.AbandonCreateLock? || a.Throw? || Leak(x, a).Some?
  }

  /** The writer after its step. */
  function Moved(x: Writer, a: Step): Writer {
    Writer(x.call, StageAfter(a), HeldAfter(x, a), TemporaryAfter(x, a),
           x.committed || a.Link? || a.Rename?,
           x.failed || Fails(x, a),
           x.unlinkThrew || (a.Throw? && x.stage == Linked),
           if a.Recompare? then a.now else x.since,
           LeakedAfter(x, a))
  }

  /** The lock a step takes. */
  function Taken(x: Writer, a: Step): Option<Lock> {
    match a
    case OpenLock => Some(TargetLock(x.call.target))
    case OpenCreateLock => Some(CreateLock)
    case _ => None
  }

  /** The lock a step gives back. */
  function Freed(x: Writer, a: Step): Option<Lock> {
    match a
    case AbandonLock(removed) => if removed then Some(TargetLock(x.call.target)) else None
    case AbandonCreateLock(removed) => if removed then Some(CreateLock) else None
    case ReleaseCreate(removed) => if x.createHeld && removed then Some(CreateLock) else None
    case ReleaseTarget(removed) => if removed then Some(TargetLock(x.call.target)) else None
    case _ => None
  }

  function LocksAfter(locks: map<Lock, Id>, w: Id, x: Writer, a: Step): map<Lock, Id> {
    if Taken(x, a).Some? then locks[Taken(x, a).value := w]
    else if Freed(x, a).Some? then locks - {Freed(x, a).value}
    else locks
  }

  function TempsAfter(temps: map<Id, Bytes>, w: Id, x: Writer, a: Step): map<Id, Bytes> {
    match a
    case OpenTemp(partial) => temps[w := partial]
    case WriteTemp => temps[w := x.call.content]
    case UnlinkTemp => temps - {w}
    case Rename => temps - {w}
    case CleanTemp(removed) => if x.temporary && removed then temps - {w} else temps
    case _ => temps
  }

  /** The document changes hands in one file-system call, and that call is logged. */
  function Acted(s: State, w: Id, a: Step): State
    requires CanAct(s, w, a)
  {
    var x := s.writers[w];
    var t := s.(locks := LocksAfter(s.locks, w, x, a), temps := TempsAfter(s.temps, w, x, a), writers := s.writers[w := Moved(x, a)]);
    if a.Link? || a.Rename? then
      t.(files := s.files[x.call.target := s.temps[w]], log := s.log + [Commit(w, x.call.target, x.call.expected, s.temps[w], x.since)])
    else t
  }

  /** An editor changes or deletes a document, whoever has locked it. */
  function Edited(s: State, p: Path, edited: Option<Bytes>): State {
    s.(files := if edited.Some? then s.files[p := edited.value] else s.files - {p},
       log := s.log + [Outside(p, edited)])
  }

  function Called(call: Request): Writer {
    Writer(call, Start, false, false, false, false, false, 0, {})
  }

  predicate CanDo(s: State, a: Action) {
    match a
    case Call(w, _) => w !in s.writers
    case Act(w, step) => CanAct(s, w, step)
    case Edit(_, _) => true
    case RemoveStale(l) => l in s.locks && s.locks[l] in s.writers && !Running(s.writers[s.locks[l]])
  }

  function Do(s: State, a: Action): State
    requires CanDo(s, a)
  {
    match a
    case Call(w, call) => s.(writers := s.writers[w := Called(call)])
    case Act(w, step) => Acted(s, w, step)
    case Edit(p, edited) => Edited(s, p, edited)
    case RemoveStale(l) => s.(locks := s.locks - {l})
  }

  ghost predicate Init(s: State) {
    s.files == s.initial && s.locks == map[] && s.temps == map[] && s.writers == map[] && s.log == []
  }

  /** An action that cannot happen leaves everything as it is. */
  function Next(s: State, a: Action): State {
    if CanDo(s, a) then Do(s, a) else s
  }

  // ------------------------------------------------- one writer's variables

  /** The locks a call may have in the lock directory; a crash leaves it open which. */
  predicate Holds(x: Writer, l: Lock) {
    || l in x.leaked
    || (l == TargetLock(x.call.target) && x.stage != Start && x.stage != Done)
    || (l == CreateLock && (x.stage == CreateOpened || x.createHeld || x.stage == Crashed))
  }

  /** Which locks a writer has at each stage. */
  predicate FitsLocks(x: Writer) {
    FitsCreate(x) && FitsLeaks(x)
  }

  predicate FitsCreate(x: Writer) {
    && (x.createHeld ==> Creating(x.stage) || Writing(x.stage) || x.stage == Unwinding || x.stage == FreeingCreate || x.stage == Crashed)
    && (x.createHeld || x.stage == CreateOpened ==> x.call.expected.None?)
    && (Creating(x.stage) || (Writing(x.stage) && x.call.expected.None?) ==> x.createHeld)
  }

  predicate FitsLeaks(x: Writer) {
    && (x.leaked != {} ==> (Leaving(x.stage) || x.stage == Crashed) && !x.createHeld)
    && (Running(x) ==> TargetLock(x.call.target) !in x.leaked)
  }

  /** How a call that is over, or nearly so, stands. */
  predicate FitsFate(x: Writer) {
    && (x.stage == Linked ==> x.call.expected.None?)
    && (x.failed ==> Leaving(x.stage) || x.stage == Crashed)
    && (x.committed ==> Leaving(x.stage) || x.stage == Linked || x.stage == Crashed)
    && (Leaving(x.stage) || x.stage == Linked ==> x.committed || x.failed)
  }

  /** Whether it still means to unlink its temporary file. */
  predicate FitsTemporary(x: Writer) {
    && (Leaving(x.stage) && !x.failed ==> !x.temporary)
    && (Writing(x.stage) ==> x.temporary)
    && (x.temporary ==> Leaving(x.stage) || Writing(x.stage) || x.stage == Crashed)
  }

  /** A call that wrote and then failed could not unlink after its link, or could not remove a lock. */
  predicate FitsEnd(x: Writer) {
    && (x.unlinkThrew ==> x.committed && x.failed && x.call.expected.None?)
    && (x.leaked != {} ==> x.failed)
    && (x.committed && x.failed ==> x.unlinkThrew || x.leaked != {})
    && (x.committed && x.stage == Unwinding ==> x.leaked == {})
  }

  predicate Fits(x: Writer) {
    FitsLocks(x) && FitsFate(x) && FitsTemporary(x) && FitsEnd(x)
  }

  lemma MovedFitsCreate(x: Writer, a: Step)
    requires FitsLocks(x) && InTurn(x, a)
    ensures FitsCreate(Moved(x, a))
  {
    hide TemporaryAfter; hide Leak; hide LeakedAfter; hide FitsLeaks;
  }

  lemma MovedFitsLeaks(x: Writer, a: Step)
    requires FitsLocks(x) && InTurn(x, a)
    ensures FitsLeaks(Moved(x, a))
  {
  }

  lemma MovedFitsFate(x: Writer, a: Step)
    requires FitsFate(x) && InTurn(x, a)
    ensures FitsFate(Moved(x, a))
  {
    hide TemporaryAfter; hide LeakedAfter; hide HeldAfter;
  }

  lemma MovedFitsTemporary(x: Writer, a: Step)
    requires FitsTemporary(x) && FitsFate(x) && InTurn(x, a)
    ensures FitsTemporary(Moved(x, a))
  {
    hide Leak; hide LeakedAfter; hide HeldAfter;
  }

  lemma MovedFitsEnd(x: Writer, a: Step)
    requires FitsEnd(x) && FitsFate(x) && FitsLeaks(x) && InTurn(x, a)
    ensures FitsEnd(Moved(x, a))
  {
    hide TemporaryAfter; hide HeldAfter;
  }

  lemma MovedFits(x: Writer, a: Step)
    requires Fits(x) && InTurn(x, a)
    ensures Fits(Moved(x, a))
  {
    hide Moved; hide InTurn; hide FitsCreate; hide FitsLeaks; hide FitsFate; hide FitsTemporary; hide FitsEnd;
    MovedFitsCreate(x, a);
    MovedFitsLeaks(x, a);
    MovedFitsFate(x, a);
    MovedFitsTemporary(x, a);
    MovedFitsEnd(x, a);
  }

  lemma MovedKeepsCall(x: Writer, a: Step)
    requires InTurn(x, a)
    ensures Moved(x, a).call == x.call
    ensures Running(x) && (a.Crash? ==> !Running(Moved(x, a)))
  {
    hide TemporaryAfter; hide HeldAfter; hide Leak; hide LeakedAfter;
  }

  /** A step's locks are what it takes and gives back; a crash only makes them uncertain. */
  lemma HoldsMoved(x: Writer, a: Step, l: Lock)
    requires FitsLocks(x) && InTurn(x, a)
    ensures !a.Crash? ==> (Holds(Moved(x, a), l) <==> (Holds(x, l) || Taken(x, a) == Some(l)) && Freed(x, a) != Some(l))
    ensures a.Crash? ==> (Holds(x, l) ==> Holds(Moved(x, a), l)) && Taken(x, a) == Freed(x, a) == None
  {
    if l == CreateLock {
      HoldsCreate(x, a);
    } else if l == TargetLock(x.call.target) {
      HoldsTarget(x, a);
    } else {
      HoldsOther(x, a, l);
    }
    hide Moved; hide InTurn; hide Holds; hide Taken; hide Freed; hide FitsLocks;
  }

  lemma HoldsCreate(x: Writer, a: Step)
    requires FitsLocks(x) && InTurn(x, a)
    ensures !a.Crash? ==> (Holds(Moved(x, a), CreateLock)
                           <==> (Holds(x, CreateLock) || Taken(x, a) == Some(CreateLock)) && Freed(x, a) != Some(CreateLock))
    ensures a.Crash? ==> Holds(Moved(x, a), CreateLock) && Taken(x, a) == Freed(x, a) == None
  {
  }

  lemma HoldsTarget(x: Writer, a: Step)
    requires FitsLocks(x) && InTurn(x, a)
    ensures var l := TargetLock(x.call.target);
            && (!a.Crash? ==> (Holds(Moved(x, a), l) <==> (Holds(x, l) || Taken(x, a) == Some(l)) && Freed(x, a) != Some(l)))
            && (a.Crash? ==> Holds(Moved(x, a), l) && Taken(x, a) == Freed(x, a) == None)
  {
    hide FitsCreate;
  }

  lemma HoldsOther(x: Writer, a: Step, l: Lock)
    requires InTurn(x, a) && l != CreateLock && l != TargetLock(x.call.target)
    ensures (Holds(Moved(x, a), l) <==> Holds(x, l)) && Taken(x, a) != Some(l) && Freed(x, a) != Some(l)
    ensures a.Crash? ==> Taken(x, a) == Freed(x, a) == None
  {
  }

  lemma FreedIsHeld(x: Writer, a: Step, l: Lock)
    requires FitsLocks(x) && InTurn(x, a) && Freed(x, a) == Some(l)
    ensures Holds(x, l) && Taken(x, a).None?
  {
  }

  // ------------------------------------------------------------ exclusion

  ghost predicate AllFit(s: State) {
    forall w :: w in s.writers ==> Fits(s.writers[w])
  }

  /** A lock in the directory belongs to a call that may hold it. */
  ghost predicate Owned(s: State) {
    forall l :: l in s.locks ==> s.locks[l] in s.writers && Holds(s.writers[s.locks[l]], l)
  }

  /** A running call that counts on a lock has it. */
  ghost predicate Kept(s: State) {
    forall w, l :: w in s.writers && Running(s.writers[w]) && Holds(s.writers[w], l) ==> l in s.locks && s.locks[l] == w
  }

  lemma ActedFrame(s: State, w: Id, a: Step)
    requires CanAct(s, w, a)
    ensures var x, t := s.writers[w], Acted(s, w, a);
            t.writers == s.writers[w := Moved(x, a)] && t.locks == LocksAfter(s.locks, w, x, a) && t.temps == TempsAfter(s.temps, w, x, a)
  {
    hide Moved; hide InTurn; hide TempsAfter; hide LocksAfter; hide Allowed;
  }

  lemma LocksMove(locks: map<Lock, Id>, w: Id, x: Writer, a: Step, l: Lock)
    ensures var after := LocksAfter(locks, w, x, a);
            && (Taken(x, a) == Some(l) ==> l in after && after[l] == w)
            && (Freed(x, a) == Some(l) && Taken(x, a).None? ==> l !in after)
            && (Taken(x, a) != Some(l) && Freed(x, a) != Some(l) ==> (l in after <==> l in locks) && (l in locks ==> after[l] == locks[l]))
  {
    hide Taken; hide Freed;
  }

  lemma FreeLock(s: State, w: Id, a: Step, l: Lock)
    requires CanAct(s, w, a) && Taken(s.writers[w], a) == Some(l)
    ensures l !in s.locks
  {
  }

  /** What a step leaves of the locks and of the calls. */
  lemma ActedLocks(s: State, w: Id, a: Step, l: Lock)
    requires CanAct(s, w, a)
    ensures var x, t := s.writers[w], Acted(s, w, a);
            && t.writers == s.writers[w := Moved(x, a)]
            && (Taken(x, a) == Some(l) ==> l !in s.locks && l in t.locks && t.locks[l] == w)
            && (Freed(x, a) == Some(l) && Taken(x, a).None? ==> l !in t.locks)
            && (Taken(x, a) != Some(l) && Freed(x, a) != Some(l) ==>
                  (l in t.locks <==> l in s.locks) && (l in s.locks ==> t.locks[l] == s.locks[l]))
  {
    ActedFrame(s, w, a);
    LocksMove(s.locks, w, s.writers[w], a, l);
    if Taken(s.writers[w], a) == Some(l) { FreeLock(s, w, a, l); }
    hide *;
  }

  lemma AllFitStays(s: State, w: Id, a: Step)
    requires CanAct(s, w, a) && AllFit(s)
    ensures AllFit(Acted(s, w, a))
  {
    hide Moved; hide InTurn; hide Fits; hide Allowed; hide LocksAfter; hide TempsAfter;
    MovedFits(s.writers[w], a);
  }

  lemma OwnedStays(s: State, w: Id, a: Step)
    requires CanAct(s, w, a) && AllFit(s) && Owned(s)
    ensures Owned(Acted(s, w, a))
  {
    var x, t := s.writers[w], Acted(s, w, a);
    assert FitsLocks(x) && InTurn(x, a);
    hide Moved; hide InTurn; hide Fits; hide FitsLocks; hide Holds; hide Taken; hide Freed; hide Allowed; hide Acted; hide CanAct; hide AllFit;
    forall l | l in t.locks ensures t.locks[l] in t.writers && Holds(t.writers[t.locks[l]], l) {
      ActedLocks(s, w, a, l);
      HoldsMoved(x, a, l);
      if Freed(x, a) == Some(l) { FreedIsHeld(x, a, l); }
    }
  }

  lemma KeptAt(s: State, w: Id, l: Lock)
    requires Kept(s) && w in s.writers && Running(s.writers[w]) && Holds(s.writers[w], l)
    ensures l in s.locks && s.locks[l] == w
  {
  }

  lemma KeptStays(s: State, w: Id, a: Step)
    requires CanAct(s, w, a) && AllFit(s) && Kept(s)
    ensures Kept(Acted(s, w, a))
  {
    var t := Acted(s, w, a);
    hide *;
    forall v | v in t.writers && Running(t.writers[v]) ensures Keeps(t.locks, v, t.writers[v]) {
      KeptStaysFor(s, w, a, v);
    }
    KeptFrom(t);
  }

  ghost predicate Keeps(locks: map<Lock, Id>, v: Id, x: Writer) {
    forall l :: Holds(x, l) ==> l in locks && locks[l] == v
  }

  lemma KeptStaysFor(s: State, w: Id, a: Step, v: Id)
    requires CanAct(s, w, a) && AllFit(s) && Kept(s) && v in Acted(s, w, a).writers && Running(Acted(s, w, a).writers[v])
    ensures Keeps(Acted(s, w, a).locks, v, Acted(s, w, a).writers[v])
  {
    var t := Acted(s, w, a);
    hide Acted; hide CanAct; hide AllFit; hide Kept; hide Running; hide Holds;
    forall l | Holds(t.writers[v], l) ensures l in t.locks && t.locks[l] == v { KeptStaysAt(s, w, a, v, l); }
  }

  lemma KeptFrom(t: State)
    requires forall v :: v in t.writers && Running(t.writers[v]) ==> Keeps(t.locks, v, t.writers[v])
    ensures Kept(t)
  {
    hide Running; hide Holds;
  }

  lemma KeptStaysAt(s: State, w: Id, a: Step, v: Id, l: Lock)
    requires CanAct(s, w, a) && AllFit(s) && Kept(s)
    requires v in Acted(s, w, a).writers && Running(Acted(s, w, a).writers[v]) && Holds(Acted(s, w, a).writers[v], l)
    ensures l in Acted(s, w, a).locks && Acted(s, w, a).locks[l] == v
  {
    var x := s.writers[w];
    assert Fits(x) && FitsLocks(x) && InTurn(x, a);
    hide *;
    MovedKeepsCall(x, a);
    ActedLocks(s, w, a, l);
    HoldsMoved(x, a, l);
    if Freed(x, a) == Some(l) { FreedIsHeld(x, a, l); KeptAt(s, w, l); }
    if v != w || Taken(x, a) != Some(l) { KeptAt(s, v, l); }
  }

  /** Two running calls on one document are never both inside, and neither are two creations. */
  lemma Excluded(s: State, v: Id, w: Id, l: Lock)
    requires Kept(s) && v in s.writers && w in s.writers && Running(s.writers[v]) && Running(s.writers[w])
    requires Holds(s.writers[v], l) && Holds(s.writers[w], l)
    ensures v == w
  {
    assert s.locks[l] == v && s.locks[l] == w;
  }

  // ---------------------------------------------- one atomic write per call

  predicate NeedsTemp(g: Stage) { g == TempOpened || g == TempWritten || g == Rechecked }

  /** A call's temporary file is one it still means to unlink; it is there until it is published, and whole once written. */
  predicate TempFits(temps: map<Id, Bytes>, w: Id, x: Writer) {
    && (w in temps ==> x.temporary)
    && (NeedsTemp(x.stage) ==> w in temps)
    && (w in temps && (x.stage == TempWritten || x.stage == Rechecked) ==> temps[w] == x.call.content)
  }

  ghost predicate TempsFit(s: State) {
    && (forall w :: w in s.temps ==> w in s.writers)
    && (forall w :: w in s.writers ==> TempFits(s.temps, w, s.writers[w]))
  }

  /** An editor touched a path after the log had `since` entries. */
  ghost predicate Touched(log: seq<Entry>, since: nat, p: Path) {
    exists i :: since <= i < |log| && log[i].Outside? && log[i].path == p
  }

  /** From the second comparison on, the target stays as compared unless an editor touches it. */
  ghost predicate Fresh(s: State) {
    forall w :: w in s.writers && s.writers[w].stage == Rechecked && !Touched(s.log, s.writers[w].since, s.writers[w].call.target)
      ==> DigestAt(s.files, s.writers[w].call.target) == s.writers[w].call.expected
  }

  lemma TouchedStays(log: seq<Entry>, more: seq<Entry>, since: nat, p: Path)
    requires log <= more && Touched(log, since, p)
    ensures Touched(more, since, p)
  {
    var i :| since <= i < |log| && log[i].Outside? && log[i].path == p;
    assert more[i] == log[i];
  }

  ghost predicate AllSince(s: State) {
    forall w :: w in s.writers ==> s.writers[w].since <= |s.log|
  }

  lemma TouchedNext(log: seq<Entry>, e: Entry, since: nat, p: Path)
    requires since <= |log|
    ensures Touched(log + [e], since, p) <==> Touched(log, since, p) || (e.Outside? && e.path == p)
  {
    if Touched(log, since, p) {
      TouchedStays(log, log + [e], since, p);
    } else if e.Outside? && e.path == p {
      assert (log + [e])[|log|] == e;
    }
  }

  lemma TempMoves(temps: map<Id, Bytes>, w: Id, x: Writer, a: Step)
    requires InTurn(x, a) && TempFits(temps, w, x) && FitsTemporary(x)
    ensures TempFits(TempsAfter(temps, w, x, a), w, Moved(x, a))
  {
    match a
    case UnlinkTemp => assert w !in TempsAfter(temps, w, x, a);
    case Rename => assert w !in TempsAfter(temps, w, x, a);
    case CleanTemp(removed) => assert removed ==> w !in TempsAfter(temps, w, x, a);
    case _ =>
  }

  lemma OtherTemps(temps: map<Id, Bytes>, w: Id, x: Writer, a: Step, v: Id)
    requires v != w
    ensures v in TempsAfter(temps, w, x, a) <==> v in temps
    ensures v in temps ==> TempsAfter(temps, w, x, a)[v] == temps[v]
  {
  }

  lemma TempsFitStay(s: State, w: Id, a: Step)
    requires CanAct(s, w, a) && TempsFit(s) && AllFit(s)
    ensures TempsFit(Acted(s, w, a))
  {
    hide Allowed; hide Moved; hide InTurn; hide FitsLocks; hide FitsFate; hide FitsTemporary; hide FitsEnd; hide TempsAfter; hide LocksAfter;
    var x, t := s.writers[w], Acted(s, w, a);
    TempMoves(s.temps, w, x, a);
    forall v | v != w ensures (v in t.temps <==> v in s.temps) && (v in s.temps ==> t.temps[v] == s.temps[v]) {
      OtherTemps(s.temps, w, x, a, v);
    }
    forall v | v in s.writers && v != w ensures TempFits(t.temps, v, s.writers[v]) {
      assert TempFits(s.temps, v, s.writers[v]);
    }
    hide TempFits;
  }

  lemma AllSinceStays(s: State, w: Id, a: Step)
    requires CanAct(s, w, a) && AllSince(s)
    ensures AllSince(Acted(s, w, a))
  {
    hide LocksAfter; hide TempsAfter;
  }

  lemma CommitMoves(s: State, w: Id, a: Step)
    requires CanAct(s, w, a)
    ensures !a.Link? && !a.Rename? ==> Acted(s, w, a).files == s.files && Acted(s, w, a).log == s.log
    ensures a.Link? || a.Rename? ==> s.writers[w].stage == Rechecked && !a.Crash?
    ensures Moved(s.writers[w], a).stage == Rechecked && !a.Recompare? ==> false
    ensures a.Recompare? ==> DigestAt(s.files, s.writers[w].call.target) == s.writers[w].call.expected
  {
  }

  lemma FreshStays(s: State, v: Id, a: Step)
    requires CanAct(s, v, a) && Kept(s) && Fresh(s)
    ensures Fresh(Acted(s, v, a))
  {
    hide Allowed; hide Moved; hide InTurn; hide TempsAfter; hide LocksAfter;
    var t := Acted(s, v, a);
    CommitMoves(s, v, a);
    MovedKeepsCall(s.writers[v], a);
    forall w | w in t.writers && t.writers[w].stage == Rechecked && !Touched(t.log, t.writers[w].since, t.writers[w].call.target)
      ensures DigestAt(t.files, t.writers[w].call.target) == t.writers[w].call.expected
    {
      if w != v && (a.Link? || a.Rename?) {
        if Touched(s.log, s.writers[w].since, s.writers[w].call.target) {
          TouchedStays(s.log, t.log, s.writers[w].since, s.writers[w].call.target);
        }
        if s.writers[v].call.target == s.writers[w].call.target {
          Excluded(s, v, w, TargetLock(s.writers[w].call.target));
        }
      }
    }
  }

  // -------------------------------------- the atomic writes they stand for

  /**
   What a write means to its caller: a creation adds a document that is not there, and
   an update replaces one whose content has the given digest; only an update that an
   editor cut in on, after the second comparison, is excused.
   */
  ghost predicate Meets(m: map<Path, Bytes>, log: seq<Entry>, e: Entry) {
    e.Commit? ==>
      && (e.expected.None? ==> e.path !in m)
      && (e.expected.Some? && !Touched(log, e.since, e.path) ==> DigestAt(m, e.path) == e.expected)
  }

  function Put(m: map<Path, Bytes>, e: Entry): map<Path, Bytes> {
    match e
    case Commit(_, p, _, b, _) => m[p := b]
    case Outside(p, edited) => if edited.Some? then m[p := edited.value] else m - {p}
  }

  /** The documents after a log of atomic writes. */
  function Documents(initial: map<Path, Bytes>, log: seq<Entry>): map<Path, Bytes> {
    if log == [] then initial else Put(Documents(initial, log[..|log| - 1]), log[|log| - 1])
  }

  /** Every write in the log met its caller's expectation when it took effect. */
  ghost predicate AllMeet(initial: map<Path, Bytes>, log: seq<Entry>) {
    log != [] ==>
      var front, last := log[..|log| - 1], log[|log| - 1];
      AllMeet(initial, front) && Meets(Documents(initial, front), front, last)
  }

  function CommitsBy(log: seq<Entry>, w: Id): nat {
    if log == [] then 0
    else CommitsBy(log[..|log| - 1], w) + (if log[|log| - 1].Commit? && log[|log| - 1].writer == w then 1 else 0)
  }

  lemma LogNext(initial: map<Path, Bytes>, log: seq<Entry>, e: Entry, w: Id)
    ensures Documents(initial, log + [e]) == Put(Documents(initial, log), e)
    ensures AllMeet(initial, log + [e]) == (AllMeet(initial, log) && Meets(Documents(initial, log), log, e))
    ensures CommitsBy(log + [e], w) == CommitsBy(log, w) + (if e.Commit? && e.writer == w then 1 else 0)
  {
    assert (log + [e])[..|log|] == log;
  }

  /** The documents on disk are what the logged atomic writes leave. */
  ghost predicate Refines(s: State) {
    Documents(s.initial, s.log) == s.files && AllMeet(s.initial, s.log)
  }

  /** Each call has written at most once. */
  ghost predicate Once(s: State) {
    forall w :: CommitsBy(s.log, w) == if w in s.writers && s.writers[w].committed then 1 else 0
  }

  /** What a call wrote is what it was asked to write. */
  ghost predicate Faithful(s: State) {
    forall e :: e in s.log && e.Commit? ==>
      && e.writer in s.writers
      && Request(e.path, e.content, e.expected) == s.writers[e.writer].call
  }

  lemma RefinesStays(s: State, w: Id, a: Step)
    requires CanAct(s, w, a) && Refines(s) && Fresh(s)
    ensures Refines(Acted(s, w, a))
  {
    hide Moved; hide TempsAfter; hide LocksAfter;
    var x := s.writers[w];
    if a.Link? || a.Rename? {
      LogNext(s.initial, s.log, Commit(w, x.call.target, x.call.expected, s.temps[w], x.since), w);
    }
  }

  lemma CommittedMoves(x: Writer, a: Step)
    requires InTurn(x, a) && FitsFate(x)
    ensures Moved(x, a).committed == (x.committed || a.Link? || a.Rename?)
    ensures a.Link? || a.Rename? ==> !x.committed && x.stage == Rechecked
  {
  }

  lemma LogGrows(s: State, w: Id, a: Step)
    requires CanAct(s, w, a)
    ensures forall v :: CommitsBy(Acted(s, w, a).log, v) == CommitsBy(s.log, v) + if v == w && (a.Link? || a.Rename?) then 1 else 0
  {
    hide Moved; hide TempsAfter; hide LocksAfter; hide InTurn; hide CommitsBy;
    var x := s.writers[w];
    if a.Link? || a.Rename? {
      var e := Commit(w, x.call.target, x.call.expected, s.temps[w], x.since);
      forall v { LogNext(s.initial, s.log, e, v); }
    }
  }

  lemma OnceStays(s: State, w: Id, a: Step)
    requires CanAct(s, w, a) && AllFit(s) && Once(s)
    ensures Once(Acted(s, w, a))
  {
    hide Moved; hide TempsAfter; hide LocksAfter; hide FitsLocks; hide FitsFate; hide FitsTemporary; hide FitsEnd; hide InTurn; hide Allowed; hide CommitsBy;
    CommittedMoves(s.writers[w], a);
    LogGrows(s, w, a);
  }

  lemma FaithfulStays(s: State, w: Id, a: Step)
    requires CanAct(s, w, a) && AllFit(s) && TempsFit(s) && Faithful(s)
    ensures Faithful(Acted(s, w, a))
  {
    hide Moved; hide TempsAfter; hide LocksAfter; hide FitsLocks; hide FitsFate; hide FitsTemporary; hide FitsEnd; hide InTurn; hide CommitsBy;
    var x, t := s.writers[w], Acted(s, w, a);
    MovedKeepsCall(x, a);
    CommittedMoves(x, a);
    LogGrows(s, w, a);
    forall e | e in t.log && e.Commit?
      ensures e.writer in t.writers && Request(e.path, e.content, e.expected) == t.writers[e.writer].call
    {
      if e !in s.log { assert e == Commit(w, x.call.target, x.call.expected, s.temps[w], x.since); }
    }
  }

  ghost predicate Inv(s: State) {
    && AllFit(s) && Owned(s) && Kept(s)
    && TempsFit(s) && Fresh(s)
    && Refines(s) && Once(s) && Faithful(s) && AllSince(s)
  }

  lemma ActKeepsInv(s: State, w: Id, a: Step)
    requires CanAct(s, w, a) && Inv(s)
    ensures Inv(Acted(s, w, a))
  {
    hide AllFit; hide Owned; hide Kept; hide TempsFit; hide Fresh; hide Refines; hide Once; hide Faithful; hide AllSince;
    hide CanAct; hide Acted;
    AllFitStays(s, w, a); OwnedStays(s, w, a); KeptStays(s, w, a);
    TempsFitStay(s, w, a); FreshStays(s, w, a);
    RefinesStays(s, w, a); OnceStays(s, w, a); FaithfulStays(s, w, a); AllSinceStays(s, w, a);
  }

  lemma CalledFits(call: Request)
    ensures Fits(Called(call)) && forall l :: !Holds(Called(call), l)
  {
  }

  lemma CallKeepsLocks(s: State, w: Id, call: Request)
    requires AllFit(s) && Owned(s) && Kept(s) && w !in s.writers
    ensures AllFit(s.(writers := s.writers[w := Called(call)]))
    ensures Owned(s.(writers := s.writers[w := Called(call)]))
    ensures Kept(s.(writers := s.writers[w := Called(call)]))
  {
    CalledFits(call);
    hide Fits; hide Holds; hide Called; hide Running;
  }

  lemma CallKeepsFiles(s: State, w: Id, call: Request)
    requires TempsFit(s) && Fresh(s) && Refines(s) && w !in s.writers
    ensures TempsFit(s.(writers := s.writers[w := Called(call)]))
    ensures Fresh(s.(writers := s.writers[w := Called(call)]))
    ensures Refines(s.(writers := s.writers[w := Called(call)]))
  {
    hide Documents; hide AllMeet;
  }

  lemma CallKeepsLog(s: State, w: Id, call: Request)
    requires Once(s) && Faithful(s) && AllSince(s) && w !in s.writers
    ensures AllSince(s.(writers := s.writers[w := Called(call)]))
    ensures Once(s.(writers := s.writers[w := Called(call)]))
    ensures Faithful(s.(writers := s.writers[w := Called(call)]))
  {
    hide CommitsBy;
  }

  lemma StaleKeepsLocks(s: State, l: Lock)
    requires AllFit(s) && Owned(s) && Kept(s) && CanDo(s, RemoveStale(l))
    ensures AllFit(s.(locks := s.locks - {l})) && Owned(s.(locks := s.locks - {l})) && Kept(s.(locks := s.locks - {l}))
  {
    hide FitsLocks; hide FitsFate; hide FitsTemporary; hide FitsEnd; hide Holds;
  }

  lemma StaleKeepsRest(s: State, l: Lock)
    requires TempsFit(s) && Fresh(s) && Refines(s) && Once(s) && Faithful(s) && AllSince(s)
    ensures AllSince(s.(locks := s.locks - {l}))
    ensures TempsFit(s.(locks := s.locks - {l})) && Fresh(s.(locks := s.locks - {l})) && Refines(s.(locks := s.locks - {l}))
    ensures Once(s.(locks := s.locks - {l})) && Faithful(s.(locks := s.locks - {l}))
  {
    hide CommitsBy; hide Documents; hide AllMeet;
  }

  lemma EditKeepsLocks(s: State, p: Path, edited: Option<Bytes>)
    requires AllFit(s) && Owned(s) && Kept(s)
    ensures AllFit(Edited(s, p, edited)) && Owned(Edited(s, p, edited)) && Kept(Edited(s, p, edited))
  {
    hide FitsLocks; hide FitsFate; hide FitsTemporary; hide FitsEnd; hide Holds;
  }

  lemma EditKeepsFiles(s: State, p: Path, edited: Option<Bytes>)
    requires TempsFit(s) && Fresh(s) && Refines(s) && AllSince(s)
    ensures TempsFit(Edited(s, p, edited)) && Fresh(Edited(s, p, edited)) && Refines(Edited(s, p, edited))
  {
    var t, e := Edited(s, p, edited), Outside(p, edited);
    LogNext(s.initial, s.log, e, 0);
    hide Documents; hide AllMeet;
    forall w | w in s.writers
      ensures Touched(t.log, s.writers[w].since, s.writers[w].call.target)
           == (Touched(s.log, s.writers[w].since, s.writers[w].call.target) || s.writers[w].call.target == p)
    {
      TouchedNext(s.log, e, s.writers[w].since, s.writers[w].call.target);
    }
    hide Touched;
  }

  lemma EditKeepsLog(s: State, p: Path, edited: Option<Bytes>)
    requires Once(s) && Faithful(s) && AllSince(s)
    ensures Once(Edited(s, p, edited)) && Faithful(Edited(s, p, edited)) && AllSince(Edited(s, p, edited))
  {
    hide CommitsBy;
    var e := Outside(p, edited);
    forall w ensures CommitsBy(s.log + [e], w) == CommitsBy(s.log, w) { LogNext(s.initial, s.log, e, w); }
  }

  lemma DoKeepsInv(s: State, a: Action)
    requires CanDo(s, a) && Inv(s)
    ensures Inv(Do(s, a))
  {
    hide AllFit; hide Owned; hide Kept; hide TempsFit; hide Fresh; hide Refines; hide Once; hide Faithful; hide AllSince;
    hide CanAct; hide Acted; hide Edited;
    match a
    case Act(w, step) => ActKeepsInv(s, w, step);
    case Call(w, call) => CallKeepsLocks(s, w, call); CallKeepsFiles(s, w, call); CallKeepsLog(s, w, call);
    case Edit(p, edited) => EditKeepsLocks(s, p, edited); EditKeepsFiles(s, p, edited); EditKeepsLog(s, p, edited);
    case RemoveStale(l) => StaleKeepsLocks(s, l); StaleKeepsRest(s, l);
  }

  lemma SameLimit(s: State, a: Action)
    requires CanDo(s, a)
    ensures Do(s, a).max == s.max && Do(s, a).initial == s.initial
  {
  }

  lemma RunKeepsInv(s: State, actions: seq<Action>, t: State)
    requires Inv(s) && t == After(Next, s, actions)
    ensures Inv(t) && t.max == s.max && t.initial == s.initial
  {
    hide Inv;
    var kept := (x: State) => Inv(x) && x.max == s.max && x.initial == s.initial;
    forall x, a | kept(x) ensures kept(Next(x, a)) {
      if CanDo(x, a) {
        DoKeepsInv(x, a);
        SameLimit(x, a);
      }
      hide CanDo; hide Do;
    }
    AfterKeeps(Next, kept, s, actions);
  }

  lemma InitInv(s: State)
    requires Init(s)
    ensures Inv(s)
  {
  }

  // -------------------------------------------------------- main theorems

  /** A log read up to its n-th entry is a log that was legal then. */
  lemma {:induction false} AllMeetAt(initial: map<Path, Bytes>, log: seq<Entry>, n: nat)
    requires AllMeet(initial, log) && n < |log|
    ensures Meets(Documents(initial, log[..n]), log[..n], log[n])
    ensures Documents(initial, log[..n + 1]) == Put(Documents(initial, log[..n]), log[n])
    decreases |log|
  {
    assert log[..n + 1][..n] == log[..n];
    if n == |log| - 1 {
      assert log[..n + 1] == log;
    } else {
      var front := log[..|log| - 1];
      assert front[..n] == log[..n] && front[..n + 1] == log[..n + 1];
      AllMeetAt(initial, front, n);
    }
  }

  /**
   No lost update, and no create over an existing file. In any interleaving of calls,
   failures, crashes, editors and stale-lock removals, the documents are what the logged
   writes leave when each takes effect at once; every creation found its path free, and
   every update found the content whose digest its caller passed unless an editor had
   touched that path since the call's second comparison.
   */
  lemma WritesAreAtomic(s: State, actions: seq<Action>, t: State, n: nat)
    requires Init(s) && t == After(Next, s, actions) && n < |t.log| && t.log[n].Commit?
    ensures t.files == Documents(s.initial, t.log)
    ensures t.log[n].expected.None? ==> t.log[n].path !in Documents(s.initial, t.log[..n])
    ensures t.log[n].expected.Some? && !Touched(t.log[..n], t.log[n].since, t.log[n].path) ==>
              DigestAt(Documents(s.initial, t.log[..n]), t.log[n].path) == t.log[n].expected
    ensures Documents(s.initial, t.log[..n + 1]) == Documents(s.initial, t.log[..n])[t.log[n].path := t.log[n].content]
  {
    InitInv(s);
    RunKeepsInv(s, actions, t);
    AllMeetAt(t.initial, t.log, n);
  }

  /**
   A call that returns has made exactly one write, of its own content at its own path,
   and left no temporary file. One that throws has made none or one: it has written
   exactly if the unlink after its link threw or, after a write, a lock could not be
   removed; the first can only happen to a creation.
   */
  lemma ReturnMeansWritten(s: State, actions: seq<Action>, t: State, w: Id)
    requires Init(s) && t == After(Next, s, actions) && w in t.writers && t.writers[w].stage == Done
    ensures !t.writers[w].failed ==> CommitsBy(t.log, w) == 1 && w !in t.temps
    ensures CommitsBy(t.log, w) <= 1
    ensures CommitsBy(t.log, w) == 1 ==> (t.writers[w].failed <==> t.writers[w].unlinkThrew || t.writers[w].leaked != {})
    ensures t.writers[w].unlinkThrew ==> CommitsBy(t.log, w) == 1 && t.writers[w].call.expected.None?
    ensures forall e :: e in t.log && e.Commit? && e.writer == w ==> Request(e.path, e.content, e.expected) == t.writers[w].call
  {
    InitInv(s);
    RunKeepsInv(s, actions, t);
    hide CommitsBy;
  }

  /** A call that has ended owns no lock but those whose removal failed. */
  lemma LocksReturned(s: State, actions: seq<Action>, t: State, w: Id, l: Lock)
    requires Init(s) && t == After(Next, s, actions) && w in t.writers && t.writers[w].stage == Done
    requires l in t.locks && t.locks[l] == w
    ensures l in t.writers[w].leaked && t.writers[w].failed
  {
    InitInv(s);
    RunKeepsInv(s, actions, t);
    DoneHolds(t, w, l);
  }

  lemma DoneHolds(s: State, w: Id, l: Lock)
    requires AllFit(s) && Owned(s) && w in s.writers && s.writers[w].stage == Done && l in s.locks && s.locks[l] == w
    ensures l in s.writers[w].leaked && s.writers[w].failed
  {
  }

  /** A step of one call leaves every other call's locks alone. */
  lemma OthersLocksUntouched(s: State, w: Id, a: Step, v: Id, l: Lock)
    requires AllFit(s) && Kept(s) && CanAct(s, w, a) && v != w && l in s.locks && s.locks[l] == v
    ensures l in Acted(s, w, a).locks && Acted(s, w, a).locks[l] == v
  {
    var x := s.writers[w];
    assert FitsLocks(x) && InTurn(x, a);
    hide Moved; hide InTurn; hide Fits; hide FitsLocks; hide Holds; hide Taken; hide Freed; hide Allowed; hide Acted; hide CanAct; hide AllFit; hide Kept;
    MovedKeepsCall(x, a);
    hide Running;
    ActedLocks(s, w, a, l);
    if Freed(x, a) == Some(l) { FreedIsHeld(x, a, l); KeptAt(s, w, l); }
  }

  function JustStarted(max: nat, initial: map<Path, Bytes>): State {
    State(max, initial, initial, map[], map[], map[], [])
  }
}

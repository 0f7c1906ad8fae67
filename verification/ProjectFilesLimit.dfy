/**
 The limit on the number of documents. The calls alone keep it; what an editor may do
 without breaking it is characterised exactly, by what the calls can still add.
 */
module ProjectFilesLimit {
  import opened History
  import opened ProjectFiles
  import opened ProjectFilesRuns
  import opened Options

  /** The limit, or what was there at the start if that was more. */
  function Cap(s: State): nat {
    if s.max < |s.initial| then |s.initial| else s.max
  }

  /** A creator that has counted and not linked yet. */
  predicate Reserved(x: Writer) {
    x.createHeld && (x.stage == Ready || x.stage == TempOpened || x.stage == TempWritten || x.stage == Rechecked)
  }

  /** An update between its second comparison and its rename. */
  predicate Replacing(x: Writer) {
    x.stage == Rechecked && x.call.expected.Some?
  }

  predicate Missing(files: map<Path, Bytes>, x: Writer) { x.call.target !in files }

  function Creators(writers: map<Id, Writer>, files: map<Path, Bytes>): set<Id> {
    set w | w in writers && Reserved(writers[w]) && Missing(files, writers[w])
  }

  /** Updates whose target is gone: their rename will bring it back. */
  function Revivers(writers: map<Id, Writer>, files: map<Path, Bytes>): set<Id> {
    set w | w in writers && Replacing(writers[w]) && Missing(files, writers[w])
  }

  /** There is room for what is on its way; and if a document may come back, for it beside all that can be created. */
  predicate Safe(s: State) {
    && |s.files| + |Creators(s.writers, s.files)| + |Revivers(s.writers, s.files)| <= Cap(s)
    && s.max + |Revivers(s.writers, s.files)| <= Cap(s)
  }

  lemma SubsetSize<T>(a: set<T>, b: set<T>)
    requires a <= b
    ensures |a| <= |b|
  {
    assert b == a + (b - a);
  }

  lemma Smaller<T>(a: set<T>, b: set<T>, x: T)
    requires x in b && a <= b - {x}
    ensures |a| <= |b| - 1
  {
    SubsetSize(a, b - {x});
  }

  // ------------------------------------------------------ the calls keep it

  lemma RolesMove(x: Writer, a: Step)
    requires InTurn(x, a) && FitsCreate(x)
    ensures var y := Moved(x, a);
            && y.call == x.call && Running(x)
            && (Reserved(y) ==> Reserved(x) || a.Count?)
            && (Replacing(y) ==> a.Recompare?)
            && (a.Count? ==> !Reserved(x) && x.createHeld)
            && (a.Link? ==> Reserved(x) && !Reserved(y))
            && (a.Rename? ==> Replacing(x))
  {
    hide Leak; hide LeakedAfter; hide TemporaryAfter;
  }

  /** What a step does to the documents and to those who are about to add one. */
  ghost predicate Plays(s: State, w: Id, a: Step, t: State) {
    && w in s.writers && t.max == s.max && t.initial == s.initial
    && var x, y := s.writers[w], Moved(s.writers[w], a);
    && t.writers == s.writers[w := y] && y.call == x.call
    && (Reserved(y) ==> Reserved(x) || a.Count?)
    && (Replacing(y) ==> !Missing(s.files, y))
    && (a.Count? ==> |s.files| < s.max && !Reserved(x) && x.createHeld && Running(x))
    && (a.Link? ==> Reserved(x) && !Reserved(y))
    && (a.Rename? ==> Replacing(x))
    && (if a.Link? || a.Rename? then w in s.temps && t.files == s.files[x.call.target := s.temps[w]] else t.files == s.files)
  }

  lemma Played(s: State, w: Id, a: Step)
    requires CanAct(s, w, a) && AllFit(s)
    ensures Plays(s, w, a, Acted(s, w, a))
  {
    assert FitsCreate(s.writers[w]) by { assert Fits(s.writers[w]); }
    ActedFrame(s, w, a);
    hide Moved; hide LocksAfter; hide TempsAfter; hide AllFit; hide Reserved; hide Replacing; hide Fits; hide FitsCreate; hide Running;
    RolesMove(s.writers[w], a);
    hide InTurn;
  }

  lemma OneCreator(s: State, v: Id, w: Id)
    requires AllFit(s) && Kept(s) && v in s.writers && w in s.writers && Reserved(s.writers[v])
    requires s.writers[w].createHeld && Running(s.writers[w])
    ensures v == w
  {
    Excluded(s, v, w, CreateLock);
  }

  /** A writer's step adds none to those that are about to add a document, unless it counts or loses its target. */
  lemma CreatorsMove(writers: map<Id, Writer>, files: map<Path, Bytes>, w: Id, y: Writer, more: map<Path, Bytes>)
    requires w in writers && y.call == writers[w].call && files.Keys <= more.Keys
    requires Reserved(y) ==> Reserved(writers[w])
    ensures |Creators(writers[w := y], more)| <= |Creators(writers, files)|
    ensures w in Creators(writers, files) && !Reserved(y) ==> |Creators(writers[w := y], more)| < |Creators(writers, files)|
  {
    var before, after := Creators(writers, files), Creators(writers[w := y], more);
    hide Reserved;
    assert after <= before;
    SubsetSize(after, before);
    if w in before && !Reserved(y) { Smaller(after, before, w); }
  }

  lemma RevivesMove(writers: map<Id, Writer>, files: map<Path, Bytes>, w: Id, y: Writer, more: map<Path, Bytes>)
    requires w in writers && y.call == writers[w].call && files.Keys <= more.Keys
    requires Replacing(y) ==> !Missing(files, y)
    ensures |Revivers(writers[w := y], more)| <= |Revivers(writers, files)|
    ensures w in Revivers(writers, files) ==> |Revivers(writers[w := y], more)| < |Revivers(writers, files)|
  {
    var before, after := Revivers(writers, files), Revivers(writers[w := y], more);
    hide Replacing;
    assert after <= before;
    SubsetSize(after, before);
    if w in before { Smaller(after, before, w); }
  }

  lemma OnlyCreator(s: State, w: Id, y: Writer)
    requires AllFit(s) && Kept(s) && w in s.writers && s.writers[w].createHeld && Running(s.writers[w]) && !Reserved(s.writers[w])
    ensures |Creators(s.writers[w := y], s.files)| <= 1
  {
    var after := Creators(s.writers[w := y], s.files);
    hide AllFit; hide Kept; hide Running; hide Reserved;
    forall v | v in after ensures v == w {
      if v != w { OneCreator(s, v, w); }
    }
    assert after <= {w};
    SubsetSize(after, {w});
  }

  lemma SafeCounts(s: State, w: Id, a: Step, t: State)
    requires Plays(s, w, a, t) && AllFit(s) && Kept(s) && Safe(s) && a.Count?
    ensures Safe(t)
  {
    var y := Moved(s.writers[w], a);
    assert |Creators(s.writers[w := y], s.files)| <= 1 by { OnlyCreator(s, w, y); }
    assert |Revivers(s.writers[w := y], s.files)| <= |Revivers(s.writers, s.files)| by { RevivesMove(s.writers, s.files, w, y, s.files); }
    hide Moved; hide AllFit; hide Kept; hide Reserved; hide Replacing; hide Running; hide Missing; hide Creators; hide Revivers;
  }

  lemma SafeMoves(s: State, w: Id, a: Step, t: State)
    requires Plays(s, w, a, t) && Safe(s) && !a.Count? && !a.Link? && !a.Rename?
    ensures Safe(t)
  {
    var y := Moved(s.writers[w], a);
    hide Moved; hide Reserved; hide Replacing; hide Running; hide Missing; hide Creators; hide Revivers;
    CreatorsMove(s.writers, s.files, w, y, s.files);
    RevivesMove(s.writers, s.files, w, y, s.files);
  }

  lemma PutSize(files: map<Path, Bytes>, p: Path, b: Bytes)
    ensures files.Keys <= files[p := b].Keys
    ensures |files[p := b]| == if p in files then |files| else |files| + 1
  {
    assert p in files ==> files[p := b].Keys == files.Keys;
  }

  lemma SafeCommits(s: State, w: Id, a: Step, t: State)
    requires Plays(s, w, a, t) && Safe(s) && (a.Link? || a.Rename?)
    ensures Safe(t)
  {
    var x, y := s.writers[w], Moved(s.writers[w], a);
    assert w in Creators(s.writers, s.files) || w in Revivers(s.writers, s.files) || x.call.target in s.files;
    hide Moved; hide Reserved; hide Replacing; hide Running; hide Missing; hide Creators; hide Revivers;
    PutSize(s.files, x.call.target, s.temps[w]);
    CreatorsMove(s.writers, s.files, w, y, t.files);
    RevivesMove(s.writers, s.files, w, y, t.files);
  }

  lemma ActKeepsSafe(s: State, w: Id, a: Step)
    requires CanAct(s, w, a) && AllFit(s) && Kept(s) && Safe(s)
    ensures Safe(Acted(s, w, a))
  {
    hide *;
    Played(s, w, a);
    if a.Count? { SafeCounts(s, w, a, Acted(s, w, a)); }
    else if a.Link? || a.Rename? { SafeCommits(s, w, a, Acted(s, w, a)); }
    else { SafeMoves(s, w, a, Acted(s, w, a)); }
  }

  lemma CallKeepsSafe(s: State, w: Id, call: Request)
    requires w !in s.writers && Safe(s)
    ensures Safe(s.(writers := s.writers[w := Called(call)]))
  {
    NewcomersAddNothing(s.writers, s.files, w, call);
    hide Creators; hide Revivers; hide Called;
  }

  lemma StaleKeepsSafe(s: State, l: Lock)
    requires Safe(s)
    ensures Safe(s.(locks := s.locks - {l}))
  {
    hide Creators; hide Revivers;
  }

  /** No move of a call, and no removal of a stale lock, makes the limit unsafe. */
  lemma CallsKeepSafe(s: State, a: Action)
    requires CanDo(s, a) && Inv(s) && Safe(s) && !a.Edit?
    ensures Safe(Do(s, a))
  {
    hide Acted; hide CanAct; hide Safe; hide Inv; hide Called; hide Running;
    InvKept(s);
    match a
    case Act(w, step) => ActKeepsSafe(s, w, step);
    case Call(w, call) => CallKeepsSafe(s, w, call);
    case RemoveStale(l) => StaleKeepsSafe(s, l);
  }

  lemma NewcomersAddNothing(writers: map<Id, Writer>, files: map<Path, Bytes>, w: Id, call: Request)
    requires w !in writers
    ensures Creators(writers[w := Called(call)], files) == Creators(writers, files)
    ensures Revivers(writers[w := Called(call)], files) == Revivers(writers, files)
  {
  }

  /** Every editor's action in the run leaves the limit safe. */
  ghost predicate Careful(s: State, actions: seq<Action>) {
    actions == [] ||
      var front, last := actions[..|actions| - 1], actions[|actions| - 1];
      Careful(s, front) && (last.Edit? ==> Safe(After(Next, s, actions)))
  }

  /** As long as every editor's action leaves the limit safe, it is never passed. */
  lemma {:induction false} NeverTooMany(s: State, actions: seq<Action>)
    requires Init(s) && Careful(s, actions)
    ensures var t := After(Next, s, actions); Safe(t) && |t.files| <= Cap(t) == Cap(s)
  {
    var t := After(Next, s, actions);
    InitInv(s);
    RunKeepsInv(s, actions, t);
    if actions == [] {
      assert Creators(s.writers, s.files) == {} && Revivers(s.writers, s.files) == {};
    } else {
      var front, last := actions[..|actions| - 1], actions[|actions| - 1];
      NeverTooMany(s, front);
      RunKeepsInv(s, front, After(Next, s, front));
      hide Inv; hide Safe; hide CanDo; hide Do;
      if !last.Edit? && CanDo(After(Next, s, front), last) { CallsKeepSafe(After(Next, s, front), last); }
    }
    assert Safe(t) ==> |t.files| <= Cap(t);
  }

  // ------------------------------------- what the calls alone can still add

  lemma UneditedKeeps(s: State, t: State)
    requires Inv(s) && Evolves(Unedited, s, t)
    ensures Inv(t) && Cap(t) == Cap(s) && t.max == s.max && (Safe(s) ==> Safe(t))
  {
    hide Inv; hide Safe;
    var kept := (x: State) => Inv(x) && x.max == s.max && x.initial == s.initial && (Safe(s) ==> Safe(x));
    forall x, a | kept(x) ensures kept(Unedited(x, a)) {
      if CanDo(x, a) && !a.Edit? {
        DoKeepsInv(x, a);
        SameLimit(x, a);
        if Safe(x) { CallsKeepSafe(x, a); }
      }
      hide CanDo; hide Do;
    }
    EvolvesKeeps(Unedited, kept, s, t);
  }

  lemma Acts(s: State, m: State, w: Id, a: Step)
    requires Evolves(Unedited, s, m) && Inv(m) && CanAct(m, w, a)
    ensures Evolves(Unedited, s, Acted(m, w, a)) && Inv(Acted(m, w, a)) && Plays(m, w, a, Acted(m, w, a))
  {
    Played(m, w, a);
    ActKeepsInv(m, w, a);
    hide Inv; hide Acted; hide CanAct; hide Plays; hide Evolves;
    EvolvesNext(Unedited, s, m, Act(w, a));
  }

  /** The other updates whose target is gone still wait for it: nobody else can write there. */
  lemma OthersRevive(s: State, w: Id, a: Step, t: State)
    requires Inv(s) && Plays(s, w, a, t) && Running(s.writers[w]) && s.writers[w].stage != Start
    ensures Revivers(s.writers, s.files) - {w} <= Revivers(t.writers, t.files)
    ensures |Revivers(t.writers, t.files)| >= |Revivers(s.writers, s.files)| - (if w in Revivers(s.writers, s.files) then 1 else 0)
  {
    var before, after := Revivers(s.writers, s.files), Revivers(t.writers, t.files);
    hide Inv; hide Reserved; hide Moved;
    forall v | v in before && v != w ensures v in after {
      if s.writers[v].call.target == s.writers[w].call.target {
        assert Kept(s) by { InvKept(s); }
        hide Kept;
        Excluded(s, v, w, TargetLock(s.writers[w].call.target));
      }
    }
    SubsetSize(before - {w}, after);
  }

  lemma InvKept(s: State)
    requires Inv(s)
    ensures Kept(s) && AllFit(s) && Owned(s) && TempsFit(s)
  {
    hide Kept; hide AllFit; hide Owned; hide TempsFit; hide Fresh; hide Refines; hide Once; hide Faithful; hide AllSince;
  }

  lemma WriterFits(s: State, w: Id)
    requires Inv(s) && w in s.writers
    ensures Fits(s.writers[w]) && TempFits(s.temps, w, s.writers[w])
  {
    InvKept(s);
    hide Inv; hide Kept; hide Owned; hide Fits; hide TempFits;
  }

  lemma RenameNext(s: State, w: Id)
    requires Inv(s) && w in Revivers(s.writers, s.files)
    ensures CanAct(s, w, Rename)
  {
    hide Inv; hide Fits;
    WriterFits(s, w);
  }

  /** Every update whose target is gone can bring it back. */
  lemma {:induction false} ReviveAll(s: State) returns (t: State)
    requires Inv(s)
    ensures Evolves(Unedited, s, t) && |t.files| >= |s.files| + |Revivers(s.writers, s.files)|
    decreases |Revivers(s.writers, s.files)|
  {
    hide Inv; hide Evolves; hide Acted; hide CanAct; hide Moved; hide Reserved;
    EvolvesNot(Unedited, s);
    t := s;
    var waiting := Revivers(s.writers, s.files);
    if waiting != {} {
      var w :| w in waiting;
      RenameNext(s, w);
      Acts(s, s, w, Rename);
      var m := Acted(s, w, Rename);
      OthersRevive(s, w, Rename, m);
      PutSize(s.files, s.writers[w].call.target, s.temps[w]);
      RevivesMove(s.writers, s.files, w, Moved(s.writers[w], Rename), m.files);
      t := ReviveAll(m);
      EvolvesOn(Unedited, s, m, t);
    }
  }

  /** What a creator that has counted does next. */
  function NextStep(s: State, x: Writer): Step {
    match x.stage
    case Ready => OpenTemp([])
    case TempOpened => WriteTemp
    case TempWritten => Recompare(|s.log|)
    case _ => Link
  }

  function ToGo(x: Writer): nat {
    match x.stage
    case Ready => 3
    case TempOpened => 2
    case TempWritten => 1
    case _ => 0
  }

  lemma CreatorMoves(x: Writer, a: Step)
    requires Reserved(x) && a == (match x.stage case Ready => OpenTemp([]) case TempOpened => WriteTemp case TempWritten => a case _ => Link)
    requires x.stage == TempWritten ==> a.Recompare?
    ensures !Replacing(Moved(x, a)) || x.call.expected.Some?
    ensures !a.Link? ==> Reserved(Moved(x, a)) && ToGo(Moved(x, a)) < ToGo(x)
  {
    hide Leak; hide LeakedAfter; hide TemporaryAfter;
  }

  lemma CreatorNext(s: State, w: Id)
    requires Inv(s) && w in Creators(s.writers, s.files)
    ensures var x, a := s.writers[w], NextStep(s, s.writers[w]);
            && CanAct(s, w, a) && !Replacing(x) && Running(x) && x.stage != Start
            && (!a.Link? ==> Reserved(Moved(x, a)) && ToGo(Moved(x, a)) < ToGo(x))
  {
    hide Inv; hide Moved; hide Leak; hide FitsFate; hide FitsTemporary; hide FitsEnd; hide FitsLeaks;
    WriterFits(s, w);
    var x := s.writers[w];
    assert x.call.expected.None? by { assert FitsLocks(x) && FitsCreate(x); }
    CreatorMoves(x, NextStep(s, x));
  }

  /** A creator that has counted can link its document, if it is not there. */
  lemma {:induction false} CreatorLinks(s: State, w: Id) returns (t: State)
    requires Inv(s) && w in Creators(s.writers, s.files)
    ensures Evolves(Unedited, s, t) && Inv(t) && |t.files| == |s.files| + 1
    ensures |Revivers(t.writers, t.files)| >= |Revivers(s.writers, s.files)|
    decreases ToGo(s.writers[w])
  {
    EvolvesNot(Unedited, s);
    var x, a := s.writers[w], NextStep(s, s.writers[w]);
    CreatorNext(s, w);
    Acts(s, s, w, a);
    var m := Acted(s, w, a);
    OthersRevive(s, w, a, m);
    PutSize(s.files, x.call.target, if w in s.temps then s.temps[w] else []);
    hide Inv; hide Evolves; hide Acted; hide CanAct; hide Moved; hide ToGo; hide Reserved; hide Replacing;
    if a.Link? {
      t := m;
    } else {
      t := CreatorLinks(m, w);
      EvolvesOn(Unedited, s, m, t);
    }
  }

  /** The holder of the shared lock may crash. */
  lemma HolderStops(s: State) returns (t: State)
    requires Inv(s) && CreateLock in s.locks
    ensures Evolves(Unedited, s, t) && Inv(t) && t.files == s.files && CanDo(t, RemoveStale(CreateLock))
    ensures |Revivers(t.writers, t.files)| >= |Revivers(s.writers, s.files)|
  {
    hide Inv; hide Evolves; hide Acted; hide Replacing; hide Reserved; hide Revivers; hide Plays;
    var v := s.locks[CreateLock];
    EvolvesNot(Unedited, s);
    t := s;
    HolderCreates(s, v);
    if Running(s.writers[v]) {
      CrashNext(s, v);
      t := Acted(s, v, Crash);
      Acts(s, s, v, Crash);
      OthersRevive(s, v, Crash, t);
      NoReviver(s, v);
    }
  }

  lemma NoReviver(s: State, v: Id)
    requires v in s.writers && !Replacing(s.writers[v])
    ensures v !in Revivers(s.writers, s.files)
  {
  }

  lemma CrashNext(s: State, v: Id)
    requires v in s.writers && Running(s.writers[v])
    ensures CanAct(s, v, Crash)
    ensures var t := Acted(s, v, Crash); t.files == s.files && t.locks == s.locks && t.writers == s.writers[v := s.writers[v].(stage := Crashed)]
  {
  }

  /** And a holder that has ended has its lock removed: the shared lock can always be freed. */
  lemma CreateLockFrees(s: State) returns (t: State)
    requires Inv(s)
    ensures Evolves(Unedited, s, t) && Inv(t) && CreateLock !in t.locks && t.files == s.files
    ensures |Revivers(t.writers, t.files)| >= |Revivers(s.writers, s.files)|
  {
    EvolvesNot(Unedited, s);
    t := s;
    hide Inv; hide Evolves; hide Revivers;
    if CreateLock in s.locks {
      var m := HolderStops(s);
      EvolvesNext(Unedited, s, m, RemoveStale(CreateLock));
      DoKeepsInv(m, RemoveStale(CreateLock));
      t := Do(m, RemoveStale(CreateLock));
    }
  }

  lemma HolderCreates(s: State, v: Id)
    requires Inv(s) && CreateLock in s.locks && s.locks[CreateLock] == v
    ensures v in s.writers && s.writers[v].stage != Start && !Replacing(s.writers[v])
  {
    InvKept(s);
    assert Holds(s.writers[v], CreateLock) by { hide Inv; }
    WriterFits(s, v);
    hide Inv; hide AllFit; hide Owned; hide Kept; hide TempsFit; hide TempFits;
  }

  lemma {:induction false} FreshPath(taken: set<Path>) returns (q: Path)
    ensures forall p :: p in taken ==> |p| < |q|
  {
    if taken == {} {
      q := "";
    } else {
      var p :| p in taken;
      q := FreshPath(taken - {p});
      q := q + p + "!";
      assert forall r :: r in taken ==> r == p || r in taken - {p};
    }
  }

  lemma {:induction false} FreshId(taken: set<Id>) returns (w: Id)
    ensures forall v :: v in taken ==> v < w
  {
    if taken == {} {
      w := 0;
    } else {
      var v :| v in taken;
      w := FreshId(taken - {v});
      w := w + v + 1;
      assert forall u :: u in taken ==> u == v || u in taken - {v};
    }
  }

  lemma RoomFor(s: State) returns (w: Id, q: Path)
    requires Inv(s) && CreateLock !in s.locks && |s.files| < s.max
    ensures FreeFor(s, w, q) && w !in s.writers && q !in s.files && TargetLock(q) !in s.locks
  {
    InvKept(s);
    hide Inv; hide Kept; hide AllFit; hide Owned;
    w := FreshId(s.writers.Keys);
    var locked := set l | l in s.locks && l.TargetLock? :: l.target;
    q := FreshPath(s.files.Keys + locked);
    assert forall l :: l in s.locks && l.TargetLock? ==> l.target in s.files.Keys + locked;
    assert q !in s.files.Keys + locked;
    assert w !in s.writers.Keys;
  }

  /** One more call creates a document, and all else is as it was. */
  lemma OneMore(s: State) returns (t: State)
    requires Inv(s) && CreateLock !in s.locks && |s.files| < s.max
    ensures Evolves(Unedited, s, t) && Inv(t) && CreateLock !in t.locks && |t.files| == |s.files| + 1 && t.max == s.max
    ensures |Revivers(t.writers, t.files)| >= |Revivers(s.writers, s.files)|
  {
    hide *;
    var w, q := RoomFor(s);
    var y := Committed(q, [], |s.log|).(stage := Done, createHeld := false, temporary := false);
    t := With(Added(s, w, q, [], |s.log|), w, y, s.locks, s.temps);
    CreationEnds(s, w, q, []);
    CreatedState(s, Added(s, w, q, [], |s.log|), w, q, y);
    UneditedKeeps(s, t);
    PutSize(s.files, q, []);
    NewcomersReviveNothing(s, w, q, y, t.files);
  }

  lemma CreatedState(s: State, l: State, w: Id, q: Path, y: Writer)
    requires l == Added(s, w, q, [], |s.log|) && Stands(s, l, w, y, s.locks, s.temps)
    ensures var t := With(l, w, y, s.locks, s.temps);
            && Evolves(Unedited, s, t) && t.locks == s.locks && t.max == s.max && t.writers == s.writers[w := y]
            && t.files == s.files[q := []] && t.files.Keys == s.files.Keys + {q}
  {
    hide Evolves;
  }

  lemma NewcomersReviveNothing(s: State, w: Id, q: Path, y: Writer, files: map<Path, Bytes>)
    requires Inv(s) && w !in s.writers && TargetLock(q) !in s.locks && files.Keys == s.files.Keys + {q}
    ensures |Revivers(s.writers[w := y], files)| >= |Revivers(s.writers, s.files)|
  {
    var before, after := Revivers(s.writers, s.files), Revivers(s.writers[w := y], files);
    InvKept(s);
    hide Inv;
    forall v | v in before ensures v in after {
      KeptAt(s, v, TargetLock(s.writers[v].call.target));
    }
    SubsetSize(before, after);
  }

  lemma {:induction false} FillUp(s: State) returns (t: State)
    requires Inv(s) && CreateLock !in s.locks
    ensures Evolves(Unedited, s, t) && Inv(t) && |t.files| >= s.max
    ensures |Revivers(t.writers, t.files)| >= |Revivers(s.writers, s.files)|
    decreases s.max - |s.files|
  {
    EvolvesNot(Unedited, s);
    t := s;
    hide Inv; hide Evolves; hide Revivers;
    if |s.files| < s.max {
      var m := OneMore(s);
      t := FillUp(m);
      EvolvesOn(Unedited, s, m, t);
    }
  }

  lemma OneCreatorAtMost(s: State)
    requires Inv(s)
    ensures |Creators(s.writers, s.files)| <= 1
  {
    InvKept(s);
    hide Inv;
    var c := Creators(s.writers, s.files);
    if c != {} {
      var w :| w in c;
      assert Fits(s.writers[w]);
      forall v | v in c ensures v == w { OneCreator(s, v, w); }
      assert c <= {w};
      SubsetSize(c, {w});
    }
  }

  /** Where the limit is not safe, calls alone can pass it. */
  lemma UnsafeBreaks(s: State) returns (t: State)
    requires Inv(s) && !Safe(s)
    ensures Evolves(Unedited, s, t) && |t.files| > Cap(s)
  {
    OneCreatorAtMost(s);
    hide Inv; hide Evolves; hide Revivers;
    var creators, m := Creators(s.writers, s.files), s;
    EvolvesNot(Unedited, s);
    if s.max + |Revivers(s.writers, s.files)| > Cap(s) && |s.files| < s.max {
      m := CreateLockFrees(s);
      UneditedKeeps(s, m);
      var n := FillUp(m);
      EvolvesOn(Unedited, s, m, n);
      m := n;
    } else if creators != {} {
      var w :| w in creators;
      m := CreatorLinks(s, w);
    }
    t := ReviveAll(m);
    EvolvesOn(Unedited, s, m, t);
  }

  /**
   Exactly when the limit is safe: from a state that any run can reach, the calls alone
   never pass the limit if and only if there is room for what is on its way.
   */
  lemma SafeIsExact(s: State, actions: seq<Action>, t: State)
    requires Init(s) && t == After(Next, s, actions)
    ensures Safe(t) <==> forall u :: Evolves(Unedited, t, u) ==> |u.files| <= Cap(s)
  {
    InitInv(s);
    RunKeepsInv(s, actions, t);
    hide Inv; hide Evolves; hide Creators; hide Revivers;
    if Safe(t) {
      forall u | Evolves(Unedited, t, u) ensures |u.files| <= Cap(s) { UneditedKeeps(t, u); }
    } else {
      var u := UnsafeBreaks(t);
    }
  }

  // --------------------------------------------------- what an editor may do

  /**
   An editor may always change a document that is there, may delete one that no update is
   about to rename over, and may create one while there is room beside what is on its way.
   */
  lemma EditorMay(s: State, p: Path, edited: Option<Bytes>)
    requires Inv(s) && Safe(s)
    requires edited.Some? && p !in s.files ==> |s.files| + |Creators(s.writers, s.files)| + |Revivers(s.writers, s.files)| < Cap(s)
    requires edited.None? ==> forall w :: w in s.writers && Replacing(s.writers[w]) ==> s.writers[w].call.target != p
    ensures Safe(Edited(s, p, edited))
  {
    hide Inv; hide Creators; hide Revivers; hide Replacing; hide Safe;
    if edited.Some? {
      EditorWrites(s, p, edited.value);
    } else {
      DoKeepsInv(s, Edit(p, edited));
      OneCreatorAtMost(Edited(s, p, None));
      EditorRemoves(s, p);
    }
  }

  lemma EditorWrites(s: State, p: Path, mine: Bytes)
    requires Safe(s)
    requires p !in s.files ==> |s.files| + |Creators(s.writers, s.files)| + |Revivers(s.writers, s.files)| < Cap(s)
    ensures Safe(Edited(s, p, Some(mine)))
  {
    hide Creators; hide Revivers;
    PutSize(s.files, p, mine);
    FilesGrow(s.writers, s.files, s.files[p := mine]);
  }

  lemma EditorRemoves(s: State, p: Path)
    requires Safe(s) && |Creators(s.writers, s.files - {p})| <= 1
    requires forall w :: w in s.writers && Replacing(s.writers[w]) ==> s.writers[w].call.target != p
    ensures Safe(Edited(s, p, None))
  {
    hide Creators; hide Revivers; hide Replacing;
    FilesShrink(s.writers, s.files, p);
  }

  lemma FilesGrow(writers: map<Id, Writer>, files: map<Path, Bytes>, more: map<Path, Bytes>)
    requires files.Keys <= more.Keys
    ensures |Creators(writers, more)| <= |Creators(writers, files)| && |Revivers(writers, more)| <= |Revivers(writers, files)|
  {
    hide Reserved; hide Replacing;
    assert Creators(writers, more) <= Creators(writers, files) && Revivers(writers, more) <= Revivers(writers, files);
    SubsetSize(Creators(writers, more), Creators(writers, files));
    SubsetSize(Revivers(writers, more), Revivers(writers, files));
  }

  lemma FilesShrink(writers: map<Id, Writer>, files: map<Path, Bytes>, p: Path)
    requires forall w :: w in writers && Replacing(writers[w]) ==> writers[w].call.target != p
    ensures Revivers(writers, files - {p}) == Revivers(writers, files)
    ensures if p in files then |files - {p}| == |files| - 1 else files - {p} == files
  {
    hide Replacing;
    if p in files { assert (files - {p})[p := files[p]] == files; }
  }

  /**
   A creation alone passes the limit, though it keeps within it itself: one more document
   while a creator has counted and not linked yet.
   */
  lemma EditorCreates(initial: map<Path, Bytes>, p: Path, q: Path, b: Bytes, mine: Bytes) returns (r: State, t: State)
    requires p !in initial && q !in initial && p != q
    ensures var s := JustStarted(|initial| + 1, initial);
            && Reachable(s, r) && |Edited(r, q, Some(mine)).files| <= Cap(s)
            && Evolves(Unedited, Edited(r, q, Some(mine)), t) && |t.files| > Cap(s)
  {
    var s := JustStarted(|initial| + 1, initial);
    CreationCounts(s, 0, p, b);
    r := With(s, 0, Counted(p, b), BothTaken(s, 0, p), s.temps);
    var e := Edited(r, q, Some(mine));
    assert Evolves(Unedited, s, r) && Init(s) && Cap(s) == |initial| + 1;
    assert 0 in Creators(e.writers, e.files);
    PutSize(initial, q, mine);
    assert |e.files| == |initial| + 1;
    hide Inv; hide Evolves; hide Init; hide Creators; hide Revivers; hide With; hide JustStarted; hide Counted; hide Edited;
    EditBreaks(s, r, q, Some(mine));
    assert !Safe(e) by { assert Creators(e.writers, e.files) != {}; }
    t := UnsafeBreaks(e);
  }

  /**
   A deletion alone passes the limit: of the target of an update between its second
   comparison and its rename, whose place a creator can take before the rename.
   */
  lemma EditorDeletes(initial: map<Path, Bytes>, p: Path, b: Bytes) returns (r: State, t: State)
    requires p in initial
    ensures var s := JustStarted(|initial|, initial);
            && Reachable(s, r) && |Edited(r, p, None).files| <= Cap(s)
            && Evolves(Unedited, Edited(r, p, None), t) && |t.files| > Cap(s)
  {
    var s := JustStarted(|initial|, initial);
    UpdateWrites(|initial|, initial, p, b);
    r := AboutToRename(|initial|, initial, p, b);
    var e := Edited(r, p, None);
    assert 0 in Revivers(e.writers, e.files);
    assert e.files[p := initial[p]] == initial;
    EditBreaks(s, r, p, None);
    t := UnsafeBreaks(e);
  }

  /** And so does an editor that moves a document in that gap, never going over the limit itself. */
  lemma EditorBreaksLimit(initial: map<Path, Bytes>, p: Path, q: Path, b: Bytes) returns (t: State)
    requires p in initial && q !in initial
    ensures Reachable(JustStarted(|initial|, initial), t)
    ensures |t.files| == t.max + 1
  {
    hide Evolves; hide Unedited; hide Moved; hide LocksAfter; hide TempsAfter; hide Acted;
    var s, r := JustStarted(|initial|, initial), AboutToRename(|initial|, initial, p, b);
    assert Reachable(s, r) && CanAct(r, 0, Rename) && r.writers[0].call.target == p by {
      UpdateWrites(|initial|, initial, p, b);
      UneditedReachable(s, r);
    }
    EvolvesNext(Next, s, r, Edit(p, None));
    var e1 := Edited(r, p, None);
    EvolvesNext(Next, s, e1, Edit(q, Some(initial[p])));
    var e2 := Edited(e1, q, Some(initial[p]));
    assert |e2.files| == |initial| by { assert (initial - {p})[p := initial[p]] == initial; }
    RenamesOver(s, e2);
    PutSize(e2.files, p, b);
    t := Acted(e2, 0, Rename);
  }

  lemma RenamesOver(s: State, m: State)
    requires Reachable(s, m) && CanAct(m, 0, Rename)
    ensures Reachable(s, Acted(m, 0, Rename)) && Acted(m, 0, Rename).max == m.max
    ensures Acted(m, 0, Rename).files == m.files[m.writers[0].call.target := m.temps[0]]
  {
    hide Evolves; hide Moved; hide LocksAfter; hide TempsAfter;
    EvolvesNext(Next, s, m, Act(0, Rename));
  }

  lemma EditBreaks(s: State, r: State, p: Path, edited: Option<Bytes>)
    requires Init(s) && Evolves(Unedited, s, r)
    ensures Reachable(s, r) && Inv(Edited(r, p, edited)) && Cap(Edited(r, p, edited)) == Cap(s)
  {
    InitInv(s);
    UneditedReachable(s, r);
    UneditedKeeps(s, r);
    DoKeepsInv(r, Edit(p, edited));
    hide Inv; hide Evolves;
  }
}

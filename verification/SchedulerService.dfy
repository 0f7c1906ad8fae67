/**
 Schedules in a database that several Studios share, and the poll that claims and sends
 them. A transaction is one change; between them, any changes of others may happen.
 */
module SchedulerService {
  import opened History
  import opened Options
  import JsText

  type Id = string

  datatype Status = Scheduled | Cancelled | Dispatching | Dispatched | Failed

  datatype Kind = CreatedEvent | CancelledEvent | ClaimedEvent | DispatchedEvent | FailedEvent | RecoveredEvent

  /** What is to be asked of which Pet, and in which Channel. */
  datatype Task = Task(petId: string, channelId: string, request: string)

  datatype Row = Row(task: Task, runAt: int, status: Status, receipt: Option<nat>)

  type Db = Store<Row, Kind>

  datatype Move = Cancel | Claim | MarkDispatched(receipt: Option<nat>) | Fail | Recover

  datatype Change = Create(id: Id, task: Task, runAt: int) | Transition(id: Id, move: Move)

  function From(m: Move): Status { if m.Cancel? || m.Claim? then Scheduled else Dispatching }

  function To(m: Move): Status {
    match m
    case Cancel => Cancelled
    case Claim => Dispatching
    case MarkDispatched(_) => Dispatched
    case _ => Failed
  }

  function KindOf(m: Move): Kind {
    match m
    case Cancel => CancelledEvent
    case Claim => ClaimedEvent
    case MarkDispatched(_) => DispatchedEvent
    case Fail => FailedEvent
    case Recover => RecoveredEvent
  }

  predicate CanChange(db: Db, c: Change) {
    match c
    case Create(id, _, _) => id !in db.rows
    case Transition(id, m) => id in db.rows && db.rows[id].status == From(m)
  }

  function Changed(db: Db, c: Change): Db
    requires CanChange(db, c)
  {
    match c
    case Create(id, task, runAt) => Store(db.rows[id := Row(task, runAt, Scheduled, None)], db.log + [Event(id, CreatedEvent)])
    case Transition(id, m) =>
      var row := db.rows[id];
      var receipt := if m.MarkDispatched? && m.receipt.Some? then m.receipt else row.receipt;
      Store(db.rows[id := row.(status := To(m), receipt := receipt)], db.log + [Event(id, KindOf(m))])
  }

  function Next(db: Db, c: Change): Db {
    if CanChange(db, c) then Changed(db, c) else db
  }

  // ------------------------------------------------- the path of a schedule

  /** created, then cancelled, or claimed and then at most one outcome */
  predicate Path(word: seq<Kind>) {
    && 1 <= |word| <= 3 && word[0] == CreatedEvent
    && (|word| == 2 ==> word[1] == CancelledEvent || word[1] == ClaimedEvent)
    && (|word| == 3 ==> word[1] == ClaimedEvent && (word[2] == DispatchedEvent || word[2] == FailedEvent || word[2] == RecoveredEvent))
  }

  /** The status that replaying a path arrives at. */
  function Arrives(word: seq<Kind>): Status
    requires word != []
  {
    match word[|word| - 1]
    case CreatedEvent => Scheduled
    case CancelledEvent => Cancelled
    case ClaimedEvent => Dispatching
    case DispatchedEvent => Dispatched
    case _ => Failed
  }

  predicate Follows(word: seq<Kind>, status: Status) {
    Path(word) && Arrives(word) == status
  }

  ghost predicate Inv(db: Db) {
    && (forall id :: id in db.rows ==> Follows(Word(db.log, id), db.rows[id].status) && (db.rows[id].receipt.Some? ==> db.rows[id].status == Dispatched))
    && (forall id :: id !in db.rows ==> Word(db.log, id) == [])
  }

  function EventOf(c: Change): Event<Kind> {
    match c
    case Create(id, _, _) => Event(id, CreatedEvent)
    case Transition(id, m) => Event(id, KindOf(m))
  }

  lemma WordChanged(db: Db, c: Change, id: Id)
    requires CanChange(db, c)
    ensures Word(Changed(db, c).log, id) == Word(db.log, id) + if c.id == id then [EventOf(c).kind] else []
  {
    WordNext(db.log, EventOf(c), id);
  }

  lemma PathNext(word: seq<Kind>, m: Move)
    requires Follows(word, From(m))
    ensures Follows(word + [KindOf(m)], To(m))
  {
  }

  /** What a change does to the rows: nothing but what it says of its own. */
  lemma ReceiptChanged(db: Db, c: Change)
    requires CanChange(db, c)
    ensures Changed(db, c).rows.Keys == db.rows.Keys + {c.id}
    ensures forall id :: id in db.rows && id != c.id ==> Changed(db, c).rows[id] == db.rows[id]
    ensures c.Create? ==> Changed(db, c).rows[c.id] == Row(c.task, c.runAt, Scheduled, None)
    ensures c.Transition? ==>
              var x, y := db.rows[c.id], Changed(db, c).rows[c.id];
              && y.task == x.task && y.runAt == x.runAt && y.status == To(c.move)
              && (y.receipt == x.receipt || (c.move.MarkDispatched? && y.receipt == c.move.receipt))
              && (c.move.MarkDispatched? && c.move.receipt.Some? ==> y.receipt == c.move.receipt)
  {
  }

  lemma ChangeKeepsInv(db: Db, c: Change)
    requires CanChange(db, c) && Inv(db)
    ensures Inv(Changed(db, c))
  {
    hide Word; hide Follows;
    var t := Changed(db, c);
    ReceiptChanged(db, c);
    hide Changed;
    forall id ensures if id in t.rows then Follows(Word(t.log, id), t.rows[id].status) else Word(t.log, id) == [] {
      WordChanged(db, c, id);
      if id == c.id {
        if c.Transition? {
          PathNext(Word(db.log, id), c.move);
        } else {
          assert Word(t.log, id) == [CreatedEvent];
          JustCreated();
        }
      } else {
        assert Word(db.log, id) + [] == Word(db.log, id);
      }
    }
  }

  lemma JustCreated()
    ensures Follows([CreatedEvent], Scheduled)
  {
  }

  predicate Terminal(s: Status) { s == Cancelled || s == Dispatched || s == Failed }

  /** How far along a schedule is; nothing leads back. */
  function Rank(s: Status): nat {
    if s == Scheduled then 0 else if s == Dispatching then 1 else 2
  }

  /** What stays of a row: its task, its time and how far it got, and all of it once terminal. */
  predicate Stays(x: Row, y: Row) {
    y.task == x.task && y.runAt == x.runAt && Rank(x.status) <= Rank(y.status) && (Terminal(x.status) ==> y == x)
  }

  lemma ExtendsNext(d: Db, e: Db, c: Change)
    requires Extends(Stays, d, e) && CanChange(e, c)
    ensures Extends(Stays, d, Changed(e, c))
  {
  }

  lemma EvolvesExtends(d: Db, e: Db)
    requires Evolves(Next, d, e)
    ensures Extends(Stays, d, e) && (Inv(d) ==> Inv(e))
  {
    var kept := (x: Db) => Extends(Stays, d, x) && (Inv(d) ==> Inv(x));
    forall x, c | kept(x) ensures kept(Next(x, c)) {
      hide Extends; hide CanChange; hide Changed;
      if CanChange(x, c) {
        ExtendsNext(d, x, c);
        if Inv(d) { ChangeKeepsInv(x, c); }
      }
    }
    EvolvesKeeps(Next, kept, d, e);
  }

  /** In every history, however many Studios write it: the log of a schedule is one path and its row agrees. */
  lemma EveryScheduleIsAPath(changes: seq<Change>, id: Id)
    requires id in After(Next, Store(map[], []), changes).rows
    ensures var db := After(Next, Store(map[], []), changes);
            Path(Word(db.log, id)) && Arrives(Word(db.log, id)) == db.rows[id].status
  {
    EvolvesExtends(Store(map[], []), After(Next, Store(map[], []), changes));
  }

  /** The end that an outcome leaves a schedule at; a dispatched one has the receipt of its send. */
  predicate Reached(row: Row, m: Move)
    requires !m.Claim?
  {
    match m
    case Cancel => row.status == Cancelled && row.receipt == None
    case MarkDispatched(receipt) => row.status == Dispatched && row.receipt == receipt
    case _ => row.status == Failed && row.receipt == None
  }

  lemma MadeStays(d: Db, id: Id, m: Move, e: Db)
    requires Inv(d) && Made(Next, CanChange, d, Transition(id, m), e)
    ensures id in e.rows && (m.Claim? || Reached(e.rows[id], m))
  {
    var c := Transition(id, m);
    var n :| Evolves(Next, d, n) && CanChange(n, c) && Evolves(Next, Changed(n, c), e);
    EvolvesExtends(d, n);
    assert n.rows[id].receipt == None;
    ReceiptChanged(n, c);
    EvolvesExtends(Changed(n, c), e);
    assert Stays(Changed(n, c).rows[id], e.rows[id]);
    hide Inv; hide Evolves; hide Changed;
  }

  lemma CreatedStays(d: Db, c: Change, e: Db)
    requires c.Create? && Made(Next, CanChange, d, c, e)
    ensures c.id in e.rows && e.rows[c.id].task == c.task && e.rows[c.id].runAt == c.runAt
  {
    var n :| Evolves(Next, d, n) && CanChange(n, c) && Evolves(Next, Changed(n, c), e);
    ReceiptChanged(n, c);
    EvolvesExtends(Changed(n, c), e);
    assert Stays(Changed(n, c).rows[c.id], e.rows[c.id]);
    hide Inv; hide Evolves; hide Changed;
  }

  // ------------------------------------------------------------- the sends

  /**
   The polls of any number of Studios: each claims a schedule, sends it at most once and
   records an outcome. `sent` is every send made, in order.
   */
  datatype Poller = Resting | Holding(id: Id) | Sent(id: Id)

  datatype System = System(db: Db, pollers: map<nat, Poller>, sent: seq<Id>)

  datatype Action =
    | Other(change: Change)
    | ClaimFor(p: nat, id: Id)
    | Send(p: nat)
    | Conclude(p: nat, move: Option<Move>)

  predicate CanDo(s: System, a: Action) {
    match a
    case Other(c) => CanChange(s.db, c) && (c.Transition? ==> !c.move.Claim?)
    case ClaimFor(p, id) => (p in s.pollers ==> s.pollers[p] == Resting) && CanChange(s.db, Transition(id, Claim))
    case Send(p) => p in s.pollers && s.pollers[p].Holding?
    case Conclude(p, m) =>
      && p in s.pollers && s.pollers[p] != Resting
      && (m.Some? ==> (m.value.MarkDispatched? || m.value.Fail?) && CanChange(s.db, Transition(s.pollers[p].id, m.value)))
  }

  function Do(s: System, a: Action): System
    requires CanDo(s, a)
  {
    match a
    case Other(c) => s.(db := Changed(s.db, c))
    case ClaimFor(p, id) => s.(db := Changed(s.db, Transition(id, Claim)), pollers := s.pollers[p := Holding(id)])
    case Send(p) => s.(sent := s.sent + [s.pollers[p].id], pollers := s.pollers[p := Sent(s.pollers[p].id)])
    case Conclude(p, m) =>
      var t := s.(pollers := s.pollers[p := Resting]);
      if m.Some? then t.(db := Changed(s.db, Transition(s.pollers[p].id, m.value))) else t
  }

  function NextSystem(s: System, a: Action): System {
    if CanDo(s, a) then Do(s, a) else s
  }

  predicate Past(db: Db, id: Id) {
    id in db.rows && Rank(db.rows[id].status) > 0
  }

  /** A claimed schedule has one holder, who has not sent it, or it will never be sent again. */
  ghost predicate SendsOnce(s: System) {
    && (forall i, j :: 0 <= i < j < |s.sent| ==> s.sent[i] != s.sent[j])
    && (forall id :: id in s.sent ==> Past(s.db, id))
    && (forall p :: p in s.pollers && s.pollers[p].Holding? ==> Past(s.db, s.pollers[p].id) && s.pollers[p].id !in s.sent)
    && (forall p, q :: p in s.pollers && q in s.pollers && s.pollers[p].Holding? && s.pollers[p] == s.pollers[q] ==> p == q)
  }

  lemma PastStays(db: Db, c: Change, id: Id)
    requires CanChange(db, c) && Past(db, id)
    ensures Past(Changed(db, c), id)
  {
  }

  lemma DoKeepsSendsOnce(s: System, a: Action)
    requires CanDo(s, a) && SendsOnce(s)
    ensures SendsOnce(Do(s, a))
  {
    var t := Do(s, a);
    forall id | Past(s.db, id) ensures Past(t.db, id) {
      match a
      case Other(c) => PastStays(s.db, c, id);
      case ClaimFor(_, d) => PastStays(s.db, Transition(d, Claim), id);
      case Send(_) =>
      case Conclude(p, m) => if m.Some? { PastStays(s.db, Transition(s.pollers[p].id, m.value), id); }
    }
    hide Changed;
    if a.ClaimFor? {
      assert !Past(s.db, a.id);
      ClaimIsPast(s.db, a.id);
    }
    hide Past; hide CanChange;
  }

  lemma ClaimIsPast(db: Db, id: Id)
    requires CanChange(db, Transition(id, Claim))
    ensures Past(Changed(db, Transition(id, Claim)), id)
  {
  }

  /** From an empty database on, under any interleaving of the Studios' polls. */
  lemma EachSentOnce(actions: seq<Action>, t: System, i: nat, j: nat)
    requires t == After(NextSystem, System(Store(map[], []), map[], []), actions) && i < j < |t.sent|
    ensures t.sent[i] != t.sent[j] && Past(t.db, t.sent[i])
  {
    forall x, a | SendsOnce(x) ensures SendsOnce(NextSystem(x, a)) {
      hide SendsOnce; hide CanDo; hide Do;
      if CanDo(x, a) { DoKeepsSendsOnce(x, a); }
    }
    AfterKeeps(NextSystem, SendsOnce, System(Store(map[], []), map[], []), actions);
    assert t.sent[i] in t.sent;
  }

  /** A due schedule that nobody else takes: it is claimed, sent once, and ends with the receipt of the send or as failed. */
  lemma RunsAlone(s: System, p: nat, id: Id, move: Move)
    requires id in s.db.rows && s.db.rows[id].status == Scheduled && (p in s.pollers ==> s.pollers[p] == Resting)
    requires move.MarkDispatched? || move.Fail?
    ensures var e := NextSystem(NextSystem(NextSystem(s, ClaimFor(p, id)), Send(p)), Action.Conclude(p, Some(move)));
            && e.sent == s.sent + [id] && e.pollers == s.pollers[p := Resting]
            && id in e.db.rows && e.db.rows[id].status == (if move.Fail? then Failed else Dispatched)
            && e.db.rows[id].task == s.db.rows[id].task && e.db.rows[id].runAt == s.db.rows[id].runAt
            && (move.MarkDispatched? && move.receipt.Some? ==> e.db.rows[id].receipt == move.receipt)
            && forall o :: o in s.db.rows && o != id ==> o in e.db.rows && e.db.rows[o] == s.db.rows[o]
  {
    var claimed := NextSystem(s, ClaimFor(p, id));
    ReceiptChanged(s.db, Transition(id, Claim));
    ReceiptChanged(claimed.db, Transition(id, move));
    hide Changed;
    assert claimed == System(Changed(s.db, Transition(id, Claim)), s.pollers[p := Holding(id)], s.sent);
    var sent := NextSystem(claimed, Send(p));
    assert sent == System(claimed.db, s.pollers[p := Holding(id)][p := Sent(id)], s.sent + [id]);
    assert s.pollers[p := Holding(id)][p := Sent(id)][p := Resting] == s.pollers[p := Resting];
  }

  // ------------------------------------------------------------ the service

  datatype Error = EmptyText | NoDate

  /** What the Channel answers to a send: a receipt, or an exception. */
  datatype Outcome = Delivered(receipt: nat) | Threw

  datatype Sending = Sending(id: Id, task: Task)

  /** The task as it was asked for, each text without the white space around it. */
  ghost predicate Keeps(kept: Task, asked: Task) {
    && JsText.Trims(asked.petId, kept.petId) && JsText.Trims(asked.channelId, kept.channelId) && JsText.Trims(asked.request, kept.request)
  }

  function Trimmed(task: Task): Task {
    Task(JsText.Trim(task.petId), JsText.Trim(task.channelId), JsText.Trim(task.request))
  }

  lemma TrimmedKeeps(task: Task)
    ensures Keeps(Trimmed(task), task)
  {
    JsText.TrimTrims(task.petId);
    JsText.TrimTrims(task.channelId);
    JsText.TrimTrims(task.request);
  }

  /** How a schedule ends that was sent: with the receipt that the send brought, or as failed. */
  predicate Ends(row: Row, outcome: Outcome) {
    || (row.status == Dispatched && outcome.Delivered? && row.receipt == Some(outcome.receipt))
    || (row.status == Failed && row.receipt == None)
  }

  function Waiting(db: Db): set<Id> {
    set id | id in db.rows && db.rows[id].status == Scheduled
  }

  predicate Due(db: Db, id: Id, now: int) {
    id in db.rows && db.rows[id].status == Scheduled && db.rows[id].runAt <= now
  }

  /** No schedule comes back to waiting, so only creations can add to those that wait. */
  lemma WaitingAfter(db: Db, c: Change)
    requires CanChange(db, c)
    ensures Waiting(Changed(db, c)) == (if c.Create? then Waiting(db) + {c.id} else if From(c.move) == Scheduled then Waiting(db) - {c.id} else Waiting(db))
  {
  }

  class SchedulerService {
    var db: Db

    /** How many more schedules the others will create: any finite number. */
    var creations: nat

    /** Every send this Studio has made, in order. */
    var sent: seq<Sending>

    constructor (creations: nat)
      ensures db == Store(map[], []) && Inv(db) && sent == [] && this.creations == creations
    {
      db, sent, this.creations := Store(map[], []), [], creations;
    }

    ghost function Left(): nat
      reads this
    {
      |Waiting(db)| + creations
    }

    /** Whatever the other callers and Studios do; nobody else draws the same id. */
    method Others(drawn: Option<Id>)
      requires Inv(db)
      modifies `db, `creations
      ensures Evolves(Next, old(db), db) && Inv(db) && Left() <= old(Left())
      ensures Left() == old(Left()) ==> Waiting(old(db)) <= Waiting(db)
      ensures drawn.Some? && drawn.value !in old(db).rows ==> drawn.value !in db.rows
    {
      hide Inv;
      EvolvesNot(Next, db);
      var n: int := *;
      var i := 0;
      while i < n
        invariant Evolves(Next, old(db), db) && Left() <= old(Left())
        invariant Left() == old(Left()) ==> Waiting(old(db)) <= Waiting(db)
        invariant drawn.Some? && drawn.value !in old(db).rows ==> drawn.value !in db.rows
      {
        var c: Change := *;
        if CanChange(db, c) && (c.Create? ==> creations > 0 && drawn != Some(c.id)) {
          EvolvesNext(Next, old(db), db, c);
          WaitingAfter(db, c);
          db := Changed(db, c);
          if c.Create? { creations := creations - 1; }
        }
        i := i + 1;
      }
      EvolvesExtends(old(db), db);
    }

    method Commit(ghost before: Db, c: Change)
      requires CanChange(db, c) && Evolves(Next, before, db) && Inv(before)
      modifies `db, `creations
      ensures Evolves(Next, before, db) && Inv(db) && Made(Next, CanChange, before, c, db)
      ensures !c.Create? ==> if From(c.move) == Scheduled then Left() < old(Left()) else Left() <= old(Left())
    {
      hide Inv;
      EvolvesNext(Next, before, db, c);
      WaitingAfter(db, c);
      db := Changed(db, c);
      ghost var done := db;
      EvolvesExtends(before, db);
      Others(None);
      EvolvesOn(Next, before, done, db);
      EvolvesExtends(before, db);
    }

    /** A new schedule, under an id that is drawn for it; a blank text or a time that is no date is refused. */
    method Create(task: Task, runAt: Option<int>, drawn: Id) returns (r: Result<Id, Error>)
      requires Inv(db) && drawn !in db.rows
      modifies `db, `creations
      ensures Evolves(Next, old(db), db) && Inv(db)
      ensures var blank := JsText.IsBlank(task.petId) || JsText.IsBlank(task.channelId) || JsText.IsBlank(task.request);
              r.Err? <==> blank || runAt.None?
      ensures r.Err? ==> db == old(db)
      ensures r.Ok? ==> r.value == drawn && drawn in db.rows && db.rows[drawn].runAt == runAt.value && Keeps(db.rows[drawn].task, task)
      ensures r.Ok? ==> exists kept :: Made(Next, CanChange, old(db), Change.Create(drawn, kept, runAt.value), db)
    {
      hide Inv;
      EvolvesNot(Next, db);
      var kept := Trimmed(task);
      TrimmedKeeps(task);
      if kept.petId == [] || kept.channelId == [] || kept.request == [] { return Err(EmptyText); }
      if runAt.None? { return Err(NoDate); }
      hide Trimmed; hide Keeps; hide JsText.IsBlank;
      Others(Some(drawn));
      var c := Change.Create(drawn, kept, runAt.value);
      Commit(old(db), c);
      CreatedStays(old(db), c, db);
      r := Ok(drawn);
    }

    /** The earliest schedule that is due, if any. */
    method EarliestDue(now: int) returns (due: Option<Id>)
      ensures due.None? ==> forall id :: id in db.rows && db.rows[id].status == Scheduled ==> db.rows[id].runAt > now
      ensures due.Some? ==> First(db, due.value, now)
    {
      var left := set id | id in db.rows && Due(db, id, now);
      due := None;
      while left != {}
        invariant forall id :: id in left ==> Due(db, id, now)
        invariant due.Some? ==> Due(db, due.value, now)
        invariant forall id :: Due(db, id, now) && id !in left ==> due.Some? && db.rows[due.value].runAt <= db.rows[id].runAt
      {
        var id :| id in left;
        left := left - {id};
        if due.None? || db.rows[id].runAt < db.rows[due.value].runAt { due := Some(id); }
      }
    }

    /**
     The claim loop. It ends however the other Studios interfere, as long as they create
     only finitely many schedules meanwhile: each lost race is a schedule that waits no more.
     What it claims was the earliest of the schedules due when it looked.
     */
    method ClaimDue(now: int) returns (claimed: Option<Id>)
      requires Inv(db)
      modifies `db, `creations
      ensures Evolves(Next, old(db), db) && Inv(db)
      ensures claimed.Some? ==> Made(Next, CanChange, old(db), Transition(claimed.value, Claim), db) && Left() < old(Left())
      ensures claimed.Some? ==> exists m :: Evolves(Next, old(db), m) && Evolves(Next, m, db) && First(m, claimed.value, now)
      ensures claimed.None? ==> Left() <= old(Left()) && NothingDue(old(db), now, db)
    {
      hide Inv; hide First;
      EvolvesNot(Next, db);
      while true
        invariant Evolves(Next, old(db), db) && Inv(db) && Left() <= old(Left())
        decreases Left()
      {
        var due := EarliestDue(now);
        if due.None? {
          EvolvesNot(Next, db);
          return None;
        }
        var c := Transition(due.value, Claim);
        ghost var was := db;
        FirstWaits(was, due.value, now);
        Others(None);
        EvolvesOn(Next, old(db), was, db);
        if CanChange(db, c) {
          Commit(was, c);
          MadeLater(Next, CanChange, old(db), was, c, db);
          EvolvesOn(Next, old(db), was, db);
          return Some(due.value);
        }
        assert due.value !in Waiting(db);
      }
    }

    /** A guarded outcome, which then stands for good; or at some moment the schedule was not in the status it needs. */
    method TransitionTo(id: Id, m: Move) returns (ok: bool)
      requires Inv(db) && !m.Claim?
      modifies `db, `creations
      ensures Evolves(Next, old(db), db) && Inv(db) && Left() <= old(Left())
      ensures if ok then Made(Next, CanChange, old(db), Transition(id, m), db) else Refused(Next, CanChange, old(db), Transition(id, m), db)
      ensures ok ==> id in db.rows && Reached(db.rows[id], m)
    {
      hide Inv; hide Reached;
      EvolvesNot(Next, db);
      Others(None);
      EvolvesNot(Next, db);
      if id !in db.rows || db.rows[id].status != From(m) { return false; }
      ghost var looked := db;
      Others(None);
      EvolvesOn(Next, old(db), looked, db);
      EvolvesNot(Next, db);
      if !CanChange(db, Transition(id, m)) { return false; }
      Commit(old(db), Transition(id, m));
      MadeStays(old(db), id, m, db);
      ok := true;
    }

    /** One turn of the poll: the earliest due schedule is claimed, sent with its own task, and concluded. */
    method PollOnce(now: int, answer: Sending -> Outcome) returns (due: Option<Id>, ok: bool)
      requires Inv(db)
      modifies this
      ensures Evolves(Next, old(db), db) && Inv(db)
      ensures due.None? ==> ok && sent == old(sent) && NothingDue(old(db), now, db)
      ensures due.Some? ==> Left() < old(Left()) && !Past(old(db), due.value) && Past(db, due.value)
      ensures due.Some? ==> |sent| == |old(sent)| + 1 && old(sent) <= sent && Asked(db, due.value, sent[|sent| - 1])
      ensures due.Some? && ok ==> Ended(db, due.value, answer)
    {
      hide Inv; hide Past; hide Ends;
      ok := true;
      due := ClaimDue(now);
      if due.None? { return; }
      var id := due.value;
      ClaimedOnce(old(db), id, db);
      MadeStays(old(db), id, Claim, db);
      ghost var sending := db;
      var send := Sending(id, db.rows[id].task);
      AskedNow(db, id);
      sent := sent + [send];
      ok := Conclude(id, answer(send));
      PastKept(sending, db);
      AskedLater(sending, db, id, send);
      EvolvesOn(Next, old(db), sending, db);
    }

    /**
     The poll loop: claim what is due by the clock of that moment, send it, record the
     outcome, until nothing is due, the Plugin stops after some number of turns, or an
     outcome can no longer be recorded. It sends exactly what it claims, in that order and with the task of the row;
     nothing is claimed twice; and every schedule but a last one that could not be recorded
     ends with the receipt of its send or as failed.
     */
    method Poll(turns: nat, clock: nat -> int, answer: Sending -> Outcome) returns (claimed: seq<Id>, ok: bool)
      requires Inv(db)
      modifies this
      ensures Evolves(Next, old(db), db) && Inv(db)
      ensures |sent| == |old(sent)| + |claimed| && old(sent) <= sent
      ensures Polled(old(db), db, claimed, sent[|old(sent)|..], answer, if ok then |claimed| else |claimed| - 1)
      ensures |claimed| <= turns && (ok && |claimed| < turns ==> NothingDue(old(db), clock(|claimed|), db))
    {
      hide Inv; hide Polled; hide Past; hide Asked; hide Ended; hide NothingDue;
      EvolvesNot(Next, db);
      claimed, ok := [], true;
      PolledNothing(db, answer);
      assert sent[|old(sent)|..] == [];
      while |claimed| < turns
        invariant Evolves(Next, old(db), db) && Inv(db) && ok && |claimed| <= turns
        invariant |sent| == |old(sent)| + |claimed| && old(sent) <= sent
        invariant Polled(old(db), db, claimed, sent[|old(sent)|..], answer, |claimed|)
        decreases Left()
      {
        ghost var was, sends := db, sent[|old(sent)|..];
        var due;
        due, ok := PollOnce(clock(|claimed|), answer);
        if due.None? {
          NothingDueLater(old(db), was, clock(|claimed|), db);
          PolledLater(old(db), was, db, claimed, sends, answer);
          EvolvesOn(Next, old(db), was, db);
          return;
        }
        PolledNext(old(db), was, db, claimed, sends, answer, due.value, sent[|sent| - 1], ok);
        EvolvesOn(Next, old(db), was, db);
        assert sent[|old(sent)|..] == sends + [sent[|sent| - 1]];
        claimed := claimed + [due.value];
        if !ok { return; }
      }
    }

    /**
     What follows the send: the receipt it brought is stored; if it brought none, or that
     is refused, the failure. Only if the failure is refused as well, the poll ends.
     */
    method Conclude(id: Id, outcome: Outcome) returns (ok: bool)
      requires Inv(db)
      modifies `db, `creations
      ensures Evolves(Next, old(db), db) && Inv(db) && Left() <= old(Left())
      ensures ok ==> id in db.rows && Ends(db.rows[id], outcome)
      ensures ok ==> (outcome.Delivered? && Made(Next, CanChange, old(db), Transition(id, MarkDispatched(Some(outcome.receipt))), db))
                     || Made(Next, CanChange, old(db), Transition(id, Fail), db)
      ensures outcome.Delivered? && !(ok && Made(Next, CanChange, old(db), Transition(id, MarkDispatched(Some(outcome.receipt))), db)) ==>
                Refused(Next, CanChange, old(db), Transition(id, MarkDispatched(Some(outcome.receipt))), db)
      ensures !ok ==> Refused(Next, CanChange, old(db), Transition(id, Fail), db)
    {
      hide Inv;
      EvolvesNot(Next, db);
      if outcome.Delivered? {
        ok := TransitionTo(id, MarkDispatched(Some(outcome.receipt)));
        if ok { return; }
      }
      ghost var refused := db;
      ok := TransitionTo(id, Fail);
      EvolvesOn(Next, old(db), refused, db);
      if outcome.Delivered? { RefusedBefore(Next, CanChange, old(db), refused, Transition(id, MarkDispatched(Some(outcome.receipt))), db); }
      if ok { MadeLater(Next, CanChange, old(db), refused, Transition(id, Fail), db); } else { RefusedLater(Next, CanChange, old(db), refused, Transition(id, Fail), db); }
    }
  }

  /** At some moment in between there was no schedule due at this time. */
  ghost predicate NothingDue(d: Db, now: int, e: Db) {
    exists m :: Evolves(Next, d, m) && Evolves(Next, m, e) && forall id :: id in m.rows && m.rows[id].status == Scheduled ==> m.rows[id].runAt > now
  }

  lemma NothingDueLater(d: Db, m: Db, now: int, e: Db)
    requires Evolves(Next, d, m) && NothingDue(m, now, e)
    ensures NothingDue(d, now, e)
  {
    hide Evolves;
    var n :| Evolves(Next, m, n) && Evolves(Next, n, e) && forall id :: id in n.rows && n.rows[id].status == Scheduled ==> n.rows[id].runAt > now;
    EvolvesOn(Next, d, m, n);
  }

  /** Due, and none that is due comes before it. */
  ghost predicate First(db: Db, id: Id, now: int) {
    && id in db.rows && db.rows[id].status == Scheduled && db.rows[id].runAt <= now
    && forall other :: other in db.rows && db.rows[other].status == Scheduled ==> db.rows[id].runAt <= db.rows[other].runAt
  }

  lemma FirstWaits(db: Db, id: Id, now: int)
    requires First(db, id, now)
    ensures id in Waiting(db)
  {
  }

  /** A send was of this schedule, with the task of its row. */
  ghost predicate Asked(db: Db, id: Id, sending: Sending) {
    id in db.rows && sending == Sending(id, db.rows[id].task)
  }

  /** It has ended by what its send was answered. */
  ghost predicate Ended(db: Db, id: Id, answer: Sending -> Outcome) {
    id in db.rows && Ends(db.rows[id], answer(Sending(id, db.rows[id].task)))
  }

  lemma AskedNow(db: Db, id: Id)
    requires id in db.rows
    ensures Asked(db, id, Sending(id, db.rows[id].task))
  {
  }

  lemma EndedNow(db: Db, id: Id, sending: Sending, answer: Sending -> Outcome)
    requires Asked(db, id, sending) && Ends(db.rows[id], answer(sending))
    ensures Ended(db, id, answer)
  {
  }

  lemma AskedLater(d: Db, e: Db, id: Id, sending: Sending)
    requires Evolves(Next, d, e) && Asked(d, id, sending)
    ensures Asked(e, id, sending)
  {
    EvolvesExtends(d, e);
    assert Stays(d.rows[id], e.rows[id]);
  }

  lemma EndedLater(d: Db, e: Db, id: Id, answer: Sending -> Outcome)
    requires Evolves(Next, d, e) && Ended(d, id, answer)
    ensures Ended(e, id, answer)
  {
    EvolvesExtends(d, e);
    assert Stays(d.rows[id], e.rows[id]);
  }

  /**
   What a poll has done: each schedule claimed was waiting before and is not after, none
   comes twice, each was sent with the task of its row, and the first n have ended by what
   their sends were answered.
   */
  ghost predicate Polled(before: Db, db: Db, claimed: seq<Id>, sends: seq<Sending>, answer: Sending -> Outcome, n: int) {
    && |sends| == |claimed| && n <= |claimed|
    && (forall i, j :: 0 <= i < j < |claimed| ==> claimed[i] != claimed[j])
    && (forall k :: 0 <= k < |claimed| ==> !Past(before, claimed[k]) && Past(db, claimed[k]) && Asked(db, claimed[k], sends[k]))
    && (forall k :: 0 <= k < n ==> Ended(db, claimed[k], answer))
  }

  lemma PolledNothing(db: Db, answer: Sending -> Outcome)
    ensures Polled(db, db, [], [], answer, 0)
  {
  }

  lemma PolledLater(before: Db, d: Db, e: Db, claimed: seq<Id>, sends: seq<Sending>, answer: Sending -> Outcome)
    requires Polled(before, d, claimed, sends, answer, |claimed|) && Evolves(Next, d, e)
    ensures Polled(before, e, claimed, sends, answer, |claimed|)
  {
    hide Past; hide Asked; hide Ended; hide Evolves;
    PastKept(d, e);
    forall k | 0 <= k < |claimed| ensures Past(e, claimed[k]) && Asked(e, claimed[k], sends[k]) && Ended(e, claimed[k], answer) {
      AskedLater(d, e, claimed[k], sends[k]);
      EndedLater(d, e, claimed[k], answer);
    }
  }

  lemma PolledNext(before: Db, d: Db, e: Db, claimed: seq<Id>, sends: seq<Sending>, answer: Sending -> Outcome, id: Id, send: Sending, ok: bool)
    requires Polled(before, d, claimed, sends, answer, |claimed|) && Evolves(Next, before, d) && Evolves(Next, d, e)
    requires !Past(d, id) && Past(e, id) && Asked(e, id, send) && (ok ==> Ended(e, id, answer))
    ensures Polled(before, e, claimed + [id], sends + [send], answer, if ok then |claimed| + 1 else |claimed|)
  {
    PolledLater(before, d, e, claimed, sends, answer);
    hide Past; hide Asked; hide Ended; hide Evolves;
    PastKept(before, d);
  }

  lemma PastKept(d: Db, e: Db)
    requires Evolves(Next, d, e)
    ensures forall id :: Past(d, id) ==> Past(e, id)
  {
    EvolvesExtends(d, e);
  }

  /** A claim takes a schedule that was still waiting, and after it the schedule waits no more. */
  lemma ClaimedOnce(d: Db, id: Id, e: Db)
    requires Made(Next, CanChange, d, Transition(id, Claim), e)
    ensures !Past(d, id) && Past(e, id)
  {
    var m :| Evolves(Next, d, m) && CanChange(m, Transition(id, Claim)) && Evolves(Next, Changed(m, Transition(id, Claim)), e);
    PastKept(d, m);
    ClaimIsPast(m, id);
    PastKept(Changed(m, Transition(id, Claim)), e);
  }
}

/**
 From a delivery to its Pet and back: the Trigger Plugin claims or retries a delivery,
 the Channel Plugin runs it through the Studio's dispatch, and the receipt is stored.
 Any number of Studio lifetimes share the database; each handler belongs to one.
 */
module TriggerDispatch {
  import opened History
  import opened Options
  import Core = StudioCore
  import Service = TriggerService

  /** What one handler of a delivery is about to do; `a` is the admission its dispatch shares. */
  datatype Stage =
    | Ready | Waiting(a: Core.Invocation) | Confirming(a: Core.Invocation) | Accepting(a: Core.Invocation) | Failing | Over

  datatype Handler = Handler(studio: nat, delivery: Service.Id, stage: Stage)

  datatype System = System(studios: map<nat, Core.State>, db: Service.Db, handlers: map<nat, Handler>)

  /** Every attempt at a delivery dispatches to the Pet it was stored with, under its own id. */
  function KeyOf(row: Service.Row, id: Service.Id): Core.Key
    requires row.input.Some?
  {
    Core.Key("channel", row.input.value.petId, "trigger:" + id)
  }

  datatype Action =
    | Open(studio: nat, plugins: nat)
    | Run(studio: nat, core: Core.Action)
    | Receive(h: nat, studio: nat, insert: Service.Change)
    | Retry(h: nat, studio: nat, id: Service.Id)
    | Record(insert: Service.Change)
    | Recover(id: Service.Id)
    | Handle(h: nat, step: Step)

  datatype Step =
    | Abandon | Dispatch(drawn: Core.Invocation) | Resolve | Confirm(ok: bool) | Accept(thrown: bool) | Refused | Fail(stored: bool)

  predicate Dispatchable(db: Service.Db, c: Service.Change) {
    c.Insert? && c.input.Some? && Service.CanChange(db, c)
  }

  function Acceptance(x: Handler): Service.Change
    requires x.stage.Accepting?
  {
    Service.Transition(x.delivery, Service.Accept(Some(Service.Receipt(x.studio, x.stage.a))))
  }

  function Failure(x: Handler): Service.Change {
    Service.Transition(x.delivery, Service.Fail)
  }

  predicate Sound(s: System, x: Handler) {
    x.studio in s.studios && x.delivery in s.db.rows && s.db.rows[x.delivery].input.Some?
  }

  function Reservation(s: System, x: Handler, drawn: Core.Invocation): Core.Action
    requires Sound(s, x)
  {
    Core.Reserve(drawn, Some(KeyOf(s.db.rows[x.delivery], x.delivery)))
  }

  /** A dispatch joins the admission recorded under its key, or reserves a new one. */
  predicate Joins(s: System, x: Handler)
    requires Sound(s, x)
  {
    KeyOf(s.db.rows[x.delivery], x.delivery) in s.studios[x.studio].records
  }

  predicate CanHandle(s: System, h: nat, step: Step) {
    h in s.handlers && Sound(s, s.handlers[h]) &&
    var x := s.handlers[h];
    match step
    case Abandon => x.stage == Ready
    case Dispatch(drawn) =>
      x.stage == Ready && !s.studios[x.studio].stopped
      && (!Joins(s, x) ==> Core.CanDispatch(s.studios[x.studio], Reservation(s, x, drawn)))
    case Resolve =>
      x.stage.Waiting? && x.stage.a in s.studios[x.studio].admissions
      && (s.studios[x.studio].admissions[x.stage.a].phase == Core.Fulfilled || s.studios[x.studio].admissions[x.stage.a].phase == Core.Rejected)
    case Confirm(_) => x.stage.Confirming?
    case Accept(_) => x.stage.Accepting? && Service.CanChange(s.db, Acceptance(x))
    case Refused => x.stage.Accepting?
    case Fail(stored) => x.stage == Failing && (stored ==> Service.CanChange(s.db, Failure(x)))
  }

  function Moved(s: System, h: nat, step: Step): Stage
    requires CanHandle(s, h, step)
  {
    var x := s.handlers[h];
    match step
    case Abandon => Failing
    case Dispatch(drawn) =>
      Waiting(if Joins(s, x) then s.studios[x.studio].records[KeyOf(s.db.rows[x.delivery], x.delivery)] else drawn)
    case Resolve => if s.studios[x.studio].admissions[x.stage.a].phase == Core.Fulfilled then Confirming(x.stage.a) else Failing
    case Confirm(ok) => if ok then Accepting(x.stage.a) else Failing
    case Accept(thrown) => if thrown then Failing else Over
    case Refused => Failing
    case Fail(_) => Over
  }

  /** What a handler's step does: its dispatch may reserve, and its outcome goes to the database. */
  function Handled(s: System, h: nat, step: Step): System
    requires CanHandle(s, h, step)
  {
    var x := s.handlers[h];
    var t := s.(handlers := s.handlers[h := x.(stage := Moved(s, h, step))]);
    match step
    case Dispatch(drawn) =>
      if Joins(s, x) then t
      else t.(studios := s.studios[x.studio := Core.Dispatched(s.studios[x.studio], Reservation(s, x, drawn))])
    case Accept(_) => t.(db := Service.Changed(s.db, Acceptance(x)))
    case Fail(stored) => if stored then t.(db := Service.Changed(s.db, Failure(x))) else t
    case _ => t
  }

  predicate CanDo(s: System, action: Action) {
    match action
    case Open(studio, _) => studio !in s.studios
    case Run(studio, core) => studio in s.studios && Core.CanDo(s.studios[studio], core)
    case Receive(h, studio, insert) => h !in s.handlers && studio in s.studios && Dispatchable(s.db, insert)
    case Retry(h, studio, id) => h !in s.handlers && studio in s.studios && Service.CanChange(s.db, Service.Transition(id, Service.Retry))
    case Record(insert) => insert.Insert? && Service.CanChange(s.db, insert)
    case Recover(id) => Service.CanChange(s.db, Service.Transition(id, Service.Recover))
    case Handle(h, step) => CanHandle(s, h, step)
  }

  function NewStudio(plugins: nat): Core.State {
    Core.State(plugins, map[], map[], false, false, false, [], Core.Idle, Core.NotCalled, Core.NoTeardown, false, [], [], 0)
  }

  function Do(s: System, action: Action): System
    requires CanDo(s, action)
  {
    match action
    case Open(studio, plugins) => s.(studios := s.studios[studio := NewStudio(plugins)])
    case Run(studio, core) => s.(studios := s.studios[studio := Core.Do(s.studios[studio], core)])
    case Receive(h, studio, insert) =>
      s.(db := Service.Changed(s.db, insert), handlers := s.handlers[h := Handler(studio, insert.id, Ready)])
    case Retry(h, studio, id) =>
      s.(db := Service.Changed(s.db, Service.Transition(id, Service.Retry)), handlers := s.handlers[h := Handler(studio, id, Ready)])
    case Record(insert) => s.(db := Service.Changed(s.db, insert))
    case Recover(id) => s.(db := Service.Changed(s.db, Service.Transition(id, Service.Recover)))
    case Handle(h, step) => Handled(s, h, step)
  }

  /** An action that cannot happen leaves everything as it is. */
  function Next(s: System, a: Action): System {
    if CanDo(s, a) then Do(s, a) else s
  }

  // ------------------------------------------------------------- invariant

  ghost predicate StudiosOk(studios: map<nat, Core.State>) {
    forall i :: i in studios ==> Core.Inv(studios[i])
  }

  /** An admission of a Studio under a key. */
  predicate Under(studios: map<nat, Core.State>, i: nat, a: Core.Invocation, key: Core.Key) {
    i in studios && a in studios[i].admissions && studios[i].admissions[a].key == Some(key)
  }

  predicate Delivered(studios: map<nat, Core.State>, i: nat, a: Core.Invocation, key: Core.Key) {
    Under(studios, i, a, key) && studios[i].admissions[a].phase == Core.Fulfilled
  }

  /** The Pet accepted it. */
  predicate Ported(studios: map<nat, Core.State>, i: nat, a: Core.Invocation, key: Core.Key) {
    Under(studios, i, a, key) && studios[i].admissions[a].ported
  }

  /** What a handler holds is an admission under its delivery's key. */
  ghost predicate Holds(s: System, x: Handler)
    requires Sound(s, x)
  {
    var key := KeyOf(s.db.rows[x.delivery], x.delivery);
    match x.stage
    case Waiting(a) => Under(s.studios, x.studio, a, key)
    case Confirming(a) => Delivered(s.studios, x.studio, a, key)
    case Accepting(a) => Delivered(s.studios, x.studio, a, key)
    case _ => true
  }

  ghost predicate HandlersOk(s: System) {
    forall h :: h in s.handlers ==> Sound(s, s.handlers[h]) && Holds(s, s.handlers[h])
  }

  /** An accepted delivery stores the receipt of an admission under its own key. */
  predicate Settled(studios: map<nat, Core.State>, row: Service.Row, id: Service.Id) {
    row.status == Service.AcceptedStatus ==>
      && row.input.Some? && row.receipt.Some?
      && Delivered(studios, row.receipt.value.studio, row.receipt.value.invocation, KeyOf(row, id))
  }

  ghost predicate RowsOk(s: System) {
    forall id :: id in s.db.rows ==> Settled(s.studios, s.db.rows[id], id)
  }

  ghost predicate Inv(s: System) {
    StudiosOk(s.studios) && HandlersOk(s) && RowsOk(s) && Service.Inv(s.db)
  }

  /** Admissions keep their key, and a fulfilled one stays fulfilled. */
  ghost predicate Grows(studios: map<nat, Core.State>, later: map<nat, Core.State>) {
    && (forall i :: i in studios ==> i in later)
    && (forall i, a, key :: Under(studios, i, a, key) ==> Under(later, i, a, key))
    && (forall i, a, key :: Delivered(studios, i, a, key) ==> Delivered(later, i, a, key))
  }

  /** Rows keep their input, and an accepted row does not change. */
  ghost predicate Keeps(d: Service.Db, e: Service.Db) {
    forall id :: id in d.rows ==>
      id in e.rows && e.rows[id].input == d.rows[id].input
      && (d.rows[id].status == Service.AcceptedStatus ==> e.rows[id] == d.rows[id])
  }

  lemma StudiosGrow(studios: map<nat, Core.State>, i: nat, action: Core.Action)
    requires StudiosOk(studios) && i in studios && Core.CanDo(studios[i], action)
    ensures Grows(studios, studios[i := Core.Do(studios[i], action)])
    ensures StudiosOk(studios[i := Core.Do(studios[i], action)])
  {
    hide Core.CanDo; hide Core.Do; hide Core.Inv;
    Core.DoKeepsInv(studios[i], action);
    forall a | a in studios[i].admissions { Core.AdmissionGrows(studios[i], action, a); }
  }

  // ------------------------------------------------- what each action keeps

  lemma ChangeKeeps(d: Service.Db, c: Service.Change)
    requires Service.CanChange(d, c) && Service.Inv(d)
    ensures Keeps(d, Service.Changed(d, c)) && Service.Inv(Service.Changed(d, c))
  {
    Service.ToldStays(d, c);
    Service.OneEachStays(d, c);
    hide Service.Taken; hide Service.Inv;
  }

  lemma HandlerStays(s: System, t: System, x: Handler)
    requires Sound(s, x) && Holds(s, x) && Grows(s.studios, t.studios) && Keeps(s.db, t.db)
    ensures Sound(t, x) && Holds(t, x)
  {
    hide Under; hide Delivered;
  }

  /** Handlers that do not move themselves are still right, whatever else happens. */
  lemma HandlersStay(s: System, t: System)
    requires HandlersOk(s) && Grows(s.studios, t.studios) && Keeps(s.db, t.db)
    ensures forall h :: h in s.handlers ==> Sound(t, s.handlers[h]) && Holds(t, s.handlers[h])
  {
    hide Grows; hide Keeps; hide Holds; hide Sound;
    forall h | h in s.handlers ensures Sound(t, s.handlers[h]) && Holds(t, s.handlers[h]) {
      HandlerStays(s, t, s.handlers[h]);
    }
  }

  lemma SettledStays(studios: map<nat, Core.State>, later: map<nat, Core.State>, row: Service.Row, id: Service.Id)
    requires Settled(studios, row, id) && Grows(studios, later)
    ensures Settled(later, row, id)
  {
    hide Under; hide Delivered;
  }

  /** Accepting is the only change that has to bring its own receipt. */
  lemma RowsStay(s: System, t: System)
    requires RowsOk(s) && Grows(s.studios, t.studios) && t.db == s.db
    ensures RowsOk(t)
  {
    hide Grows; hide Settled;
    forall id | id in s.db.rows { SettledStays(s.studios, t.studios, s.db.rows[id], id); }
  }

  lemma RowsChanged(studios: map<nat, Core.State>, d: Service.Db, c: Service.Change, id: Service.Id)
    requires Service.CanChange(d, c) && id in Service.Changed(d, c).rows
    requires id in d.rows ==> Settled(studios, d.rows[id], id)
    requires c.Transition? && c.move.Accept? ==>
               c.move.receipt.Some? && d.rows[c.id].input.Some?
               && Delivered(studios, c.move.receipt.value.studio, c.move.receipt.value.invocation, KeyOf(d.rows[c.id], c.id))
    ensures Settled(studios, Service.Changed(d, c).rows[id], id)
  {
    hide Service.Taken; hide Delivered;
  }

  lemma NothingGrows(studios: map<nat, Core.State>)
    ensures Grows(studios, studios)
  {
  }

  /** The receipt that an acceptance brings is one under the delivery's own key. */
  predicate Proper(s: System, c: Service.Change) {
    c.Transition? && c.move.Accept? ==>
      && c.move.receipt.Some? && c.id in s.db.rows && s.db.rows[c.id].input.Some?
      && Delivered(s.studios, c.move.receipt.value.studio, c.move.receipt.value.invocation, KeyOf(s.db.rows[c.id], c.id))
  }

  lemma RowsAllChanged(s: System, c: Service.Change)
    requires RowsOk(s) && Service.CanChange(s.db, c) && Proper(s, c)
    ensures RowsOk(s.(db := Service.Changed(s.db, c)))
  {
    var e := Service.Changed(s.db, c);
    forall id | id in e.rows ensures Settled(s.studios, e.rows[id], id) { RowsChanged(s.studios, s.db, c, id); }
    hide Settled; hide Service.CanChange; hide Service.Changed; hide Proper;
  }

  lemma DbKeepsInv(s: System, c: Service.Change)
    requires Inv(s) && Service.CanChange(s.db, c) && Proper(s, c)
    ensures Inv(s.(db := Service.Changed(s.db, c)))
  {
    var t := s.(db := Service.Changed(s.db, c));
    ChangeKeeps(s.db, c);
    NothingGrows(s.studios);
    HandlersStay(s, t);
    RowsAllChanged(s, c);
    hide Service.Inv; hide StudiosOk; hide Grows; hide Keeps; hide Sound; hide Holds; hide RowsOk;
    hide Service.CanChange; hide Service.Changed; hide Proper;
  }

  /** A handler that begins or moves on. */
  lemma HandlerKeepsInv(s: System, h: nat, x: Handler)
    requires Inv(s) && Sound(s, x) && Holds(s, x)
    ensures Inv(s.(handlers := s.handlers[h := x]))
  {
    hide Service.Inv; hide StudiosOk; hide KeyOf; hide Under; hide Delivered; hide Settled;
  }

  /** A Studio moves: what handlers and rows rest on stays. */
  lemma StudiosKeepInv(s: System, later: map<nat, Core.State>)
    requires Inv(s) && Grows(s.studios, later) && StudiosOk(later)
    ensures Inv(s.(studios := later))
  {
    var t := s.(studios := later);
    HandlersStay(s, t);
    RowsStay(s, t);
    hide Service.Inv; hide StudiosOk; hide Grows; hide Keeps; hide Sound; hide Settled; hide Holds;
  }

  lemma OpenKeepsInv(s: System, i: nat, plugins: nat)
    requires Inv(s) && i !in s.studios
    ensures Inv(s.(studios := s.studios[i := NewStudio(plugins)]))
  {
    assert Core.Inv(NewStudio(plugins)) by { Core.InitInv(NewStudio(plugins)); }
    hide Core.Inv;
    StudiosKeepInv(s, s.studios[i := NewStudio(plugins)]);
  }

  /** What a dispatch gets to share is recorded under its own key. */
  lemma JoinedUnder(s: System, x: Handler)
    requires Inv(s) && Sound(s, x) && Joins(s, x)
    ensures Under(s.studios, x.studio, s.studios[x.studio].records[KeyOf(s.db.rows[x.delivery], x.delivery)], KeyOf(s.db.rows[x.delivery], x.delivery))
  {
    assert Core.Inv(s.studios[x.studio]);
    hide HandlersOk; hide RowsOk; hide Service.Inv; hide Core.Single; hide Core.Ordered;
  }

  lemma DispatchKeepsInv(s: System, h: nat, drawn: Core.Invocation)
    requires Inv(s) && CanHandle(s, h, Dispatch(drawn))
    ensures Inv(Handled(s, h, Dispatch(drawn)))
  {
    hide Inv; hide Holds; hide Core.Inv; hide Core.Dispatched; hide Core.CanDispatch;
    var x := s.handlers[h];
    var key := KeyOf(s.db.rows[x.delivery], x.delivery);
    if Joins(s, x) {
      JoinedUnder(s, x);
      WaitingHolds(s, x, s.studios[x.studio].records[key]);
      HandlerKeepsInv(s, h, x.(stage := Waiting(s.studios[x.studio].records[key])));
    } else {
      var action := Reservation(s, x, drawn);
      var later := s.studios[x.studio := Core.Dispatched(s.studios[x.studio], action)];
      var t := s.(studios := later);
      ReservedUnder(s.studios[x.studio], drawn, key);
      StudioActs(s, x.studio, action);
      WaitingHolds(t, x, drawn);
      HandlerKeepsInv(t, h, x.(stage := Waiting(drawn)));
    }
  }

  lemma ReservedUnder(s: Core.State, a: Core.Invocation, key: Core.Key)
    requires Core.CanDispatch(s, Core.Reserve(a, Some(key)))
    ensures var t := Core.Dispatched(s, Core.Reserve(a, Some(key))); a in t.admissions && t.admissions[a].key == Some(key)
    ensures Core.CanDo(s, Core.Reserve(a, Some(key)))
         && Core.Do(s, Core.Reserve(a, Some(key))) == Core.Dispatched(s, Core.Reserve(a, Some(key)))
  {
  }

  lemma WaitingHolds(s: System, x: Handler, a: Core.Invocation)
    requires Sound(s, x) && Under(s.studios, x.studio, a, KeyOf(s.db.rows[x.delivery], x.delivery))
    ensures Sound(s, x.(stage := Waiting(a))) && Holds(s, x.(stage := Waiting(a)))
  {
  }

  lemma StudioActs(s: System, i: nat, action: Core.Action)
    requires Inv(s) && i in s.studios && Core.CanDo(s.studios[i], action)
    ensures Inv(s.(studios := s.studios[i := Core.Do(s.studios[i], action)]))
  {
    StudiosGrow(s.studios, i, action);
    StudiosKeepInv(s, s.studios[i := Core.Do(s.studios[i], action)]);
  }

  lemma StepKeepsInv(s: System, h: nat, step: Step)
    requires Inv(s) && CanHandle(s, h, step)
    ensures Inv(Handled(s, h, step))
  {
    hide StudiosOk; hide RowsOk; hide Service.Inv; hide Service.CanChange; hide Service.Changed;
    var x := s.handlers[h];
    assert Holds(s, x);
    match step
    case Dispatch(drawn) => DispatchKeepsInv(s, h, drawn);
    case Accept(_) =>
      DbKeepsInv(s, Acceptance(x));
      HandlerKeepsInv(s.(db := Service.Changed(s.db, Acceptance(x))), h, x.(stage := Moved(s, h, step)));
    case Fail(stored) =>
      if stored {
        DbKeepsInv(s, Failure(x));
        HandlerKeepsInv(s.(db := Service.Changed(s.db, Failure(x))), h, x.(stage := Over));
      } else {
        HandlerKeepsInv(s, h, x.(stage := Over));
      }
    case _ => HandlerKeepsInv(s, h, x.(stage := Moved(s, h, step)));
  }

  lemma BegunKeepsInv(s: System, c: Service.Change, h: nat, i: nat)
    requires Inv(s) && Service.CanChange(s.db, c) && i in s.studios
    requires c.Insert? ==> c.input.Some?
    requires c.Transition? ==> c.move == Service.Retry
    ensures Inv(s.(db := Service.Changed(s.db, c), handlers := s.handlers[h := Handler(i, c.id, Ready)]))
  {
    DbKeepsInv(s, c);
    var t := s.(db := Service.Changed(s.db, c));
    assert Sound(t, Handler(i, c.id, Ready)) && Holds(t, Handler(i, c.id, Ready));
    hide Inv;
    HandlerKeepsInv(t, h, Handler(i, c.id, Ready));
  }

  lemma DoKeepsInv(s: System, action: Action)
    requires CanDo(s, action) && Inv(s)
    ensures Inv(Do(s, action))
  {
    hide Inv; hide Service.Changed; hide Handled; hide CanHandle; hide Core.Do; hide NewStudio;
    match action
    case Open(studio, plugins) => OpenKeepsInv(s, studio, plugins);
    case Run(studio, core) => StudioActs(s, studio, core);
    case Receive(h, studio, insert) => BegunKeepsInv(s, insert, h, studio);
    case Retry(h, studio, id) => BegunKeepsInv(s, Service.Transition(id, Service.Retry), h, studio);
    case Record(insert) => DbKeepsInv(s, insert);
    case Recover(id) => DbKeepsInv(s, Service.Transition(id, Service.Recover));
    case Handle(h, step) => StepKeepsInv(s, h, step);
  }

  lemma RunKeepsInv(s: System, actions: seq<Action>)
    requires Inv(s)
    ensures Inv(After(Next, s, actions))
  {
    hide Inv; hide CanDo; hide Do;
    forall x, a | Inv(x) ensures Inv(Next(x, a)) {
      if CanDo(x, a) { DoKeepsInv(x, a); }
    }
    AfterKeeps(Next, Inv, s, actions);
  }

  const Empty := System(map[], Store(map[], []), map[])

  lemma Reached(actions: seq<Action>)
    ensures Inv(After(Next, Empty, actions))
  {
    assert Inv(Empty);
    hide Inv; hide Next;
    RunKeepsInv(Empty, actions);
  }

  // -------------------------------------------------------- main theorems

  /**
   Within one Studio lifetime a delivery reaches its Pet at most once, through whatever
   failures, recoveries, retries and shutdowns: also when the session could not be
   confirmed after the Pet had accepted, or the acceptance could not be stored.
   */
  lemma OneDispatchPerDelivery(actions: seq<Action>, t: System, id: Service.Id, i: nat, a: Core.Invocation, b: Core.Invocation)
    requires t == After(Next, Empty, actions) && id in t.db.rows && t.db.rows[id].input.Some?
    requires Ported(t.studios, i, a, KeyOf(t.db.rows[id], id)) && Ported(t.studios, i, b, KeyOf(t.db.rows[id], id))
    ensures a == b
  {
    Reached(actions);
    assert Core.Inv(t.studios[i]);
    hide HandlersOk; hide RowsOk; hide Service.Inv; hide Core.Ordered; hide Core.Reserved;
  }

  /** An accepted delivery stores the invocation its Pet accepted, and in that lifetime there is no other. */
  lemma AcceptedStoresItsDispatch(actions: seq<Action>, t: System, id: Service.Id)
    requires t == After(Next, Empty, actions) && id in t.db.rows && t.db.rows[id].status == Service.AcceptedStatus
    ensures var row := t.db.rows[id];
            && row.input.Some? && row.receipt.Some?
            && Delivered(t.studios, row.receipt.value.studio, row.receipt.value.invocation, KeyOf(row, id))
            && (forall b :: Ported(t.studios, row.receipt.value.studio, b, KeyOf(row, id)) <==> b == row.receipt.value.invocation)
  {
    Reached(actions);
    var row := t.db.rows[id];
    assert Settled(t.studios, row, id);
    var i, a := row.receipt.value.studio, row.receipt.value.invocation;
    assert Core.Inv(t.studios[i]);
    hide Inv; hide HandlersOk; hide RowsOk; hide StudiosOk; hide Service.Inv; hide Core.Inv; hide Next; hide After;
    forall b | Ported(t.studios, i, b, KeyOf(row, id)) ensures b == a {
      OnlyOne(t.studios[i], a, b);
    }
  }

  lemma OnlyOne(s: Core.State, a: Core.Invocation, b: Core.Invocation)
    requires Core.Inv(s) && a in s.admissions && b in s.admissions
    requires s.admissions[a].phase == Core.Fulfilled && s.admissions[b].ported
    requires s.admissions[a].key.Some? && s.admissions[a].key == s.admissions[b].key
    ensures a == b
  {
    hide Core.Ordered;
  }

  /** A retry in the lifetime that dispatched already can only come back with that same invocation. */
  lemma RetryFindsTheDispatch(actions: seq<Action>, t: System, h: nat, b: Core.Invocation)
    requires t == After(Next, Empty, actions) && h in t.handlers
    requires t.handlers[h].stage.Confirming? || t.handlers[h].stage.Accepting?
    requires t.handlers[h].delivery in t.db.rows && t.db.rows[t.handlers[h].delivery].input.Some?
    requires var x := t.handlers[h]; Ported(t.studios, x.studio, b, KeyOf(t.db.rows[x.delivery], x.delivery))
    ensures t.handlers[h].stage.a == b
  {
    Reached(actions);
    var x := t.handlers[h];
    assert Sound(t, x) && Holds(t, x) && Core.Inv(t.studios[x.studio]);
    hide HandlersOk; hide RowsOk; hide Service.Inv; hide StudiosOk;
    OnlyOne(t.studios[x.studio], x.stage.a, b);
  }

  /** Deliveries do not share a key. */
  lemma KeysDiffer(x: Service.Row, c: Service.Id, y: Service.Row, d: Service.Id)
    requires x.input.Some? && y.input.Some? && c != d
    ensures KeyOf(x, c) != KeyOf(y, d)
  {
    assert ("trigger:" + c)[8..] == c;
    assert ("trigger:" + d)[8..] == d;
  }

  // --------------------------------------------------------- whole runs

  lemma Goes(s: System, m: System, a: Action)
    requires Evolves(Next, s, m) && CanDo(m, a)
    ensures Evolves(Next, s, Do(m, a))
  {
    EvolvesNext(Next, s, m, a);
    hide CanDo; hide Do; hide Evolves;
  }

  /** A Studio in which an admission is fulfilled and recorded under its key. */
  function WithAdmission(c: Core.State, a: Core.Invocation, key: Core.Key): Core.State {
    c.(admissions := c.admissions[a := Core.Admission(Some(key), Core.Fulfilled, true)], records := c.records[key := a])
  }

  /** The first dispatch of a delivery, which the Pet accepts. */
  lemma Dispatches(from: System, s: System, h: nat, a: Core.Invocation)
    requires Evolves(Next, from, s) && h in s.handlers && Sound(s, s.handlers[h]) && s.handlers[h].stage == Ready
    requires var x := s.handlers[h]; var c := s.studios[x.studio];
             Core.Inv(c) && !c.stopped && a !in c.admissions && !Joins(s, x)
    ensures var x := s.handlers[h];
            Evolves(Next, from, s.(studios := s.studios[x.studio := WithAdmission(s.studios[x.studio], a, KeyOf(s.db.rows[x.delivery], x.delivery))],
                                   handlers := s.handlers[h := x.(stage := Confirming(a))]))
  {
    hide Evolves; hide Core.Inv;
    var x := s.handlers[h];
    var i, c, key := x.studio, s.studios[x.studio], KeyOf(s.db.rows[x.delivery], x.delivery);
    hide KeyOf;
    Core.DispatchRuns(c, a, Some(key));
    var reserved := Core.Next(c, Core.Reserve(a, Some(key)));
    var accepted := Core.Next(reserved, Core.PortAccept(a));
    var waiting := x.(stage := Waiting(a));
    Goes(from, s, Handle(h, Dispatch(a)));
    var m := s.(studios := s.studios[i := reserved], handlers := s.handlers[h := waiting]);
    Goes(from, m, Run(i, Core.PortAccept(a)));
    var n := s.(studios := s.studios[i := accepted], handlers := s.handlers[h := waiting]);
    assert m.studios[i := accepted] == n.studios;
    Goes(from, n, Run(i, Core.Notify(a)));
    var done := s.(studios := s.studios[i := WithAdmission(c, a, key)], handlers := s.handlers[h := waiting]);
    assert n.studios[i := WithAdmission(c, a, key)] == done.studios;
    Goes(from, done, Handle(h, Resolve));
    assert s.handlers[h := waiting][h := x.(stage := Confirming(a))] == s.handlers[h := x.(stage := Confirming(a))];
  }

  /** The session is confirmed, and the receipt stored. */
  lemma Accepts(from: System, s: System, h: nat)
    requires Evolves(Next, from, s) && h in s.handlers && Sound(s, s.handlers[h]) && s.handlers[h].stage.Confirming?
    requires s.db.rows[s.handlers[h].delivery].status == Service.Dispatching
    ensures var x := s.handlers[h]; var row := s.db.rows[x.delivery];
            exists t :: Evolves(Next, from, t) && t.studios == s.studios && t.handlers == s.handlers[h := x.(stage := Over)]
              && t.db.rows == s.db.rows[x.delivery := row.(status := Service.AcceptedStatus, receipt := Some(Service.Receipt(x.studio, x.stage.a)))]
  {
    hide Evolves; hide KeyOf;
    var x := s.handlers[h];
    Goes(from, s, Handle(h, Confirm(true)));
    var m := s.(handlers := s.handlers[h := x.(stage := Accepting(x.stage.a))]);
    Goes(from, m, Handle(h, Accept(false)));
    var t := Do(m, Handle(h, Accept(false)));
    assert m.handlers[h := x.(stage := Over)] == s.handlers[h := x.(stage := Over)];
  }

  /** The session cannot be confirmed although the Pet has accepted, and the delivery is marked failed. */
  lemma Fails(from: System, s: System, h: nat)
    requires Evolves(Next, from, s) && h in s.handlers && Sound(s, s.handlers[h]) && s.handlers[h].stage.Confirming?
    requires s.db.rows[s.handlers[h].delivery].status == Service.Dispatching
    ensures var x := s.handlers[h]; var row := s.db.rows[x.delivery];
            exists t :: Evolves(Next, from, t) && t.studios == s.studios && t.handlers == s.handlers[h := x.(stage := Over)]
              && t.db.rows == s.db.rows[x.delivery := row.(status := Service.FailedStatus)]
  {
    hide Evolves; hide KeyOf;
    var x := s.handlers[h];
    Goes(from, s, Handle(h, Confirm(false)));
    var m := s.(handlers := s.handlers[h := x.(stage := Failing)]);
    Goes(from, m, Handle(h, Fail(true)));
    var t := Do(m, Handle(h, Fail(true)));
    assert m.handlers[h := x.(stage := Over)] == s.handlers[h := x.(stage := Over)];
  }

  /** A handler that cannot even dispatch marks its delivery failed, and the Studios hear nothing of it. */
  lemma FailsBefore(from: System, s: System, h: nat)
    requires Evolves(Next, from, s) && h in s.handlers && Sound(s, s.handlers[h]) && s.handlers[h].stage == Ready
    requires s.db.rows[s.handlers[h].delivery].status == Service.Dispatching
    ensures var x := s.handlers[h]; var row := s.db.rows[x.delivery];
            exists t :: Evolves(Next, from, t) && t.studios == s.studios && t.handlers == s.handlers[h := x.(stage := Over)]
              && t.db.rows == s.db.rows[x.delivery := row.(status := Service.FailedStatus)]
  {
    hide Evolves; hide KeyOf;
    var x := s.handlers[h];
    Goes(from, s, Handle(h, Abandon));
    var m := s.(handlers := s.handlers[h := x.(stage := Failing)]);
    Goes(from, m, Handle(h, Fail(true)));
    var t := Do(m, Handle(h, Fail(true)));
    assert m.handlers[h := x.(stage := Over)] == s.handlers[h := x.(stage := Over)];
  }

  /** A retry in the same lifetime shares the admission that is recorded there. */
  lemma Rejoins(from: System, s: System, h: nat, i: nat, id: Service.Id)
    requires Evolves(Next, from, s) && h !in s.handlers && i in s.studios && !s.studios[i].stopped
    requires id in s.db.rows && s.db.rows[id].status == Service.FailedStatus && s.db.rows[id].input.Some?
    requires var c := s.studios[i]; var key := KeyOf(s.db.rows[id], id);
             key in c.records && c.records[key] in c.admissions && c.admissions[c.records[key]].phase == Core.Fulfilled
    ensures exists t :: Evolves(Next, from, t) && t.studios == s.studios
              && t.handlers == s.handlers[h := Handler(i, id, Confirming(s.studios[i].records[KeyOf(s.db.rows[id], id)]))]
              && t.db.rows == s.db.rows[id := s.db.rows[id].(status := Service.Dispatching)]
  {
    hide Evolves;
    var key := KeyOf(s.db.rows[id], id);
    var a := s.studios[i].records[key];
    Goes(from, s, Retry(h, i, id));
    var m := Do(s, Retry(h, i, id));
    assert KeyOf(m.db.rows[id], id) == key;
    hide KeyOf;
    Goes(from, m, Handle(h, Dispatch(a)));
    var n := m.(handlers := m.handlers[h := Handler(i, id, Waiting(a))]);
    Goes(from, n, Handle(h, Resolve));
    var t := n.(handlers := n.handlers[h := Handler(i, id, Confirming(a))]);
    assert t.handlers == s.handlers[h := Handler(i, id, Confirming(a))];
  }

  /** What a new delivery needs to be run: an open Studio, and ids that are still free. */
  ghost predicate Free(s: System, i: nat, id: Service.Id, trigger: string, key: string, input: Service.Input, h: nat, a: Core.Invocation) {
    && i in s.studios && Core.Inv(s.studios[i]) && !s.studios[i].stopped && a !in s.studios[i].admissions
    && Core.Key("channel", input.petId, "trigger:" + id) !in s.studios[i].records
    && h !in s.handlers && Service.CanChange(s.db, Service.Insert(id, trigger, key, Some(input), Service.Received))
  }

  lemma Receives(s: System, i: nat, id: Service.Id, trigger: string, key: string, input: Service.Input, h: nat, a: Core.Invocation) returns (t: System)
    requires Free(s, i, id, trigger, key, input, h, a)
    ensures Evolves(Next, s, t) && t.studios == s.studios[i := WithAdmission(s.studios[i], a, Core.Key("channel", input.petId, "trigger:" + id))]
    ensures t.handlers == s.handlers[h := Handler(i, id, Confirming(a))]
    ensures t.db.rows == s.db.rows[id := Service.Row(trigger, key, Some(input), Service.Dispatching, None)]
  {
    hide Evolves; hide WithAdmission; hide Core.Inv;
    EvolvesNot(Next, s);
    var insert := Service.Insert(id, trigger, key, Some(input), Service.Received);
    Goes(s, s, Receive(h, i, insert));
    var m := Do(s, Receive(h, i, insert));
    assert m.studios == s.studios && m.handlers[h] == Handler(i, id, Ready) && m.db.rows[id] == Service.Row(trigger, key, Some(input), Service.Dispatching, None);
    Dispatches(s, m, h, a);
    t := m.(studios := s.studios[i := WithAdmission(s.studios[i], a, Core.Key("channel", input.petId, "trigger:" + id))],
            handlers := m.handlers[h := Handler(i, id, Confirming(a))]);
    assert t.handlers == s.handlers[h := Handler(i, id, Confirming(a))];
  }

  /** A delivery that nothing disturbs reaches its own Pet, under its own key, and is accepted with the receipt of that dispatch. */
  lemma Delivers(s: System, i: nat, id: Service.Id, trigger: string, key: string, input: Service.Input, h: nat, a: Core.Invocation) returns (t: System)
    requires Free(s, i, id, trigger, key, input, h, a)
    ensures Evolves(Next, s, t) && Ported(t.studios, i, a, Core.Key("channel", input.petId, "trigger:" + id))
    ensures id in t.db.rows && t.db.rows[id] == Service.Row(trigger, key, Some(input), Service.AcceptedStatus, Some(Service.Receipt(i, a)))
  {
    hide Evolves; hide Free; hide KeyOf; hide Next;
    var m := Receives(s, i, id, trigger, key, input, h, a);
    Accepts(s, m, h);
    t :| Evolves(Next, s, t) && t.studios == m.studios
         && t.db.rows == m.db.rows[id := m.db.rows[id].(status := Service.AcceptedStatus, receipt := Some(Service.Receipt(i, a)))];
  }

  /**
   One whose session cannot be confirmed after the Pet has accepted it fails; retried in
   the same lifetime it is accepted with that same dispatch, and the Pet has no second one.
   */
  lemma RetryDelivers(s: System, i: nat, id: Service.Id, trigger: string, key: string, input: Service.Input, h: nat, a: Core.Invocation, again: nat)
    returns (failed: System, t: System)
    requires Free(s, i, id, trigger, key, input, h, a) && again !in s.handlers && again != h
    ensures Evolves(Next, s, failed) && id in failed.db.rows && failed.db.rows[id].status == Service.FailedStatus
    ensures Evolves(Next, failed, t) && t.studios == failed.studios
    ensures id in t.db.rows && t.db.rows[id] == Service.Row(trigger, key, Some(input), Service.AcceptedStatus, Some(Service.Receipt(i, a)))
  {
    var m := Receives(s, i, id, trigger, key, input, h, a);
    hide Evolves; hide Next;
    Fails(s, m, h);
    failed :| Evolves(Next, s, failed) && failed.studios == m.studios && failed.handlers == m.handlers[h := Handler(i, id, Over)]
              && failed.db.rows == m.db.rows[id := m.db.rows[id].(status := Service.FailedStatus)];
    EvolvesNot(Next, failed);
    Rejoins(failed, failed, again, i, id);
    var retried :| Evolves(Next, failed, retried) && retried.studios == failed.studios
              && retried.handlers == failed.handlers[again := Handler(i, id, Confirming(a))]
              && retried.db.rows == failed.db.rows[id := failed.db.rows[id].(status := Service.Dispatching)];
    Accepts(failed, retried, again);
    t :| Evolves(Next, failed, t) && t.studios == retried.studios
         && t.db.rows == retried.db.rows[id := retried.db.rows[id].(status := Service.AcceptedStatus, receipt := Some(Service.Receipt(i, a)))];
  }
}

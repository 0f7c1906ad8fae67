/**
 Trigger deliveries in a database that several Studios share. A transaction is one
 change; between the transactions of one call, any changes of others may happen.
 */
module TriggerService {
  import opened History
  import opened Options
  import JsText

  /** Why a call throws: a name or text is blank, the delivery stands elsewhere, it kept no input, or its row is there already. */
  datatype Error = EmptyText | WrongStatus | NoInput | AlreadyExists

  type Id = string

  datatype Status = Dispatching | AcceptedStatus | FailedStatus

  datatype Kind = Received | Redelivered | Retried | Accepted | Failed | Recovered

  datatype Input = Input(petId: string, request: string)

  /** An invocation id is unique over all Studio lifetimes; the pair says which lifetime drew it. */
  datatype Receipt = Receipt(studio: nat, invocation: nat)

  datatype Row = Row(trigger: string, key: string, input: Option<Input>, status: Status, receipt: Option<Receipt>)

  type Db = Store<Row, Kind>

  datatype Move = Accept(receipt: Option<Receipt>) | Fail | Retry | Recover

  datatype Change =
    | Insert(id: Id, trigger: string, key: string, input: Option<Input>, first: Kind)
    | Transition(id: Id, move: Move)

  function From(m: Move): Status { if m.Retry? then FailedStatus else Dispatching }

  function To(m: Move): Status {
    match m
    case Accept(_) => AcceptedStatus
    case Retry => Dispatching
    case _ => FailedStatus
  }

  function KindOf(m: Move): Kind {
    match m
    case Accept(_) => Accepted
    case Fail => Failed
    case Retry => Retried
    case Recover => Recovered
  }

  predicate Taken(db: Db, trigger: string, key: string) {
    exists d :: d in db.rows && db.rows[d].trigger == trigger && db.rows[d].key == key
  }

  /** The stores' promises: one row per trigger and key, and an update only from the expected status. */
  predicate CanChange(db: Db, c: Change) {
    match c
    case Insert(id, trigger, key, _, first) =>
      id !in db.rows && !Taken(db, trigger, key) && (first == Received || first == Redelivered)
    case Transition(id, m) =>
      id in db.rows && db.rows[id].status == From(m) && (m.Retry? ==> db.rows[id].input.Some?)
  }

  /** The row changes and its event is appended together. */
  function Changed(db: Db, c: Change): Db
    requires CanChange(db, c)
  {
    match c
    case Insert(id, trigger, key, input, first) =>
      Store(db.rows[id := Row(trigger, key, input, Dispatching, None)], db.log + [Event(id, first)])
    case Transition(id, m) =>
      var row := db.rows[id];
      var receipt := if m.Accept? && m.receipt.Some? then m.receipt else row.receipt;
      Store(db.rows[id := row.(status := To(m), receipt := receipt)], db.log + [Event(id, KindOf(m))])
  }

  /** A change that its store refuses leaves everything as it is. */
  function Next(db: Db, c: Change): Db {
    if CanChange(db, c) then Changed(db, c) else db
  }

  // ------------------------------------------------- the word of a delivery

  /** The status a delivery's events leave it in, if they can follow each other. */
  function Track(word: seq<Kind>): Option<Status> {
    if word == [] then None
    else if |word| == 1 then (if word[0] == Received || word[0] == Redelivered then Some(Dispatching) else None)
    else
      match (Track(word[..|word| - 1]), word[|word| - 1])
      case (Some(Dispatching), Accepted) => Some(AcceptedStatus)
      case (Some(Dispatching), Failed) => Some(FailedStatus)
      case (Some(Dispatching), Recovered) => Some(FailedStatus)
      case (Some(FailedStatus), Retried) => Some(Dispatching)
      case _ => None
  }

  predicate Fell(k: Kind) { k == Failed || k == Recovered }

  /** (received | redelivered) ((failed | recovered) retried)* [accepted | failed | recovered] */
  predicate Shape(word: seq<Kind>) {
    && word != []
    && (word[0] == Received || word[0] == Redelivered)
    && (forall i :: 0 < i < |word| && i % 2 == 0 ==> word[i] == Retried)
    && (forall i :: 0 < i < |word| && i % 2 == 1 ==> Fell(word[i]) || (word[i] == Accepted && i == |word| - 1))
  }

  function Leaves(word: seq<Kind>): Status
    requires word != []
  {
    var last := word[|word| - 1];
    if last == Accepted then AcceptedStatus else if Fell(last) then FailedStatus else Dispatching
  }

  /** Following the statuses event by event and reading the word as a whole agree. */
  lemma {:induction false} TrackIsShape(word: seq<Kind>)
    ensures Track(word).Some? <==> Shape(word)
    ensures Track(word).Some? ==> Track(word).value == Leaves(word)
    ensures Track(word).Some? ==> (Track(word).value == Dispatching <==> |word| % 2 == 1)
  {
    if |word| > 1 {
      var front := word[..|word| - 1];
      TrackIsShape(front);
      assert forall i :: 0 <= i < |front| ==> front[i] == word[i];
    }
  }

  /** A row's status is where its events leave it, and only rows have events. */
  ghost predicate Told(db: Db) {
    && (forall d :: d in db.rows ==> Track(Word(db.log, d)) == Some(db.rows[d].status))
    && (forall d :: d !in db.rows ==> Word(db.log, d) == [])
  }

  ghost predicate OneEach(db: Db) {
    forall d, e :: d in db.rows && e in db.rows && SameKey(db.rows[d], db.rows[e]) ==> d == e
  }

  predicate SameKey(x: Row, y: Row) {
    x.trigger == y.trigger && x.key == y.key
  }

  ghost predicate Inv(db: Db) {
    Told(db) && OneEach(db)
  }

  function EventOf(c: Change): Event<Kind> {
    match c
    case Insert(id, _, _, _, first) => Event(id, first)
    case Transition(id, m) => Event(id, KindOf(m))
  }

  lemma WordChanged(db: Db, c: Change, d: Id)
    requires CanChange(db, c)
    ensures Word(Changed(db, c).log, d) == Word(db.log, d) + if c.id == d then [EventOf(c).kind] else []
  {
    WordNext(db.log, EventOf(c), d);
  }

  lemma TrackMoved(word: seq<Kind>, m: Move)
    requires Track(word) == Some(From(m))
    ensures Track(word + [KindOf(m)]) == Some(To(m))
  {
    assert (word + [KindOf(m)])[..|word|] == word;
  }

  lemma ToldStays(db: Db, c: Change)
    requires CanChange(db, c) && Told(db)
    ensures Told(Changed(db, c))
  {
    var t := Changed(db, c);
    hide Word; hide Track; hide Taken;
    forall d ensures if d in t.rows then Track(Word(t.log, d)) == Some(t.rows[d].status) else Word(t.log, d) == [] {
      WordChanged(db, c, d);
      if d == c.id {
        if c.Transition? {
          TrackMoved(Word(db.log, d), c.move);
        } else {
          assert Word(db.log, d) == [];
          TrackFirst(c.first);
        }
      } else {
        assert Word(db.log, d) + [] == Word(db.log, d);
      }
    }
  }

  lemma TrackFirst(k: Kind)
    requires k == Received || k == Redelivered
    ensures Track([] + [k]) == Some(Dispatching)
  {
  }

  lemma OneEachStays(db: Db, c: Change)
    requires CanChange(db, c) && OneEach(db)
    ensures OneEach(Changed(db, c))
  {
  }

  // ---------------------------------------------------------- every history

  /** What stays of a row: the delivery's own data, and all of it once accepted. */
  predicate Stays(x: Row, y: Row) {
    SameKey(x, y) && x.input == y.input && (x.status == AcceptedStatus ==> y == x)
  }

  lemma ExtendsNext(d: Db, e: Db, c: Change)
    requires Extends(Stays, d, e) && CanChange(e, c)
    ensures Extends(Stays, d, Changed(e, c))
  {
  }

  lemma EvolvesExtends(d: Db, e: Db)
    requires Evolves(Next, d, e)
    ensures Extends(Stays, d, e) && (Inv(d) ==> Inv(e))
  {
    var kept := (x: Db) => Extends(Stays, d, x) && (Inv(d) ==> Inv(x));
    forall x, c | kept(x) ensures kept(Next(x, c)) {
      hide Extends; hide Told; hide OneEach; hide CanChange; hide Changed;
      if CanChange(x, c) {
        ExtendsNext(d, x, c);
        if Inv(d) { ToldStays(x, c); OneEachStays(x, c); }
      }
    }
    EvolvesKeeps(Next, kept, d, e);
  }

  /** In every history of an empty database, however many Studios write it. */
  lemma EveryDeliveryIsAWord(changes: seq<Change>, id: Id)
    requires id in After(Next, Store(map[], []), changes).rows
    ensures var db := After(Next, Store(map[], []), changes);
            && Shape(Word(db.log, id))
            && db.rows[id].status == Leaves(Word(db.log, id))
            && forall other :: other in db.rows && SameKey(db.rows[other], db.rows[id]) ==> other == id
  {
    var db := After(Next, Store(map[], []), changes);
    EmptyInv();
    hide Inv; hide Next; hide Word; hide Track; hide Shape; hide Leaves;
    EvolvesExtends(Store(map[], []), db);
    Stands(db, id);
    TrackIsShape(Word(db.log, id));
  }

  lemma EmptyInv()
    ensures Inv(Store(map[], []))
  {
  }

  /** The invariant, as one row has it. */
  lemma Stands(db: Db, id: Id)
    requires Inv(db) && id in db.rows
    ensures Track(Word(db.log, id)) == Some(db.rows[id].status) && Word(db.log, id) != []
    ensures forall other :: other in db.rows && SameKey(db.rows[other], db.rows[id]) ==> other == id
  {
    hide Word;
  }

  // ------------------------------------------------------------ the service

  function Rejection(db: Db, id: Id, m: Move): Error {
    if id in db.rows && db.rows[id].status == From(m) then NoInput else WrongStatus
  }

  /** The id drawn for a redelivery makes its key new. */
  function RedeliveryKey(key: string, id: Id): string {
    key + ":redelivery:" + id
  }

  class TriggerService {
    var db: Db

    constructor ()
      ensures db == Store(map[], [])
    {
      db := Store(map[], []);
    }

    /** Whatever the other callers and Studios do; nobody else draws this call's random id. */
    method Others(mine: Id)
      modifies this
      ensures Evolves(Next, old(db), db)
      ensures mine !in old(db).rows ==> mine !in db.rows
    {
      EvolvesNot(Next, db);
      var n: int := *;
      var i := 0;
      while i < n
        invariant Evolves(Next, old(db), db)
        invariant mine !in old(db).rows ==> mine !in db.rows
      {
        var c: Change := *;
        if CanChange(db, c) && !(c.Insert? && c.id == mine) {
          EvolvesNext(Next, old(db), db, c);
          db := Changed(db, c);
        }
        i := i + 1;
      }
    }

    method Commit(ghost before: Db, c: Change, mine: Id)
      requires CanChange(db, c) && Evolves(Next, before, db)
      modifies this
      ensures Evolves(Next, Changed(old(db), c), db) && Evolves(Next, before, db) && Made(Next, CanChange, before, c, db)
    {
      EvolvesNext(Next, before, db, c);
      db := Changed(db, c);
      label committed:
      Others(mine);
      EvolvesOn(Next, before, old@committed(db), db);
    }

    method FindDelivery(trigger: string, key: string) returns (found: Option<Id>)
      ensures found.Some? ==> found.value in db.rows && db.rows[found.value].trigger == trigger && db.rows[found.value].key == key
      ensures found.None? ==> !Taken(db, trigger, key)
    {
      if Taken(db, trigger, key) {
        var d :| d in db.rows && db.rows[d].trigger == trigger && db.rows[d].key == key;
        found := Some(d);
      } else {
        found := None;
      }
    }

    /**
     A delivery is recorded once per trigger and key. The caller who is told it is no
     duplicate is the one whose own delivery was recorded as received.
     */
    method Claim(triggerId: string, idempotencyKey: string, input: Option<Input>, drawn: Id)
      returns (r: Result<(Id, bool), Error>)
      requires Inv(db) && drawn !in db.rows
      modifies this
      ensures Evolves(Next, old(db), db) && Inv(db)
      ensures JsText.IsBlank(triggerId) || JsText.IsBlank(idempotencyKey) ==> r == Err(EmptyText) && db == old(db)
      ensures r.Err? ==> JsText.IsBlank(triggerId) || JsText.IsBlank(idempotencyKey)
                         || (input.Some? && (JsText.IsBlank(input.value.petId) || JsText.IsBlank(input.value.request)))
      ensures r.Ok? ==> r.value.0 in db.rows
                        && JsText.Trims(triggerId, db.rows[r.value.0].trigger) && JsText.Trims(idempotencyKey, db.rows[r.value.0].key)
      ensures r.Ok? ==> (r.value.1 <==> r.value.0 != drawn)
      ensures r.Ok? && !r.value.1 ==> Keeps(db.rows[drawn], input)
      ensures r.Ok? && !r.value.1 && input.Some? ==> !JsText.IsBlank(input.value.petId) && !JsText.IsBlank(input.value.request)
      ensures r.Ok? && !r.value.1 ==>
                Made(Next, CanChange, old(db), Insert(drawn, JsText.Trim(triggerId), JsText.Trim(idempotencyKey), Trimmed(input), Received), db)
      ensures r.Err? || r.value.1 ==> drawn !in db.rows
    {
      EvolvesNot(Next, db);
      var trigger, key := JsText.Trim(triggerId), JsText.Trim(idempotencyKey);
      JsText.TrimTrims(triggerId);
      JsText.TrimTrims(idempotencyKey);
      hide JsText.Trims;
      if trigger == [] || key == [] { return Err(EmptyText); }
      Others(drawn);
      EvolvesExtends(old(db), db);
      var existing := FindDelivery(trigger, key);
      if existing.Some? { return Ok((existing.value, true)); }
      if input.Some? && (JsText.IsBlank(input.value.petId) || JsText.IsBlank(input.value.request)) { return Err(EmptyText); }
      label looked:
      Others(drawn);
      EvolvesOn(Next, old(db), old@looked(db), db);
      EvolvesExtends(old(db), db);
      var insert := Insert(drawn, trigger, key, Trimmed(input), Received);
      if CanChange(db, insert) {
        Commit(old(db), insert, drawn);
        EvolvesExtends(old(db), db);
        InsertedStays(old(db), insert, db);
        TrimmedKeeps(db.rows[drawn], input);
        return Ok((drawn, false));
      }
      label refused:
      Others(drawn);
      EvolvesOn(Next, old(db), old@refused(db), db);
      EvolvesExtends(old@refused(db), db);
      existing := FindDelivery(trigger, key);
      r := Ok((existing.value, true));
    }

    /** One guarded change of status: it happens from the expected status or not at all. */
    method TransitionTo(id: Id, m: Move) returns (r: Result<Id, Error>)
      requires Inv(db)
      modifies this
      ensures Evolves(Next, old(db), db) && Inv(db)
      ensures if r.Ok? then Made(Next, CanChange, old(db), Transition(id, m), db) else Refused(Next, CanChange, old(db), Transition(id, m), db)
      ensures old(id in db.rows && db.rows[id].status == AcceptedStatus) ==> r.Err?
      ensures r.Ok? && m.Accept? ==> id in db.rows && db.rows[id].status == AcceptedStatus && (m.receipt.Some? ==> db.rows[id].receipt == m.receipt)
      ensures r.Err? && !m.Retry? ==> r.error == WrongStatus
    {
      EvolvesNot(Next, db);
      Others("");
      EvolvesExtends(old(db), db);
      EvolvesNot(Next, db);
      if !CanChange(db, Transition(id, m)) { return Err(Rejection(db, id, m)); }
      label looked:
      Others("");
      EvolvesOn(Next, old(db), old@looked(db), db);
      EvolvesExtends(old(db), db);
      EvolvesNot(Next, db);
      if !CanChange(db, Transition(id, m)) { return Err(Rejection(db, id, m)); }
      Commit(old(db), Transition(id, m), "");
      EvolvesExtends(old(db), db);
      if m.Accept? { AcceptedStays(old(db), id, m.receipt, db); }
      r := Ok(id);
    }

    /** A new delivery for an accepted one, which stays as it is. */
    method Redeliver(id: Id, drawn: Id) returns (r: Result<Id, Error>)
      requires Inv(db) && drawn !in db.rows
      modifies this
      ensures Evolves(Next, old(db), db) && Inv(db)
      ensures r.Ok? ==> r.value == drawn && id in db.rows && db.rows[id].status == AcceptedStatus && db.rows[id].input.Some?
      ensures r.Ok? ==> Made(Next, CanChange, old(db), Insert(drawn, db.rows[id].trigger, RedeliveryKey(db.rows[id].key, drawn), db.rows[id].input, Redelivered), db)
      ensures r.Ok? ==> drawn in db.rows && db.rows[drawn].trigger == db.rows[id].trigger && db.rows[drawn].input == db.rows[id].input
      ensures old(id in db.rows && db.rows[id].status == AcceptedStatus && db.rows[id].input.Some?) ==> r.Ok? || r == Err(AlreadyExists)
      ensures r.Err? ==> drawn !in db.rows
    {
      hide Inv; hide Extends; hide Evolves; hide Made; hide Taken;
      EvolvesNot(Next, db);
      Others(drawn);
      EvolvesExtends(old(db), db);
      AcceptedRests(old(db), id, db);
      if id !in db.rows || db.rows[id].status != AcceptedStatus { return Err(WrongStatus); }
      if db.rows[id].input.None? { return Err(NoInput); }
      var current := db.rows[id];
      ghost var looked := db;
      Others(drawn);
      EvolvesOn(Next, old(db), looked, db);
      EvolvesExtends(looked, db);
      AcceptedRests(looked, id, db);
      var insert := Insert(drawn, current.trigger, RedeliveryKey(current.key, drawn), current.input, Redelivered);
      if !CanChange(db, insert) { return Err(AlreadyExists); }
      ghost var ready := db;
      Commit(old(db), insert, drawn);
      EvolvesExtends(old(db), db);
      AcceptedRedelivered(ready, id, insert, db);
      InsertedStays(old(db), insert, db);
      r := Ok(drawn);
    }

    /** Mark one interrupted delivery failed, unless somebody has moved it since it was seen. */
    method RecoverOne(ghost seen: Db, id: Id)
      requires Inv(seen) && Evolves(Next, seen, db) && id in seen.rows && seen.rows[id].status == Dispatching
      modifies this
      ensures Evolves(Next, old(db), db) && Evolves(Next, seen, db) && |Word(db.log, id)| > |Word(seen.log, id)|
      ensures forall d :: |Word(db.log, d)| >= |Word(old(db).log, d)|
    {
      hide Word; hide Track; hide Evolves; hide Extends;
      EvolvesNot(Next, db);
      Others("");
      EvolvesOn(Next, seen, old(db), db);
      EvolvesExtends(seen, db);
      var c := Transition(id, Recover);
      if CanChange(db, c) {
        ghost var due := db;
        Commit(old(db), c, "");
        WordChanged(due, c, id);
        EvolvesExtends(Changed(due, c), db);
        WordsGrow(seen, due);
        WordsGrow(Changed(due, c), db);
      } else {
        StillThere(seen, db, id);
        MovedOn(seen, db, id);
      }
      EvolvesOn(Next, seen, old(db), db);
      EvolvesExtends(old(db), db);
      WordsGrow(old(db), db);
    }

    method RecoverEach(ghost seen: Db, listed: seq<Id>)
      requires Inv(seen) && seen == db
      requires forall d :: d in listed ==> d in seen.rows && seen.rows[d].status == Dispatching
      modifies this
      ensures Evolves(Next, seen, db)
      ensures forall d :: d in listed ==> |Word(db.log, d)| > |Word(seen.log, d)|
    {
      hide Word; hide Track; hide Evolves; hide Extends; hide Inv;
      EvolvesNot(Next, db);
      for i := 0 to |listed|
        invariant Evolves(Next, seen, db)
        invariant forall k :: 0 <= k < i ==> |Word(db.log, listed[k])| > |Word(seen.log, listed[k])|
      {
        RecoverOne(seen, listed[i]);
      }
    }

    /**
     The recovery loop. No delivery found dispatching stays as it was found: each one has
     since failed, here as recovered, or been moved by somebody else.
     */
    method RecoverInterrupted() returns (listed: seq<Id>, ghost seen: Db)
      requires Inv(db)
      modifies this
      ensures Evolves(Next, old(db), seen) && Evolves(Next, seen, db) && Inv(db)
      ensures forall d :: d in listed <==> d in seen.rows && seen.rows[d].status == Dispatching
      ensures forall d :: d in listed ==> |Word(db.log, d)| > |Word(seen.log, d)|
    {
      hide Word; hide Track; hide Evolves; hide Extends; hide Inv;
      Others("");
      EvolvesExtends(old(db), db);
      seen := db;
      listed := Listing(db);
      RecoverEach(seen, listed);
      EvolvesExtends(seen, db);
    }

    method Listing(db: Db) returns (listed: seq<Id>)
      ensures forall d :: d in listed <==> d in db.rows && db.rows[d].status == Dispatching
    {
      var left := set d | d in db.rows && db.rows[d].status == Dispatching;
      listed := [];
      while left != {}
        invariant forall d :: d in db.rows && db.rows[d].status == Dispatching <==> d in left || d in listed
      {
        var d :| d in left;
        left, listed := left - {d}, listed + [d];
      }
    }
  }

  function Trimmed(input: Option<Input>): Option<Input> {
    if input.None? then None else Some(Input(JsText.Trim(input.value.petId), JsText.Trim(input.value.request)))
  }

  /** A row has an input exactly when one was given: this Pet and this request, each without the white space around it. */
  ghost predicate Keeps(row: Row, input: Option<Input>) {
    if input.None? then row.input.None?
    else
      && row.input.Some?
      && JsText.Trims(input.value.petId, row.input.value.petId) && JsText.Trims(input.value.request, row.input.value.request)
  }

  lemma TrimmedKeeps(row: Row, input: Option<Input>)
    requires row.input == Trimmed(input)
    ensures Keeps(row, input)
  {
    if input.Some? {
      JsText.TrimTrims(input.value.petId);
      JsText.TrimTrims(input.value.request);
      hide JsText.Trims;
    }
  }

  lemma InsertedStays(d: Db, c: Change, e: Db)
    requires Made(Next, CanChange, d, c, e) && c.Insert?
    ensures c.id in e.rows && e.rows[c.id].trigger == c.trigger && e.rows[c.id].key == c.key && e.rows[c.id].input == c.input
  {
    var m :| Evolves(Next, d, m) && CanChange(m, c) && Evolves(Next, Changed(m, c), e);
    EvolvesExtends(Changed(m, c), e);
  }

  lemma AcceptedRests(d: Db, id: Id, e: Db)
    requires Evolves(Next, d, e)
    ensures id in d.rows && d.rows[id].status == AcceptedStatus ==> id in e.rows && e.rows[id] == d.rows[id]
  {
    EvolvesExtends(d, e);
    hide Inv;
  }

  /** An accepted row is as it was when its redelivery was inserted. */
  lemma AcceptedRedelivered(d: Db, id: Id, c: Change, e: Db)
    requires CanChange(d, c) && Evolves(Next, Changed(d, c), e) && c.Insert?
    requires id in d.rows && d.rows[id].status == AcceptedStatus
    ensures id in e.rows && e.rows[id] == d.rows[id]
  {
    EvolvesExtends(Changed(d, c), e);
    assert Stays(Changed(d, c).rows[id], e.rows[id]);
  }

  lemma AcceptedStays(d: Db, id: Id, receipt: Option<Receipt>, e: Db)
    requires Made(Next, CanChange, d, Transition(id, Accept(receipt)), e)
    ensures id in e.rows && e.rows[id].status == AcceptedStatus && (receipt.Some? ==> e.rows[id].receipt == receipt)
  {
    var m :| Evolves(Next, d, m) && CanChange(m, Transition(id, Accept(receipt)))
             && Evolves(Next, Next(m, Transition(id, Accept(receipt))), e);
    EvolvesExtends(Next(m, Transition(id, Accept(receipt))), e);
  }

  lemma WordsGrow(d: Db, e: Db)
    requires Extends(Stays, d, e)
    ensures forall id :: Word(d.log, id) <= Word(e.log, id)
  {
    forall id ensures Word(d.log, id) <= Word(e.log, id) {
      WordPrefix(d.log, e.log[|d.log|..], id);
      assert d.log + e.log[|d.log|..] == e.log;
    }
  }

  lemma StillThere(d: Db, e: Db, id: Id)
    requires Extends(Stays, d, e) && id in d.rows
    ensures id in e.rows
  {
  }

  lemma ProperPrefix<T>(a: seq<T>, b: seq<T>)
    requires a <= b && a != b
    ensures |a| < |b|
  {
    assert b[..|b|] == b;
  }

  /** A delivery that changed its status has had an event. */
  lemma MovedOn(d: Db, e: Db, id: Id)
    requires Inv(d) && Inv(e) && Extends(Stays, d, e) && id in d.rows && d.rows[id].status == Dispatching
    requires id in e.rows && e.rows[id].status != Dispatching
    ensures |Word(e.log, id)| > |Word(d.log, id)|
  {
    WordsGrow(d, e);
    var before, after := Word(d.log, id), Word(e.log, id);
    assert Track(before) != Track(after);
    ProperPrefix(before, after);
  }

  /** Of all the callers that claim one key, at most one is told it is no duplicate, and that delivery's history begins so. */
  lemma OneClaimIsFirst(d: Db, x: Change, e: Db, y: Change, f: Db)
    requires x.Insert? && y.Insert? && x.trigger == y.trigger && x.key == y.key
    requires Inv(d) && Made(Next, CanChange, d, x, f) && Inv(e) && Made(Next, CanChange, e, y, f)
    ensures x.id == y.id && Word(f.log, x.id) != [] && Word(f.log, x.id)[0] == x.first == y.first
  {
    var m :| Evolves(Next, d, m) && CanChange(m, x) && Evolves(Next, Changed(m, x), f);
    EvolvesExtends(d, m);
    MadeFirst(m, x, f);
    m :| Evolves(Next, e, m) && CanChange(m, y) && Evolves(Next, Changed(m, y), f);
    EvolvesExtends(e, m);
    MadeFirst(m, y, f);
  }

  lemma MadeFirst(m: Db, c: Change, f: Db)
    requires Inv(m) && CanChange(m, c) && c.Insert? && Evolves(Next, Changed(m, c), f)
    ensures Inv(f) && c.id in f.rows && f.rows[c.id].trigger == c.trigger && f.rows[c.id].key == c.key
    ensures Word(f.log, c.id) != [] && Word(f.log, c.id)[0] == c.first
  {
    ToldStays(m, c);
    OneEachStays(m, c);
    EvolvesExtends(Changed(m, c), f);
    WordChanged(m, c, c.id);
    WordsGrow(Changed(m, c), f);
    assert Word(Changed(m, c).log, c.id) == [c.first];
  }
}

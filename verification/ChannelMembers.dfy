/**
 The members of Channels: additions and removals run in transactions that lock their
 Channel, and what a transaction reads and what it writes are separate steps.
 */
module ChannelMembers {
  import opened History
  import opened Options

  datatype Kind = Human | Pet

  datatype Member = Member(kind: Kind, id: string)

  /** A member's row stays when it leaves; it is then no longer current. */
  datatype Channel = Channel(creator: Member, rows: map<Member, bool>)

  datatype Request =
    | Add(actor: Member, member: Member, studio: bool)
    | Remove(actor: Member, member: Member, studio: bool)

  datatype Write = Join(member: Member) | Leave(member: Member) | Nothing

  datatype Decision = Refused | Allowed(write: Write)

  datatype Stage = Begun | Locked | Checked(write: Write) | Ended

  datatype Tx = Tx(channel: string, request: Request, stage: Stage)

  datatype State = State(channels: map<string, Channel>, locks: map<string, nat>, txs: map<nat, Tx>)

  datatype Action =
    | Create(id: string, creator: Member, pets: seq<string>)
    | Begin(t: nat, channel: string, request: Request)
    | Lock(t: nat)
    | Check(t: nat)
    | Commit(t: nat)
    | Abort(t: nat)

  predicate Current(rows: map<Member, bool>, m: Member) {
    m in rows && rows[m]
  }

  function Humans(rows: map<Member, bool>): set<Member> {
    set m | m in rows && rows[m] && m.kind == Human
  }

  /** Studio authority manages any Channel; everybody else only one they currently belong to. */
  predicate Manages(rows: map<Member, bool>, r: Request) {
    r.studio || Current(rows, r.actor)
  }

  /** What a transaction finds when it reads the members. */
  function Decide(rows: map<Member, bool>, r: Request): Decision {
    if !Manages(rows, r) then Refused
    else
      match r
      case Add(_, m, _) => Allowed(if Current(rows, m) then Nothing else Join(m))
      case Remove(_, m, _) =>
        if !Current(rows, m) then Allowed(Nothing)
        else if m.kind == Human && |Humans(rows)| == 1 then Refused
        else Allowed(Leave(m))
  }

  function Written(rows: map<Member, bool>, w: Write): map<Member, bool> {
    match w
    case Nothing => rows
    case Join(m) => rows[m := true]
    case Leave(m) => rows[m := false]
  }

  function Founders(creator: Member, pets: seq<string>): set<Member> {
    {creator} + (set p | p in pets :: Member(Pet, p))
  }

  function Founding(creator: Member, pets: seq<string>): map<Member, bool> {
    map m | m in Founders(creator, pets) :: true
  }

  predicate Holding(x: Tx) {
    x.stage == Locked || x.stage.Checked?
  }

  predicate CanDo(s: State, a: Action) {
    match a
    case Create(id, _, _) => id !in s.channels
    case Begin(t, _, _) => t !in s.txs
    case Lock(t) => t in s.txs && s.txs[t].stage == Begun && s.txs[t].channel in s.channels && s.txs[t].channel !in s.locks
    case Check(t) => t in s.txs && s.txs[t].stage == Locked && s.txs[t].channel in s.channels
    case Commit(t) => t in s.txs && s.txs[t].stage.Checked? && s.txs[t].channel in s.channels
    case Abort(t) => t in s.txs && s.txs[t].stage != Ended
  }

  /** A transaction that ends lets its lock go. */
  function Over(s: State, t: nat): State
    requires t in s.txs
  {
    s.(txs := s.txs[t := s.txs[t].(stage := Ended)], locks := if Holding(s.txs[t]) then s.locks - {s.txs[t].channel} else s.locks)
  }

  function Do(s: State, a: Action): State
    requires CanDo(s, a)
  {
    match a
    case Create(id, creator, pets) => s.(channels := s.channels[id := Channel(creator, Founding(creator, pets))])
    case Begin(t, channel, request) => s.(txs := s.txs[t := Tx(channel, request, Begun)])
    case Lock(t) => s.(locks := s.locks[s.txs[t].channel := t], txs := s.txs[t := s.txs[t].(stage := Locked)])
    case Check(t) =>
      var d := Decide(s.channels[s.txs[t].channel].rows, s.txs[t].request);
      if d.Refused? then Over(s, t) else s.(txs := s.txs[t := s.txs[t].(stage := Checked(d.write))])
    case Commit(t) =>
      var c := s.txs[t].channel;
      Over(s, t).(channels := s.channels[c := s.channels[c].(rows := Written(s.channels[c].rows, s.txs[t].stage.write))])
    case Abort(t) => Over(s, t)
  }

  /** An action that cannot happen leaves everything as it is. */
  function Next(s: State, a: Action): State {
    if CanDo(s, a) then Do(s, a) else s
  }

  // -------------------------------------------------------------- invariant

  predicate Populated(c: Channel) {
    c.creator.kind == Human ==> Humans(c.rows) != {}
  }

  ghost predicate AllPopulated(s: State) {
    forall id :: id in s.channels ==> Populated(s.channels[id])
  }

  ghost predicate Exclusive(s: State) {
    && (forall t :: t in s.txs && Holding(s.txs[t]) ==>
          s.txs[t].channel in s.channels && s.txs[t].channel in s.locks && s.locks[s.txs[t].channel] == t)
    && (forall c :: c in s.locks ==> s.locks[c] in s.txs && Holding(s.txs[s.locks[c]]) && s.txs[s.locks[c]].channel == c)
  }

  /** What a transaction has decided to write is still right when it writes it. */
  ghost predicate StillRight(s: State) {
    forall t :: t in s.txs && s.txs[t].stage.Checked? && s.txs[t].channel in s.channels ==>
      Decide(s.channels[s.txs[t].channel].rows, s.txs[t].request) == Allowed(s.txs[t].stage.write)
  }

  ghost predicate Inv(s: State) {
    AllPopulated(s) && Exclusive(s) && StillRight(s)
  }

  /** A new Channel's current members are its creator and the Pets named, and a human who creates one is among them. */
  lemma FoundersStay(creator: Member, pets: seq<string>)
    ensures forall m :: Current(Founding(creator, pets), m) <==> m == creator || (m.kind == Pet && m.id in pets)
    ensures Populated(Channel(creator, Founding(creator, pets)))
  {
    forall m ensures m in Founders(creator, pets) <==> m == creator || (m.kind == Pet && m.id in pets) {
      if m.kind == Pet && m.id in pets { assert m == Member(Pet, m.id); }
    }
    if creator.kind == Human { assert creator in Humans(Founding(creator, pets)); }
  }

  /** A write that the members allow leaves a human wherever there was one. */
  lemma WriteKeepsHuman(rows: map<Member, bool>, r: Request)
    requires Humans(rows) != {} && Decide(rows, r).Allowed?
    ensures Humans(Written(rows, Decide(rows, r).write)) != {}
  {
    var w := Decide(rows, r).write;
    match w
    case Nothing =>
    case Join(m) => var h :| h in Humans(rows); assert h in Humans(rows[m := true]);
    case Leave(m) =>
      if m.kind == Human {
        assert m in Humans(rows);
        assert |Humans(rows) - {m}| == |Humans(rows)| - 1;
        var h :| h in Humans(rows) - {m};
        assert h in Humans(rows[m := false]);
      } else {
        var h :| h in Humans(rows);
        assert h in Humans(rows[m := false]);
      }
  }

  /** Unless it is refused, an addition leaves its member current and a removal does not, and nobody else changes. */
  lemma WriteTakesEffect(rows: map<Member, bool>, r: Request, other: Member)
    requires Decide(rows, r).Allowed?
    ensures Current(Written(rows, Decide(rows, r).write), r.member) <==> r.Add?
    ensures other != r.member ==> (Current(Written(rows, Decide(rows, r).write), other) <==> Current(rows, other))
  {
  }

  lemma OnlyOne(ms: set<Member>, m: Member)
    requires m in ms
    ensures |ms| == 1 <==> ms == {m}
  {
    assert |ms - {m}| == |ms| - 1;
    assert ms == (ms - {m}) + {m};
  }

  /** The only human whose membership is current. */
  ghost predicate LastHuman(rows: map<Member, bool>, m: Member) {
    m in rows && rows[m] && m.kind == Human && forall h :: h in rows && rows[h] && h.kind == Human ==> h == m
  }

  /**
   Refused are those who have no Studio authority and are not current members, whatever
   they ask, and the removal of the last human; nothing else is.
   */
  lemma WhenRefused(rows: map<Member, bool>, r: Request)
    ensures Decide(rows, r).Refused? <==>
              (!r.studio && (r.actor !in rows || !rows[r.actor])) || (r.Remove? && LastHuman(rows, r.member))
  {
    forall h ensures h in Humans(rows) <==> h in rows && rows[h] && h.kind == Human {}
    if r.member in Humans(rows) { OnlyOne(Humans(rows), r.member); }
    if LastHuman(rows, r.member) { assert Humans(rows) == {r.member}; }
    hide Humans;
  }

  lemma CommitKeepsInv(s: State, t: nat)
    requires Inv(s) && CanDo(s, Commit(t))
    ensures Inv(Do(s, Commit(t)))
  {
    var c := s.txs[t].channel;
    if Humans(s.channels[c].rows) != {} { WriteKeepsHuman(s.channels[c].rows, s.txs[t].request); }
    hide Decide; hide Humans; hide Written;
  }

  lemma CreateKeepsInv(s: State, id: string, creator: Member, pets: seq<string>)
    requires Inv(s) && id !in s.channels
    ensures Inv(s.(channels := s.channels[id := Channel(creator, Founding(creator, pets))]))
  {
    FoundersStay(creator, pets);
    hide Decide; hide Populated; hide Founding;
  }

  lemma BeginKeepsInv(s: State, t: nat, channel: string, request: Request)
    requires Inv(s) && t !in s.txs
    ensures Inv(s.(txs := s.txs[t := Tx(channel, request, Begun)]))
  {
    hide Decide; hide Populated;
  }

  lemma LockKeepsInv(s: State, t: nat)
    requires Inv(s) && CanDo(s, Lock(t))
    ensures Inv(Do(s, Lock(t)))
  {
    hide Decide; hide Populated;
  }

  lemma OverKeepsInv(s: State, t: nat)
    requires Inv(s) && t in s.txs
    ensures Inv(Over(s, t))
  {
    hide Decide; hide Populated;
  }

  lemma CheckKeepsInv(s: State, t: nat)
    requires Inv(s) && CanDo(s, Check(t))
    ensures Inv(Do(s, Check(t)))
  {
    hide Decide; hide Populated;
    OverKeepsInv(s, t);
    hide Over;
  }

  lemma DoKeepsInv(s: State, a: Action)
    requires Inv(s) && CanDo(s, a)
    ensures Inv(Do(s, a))
  {
    hide Inv; hide Over;
    match a
    case Create(id, creator, pets) => CreateKeepsInv(s, id, creator, pets);
    case Begin(t, channel, request) => BeginKeepsInv(s, t, channel, request);
    case Lock(t) => LockKeepsInv(s, t);
    case Check(t) => CheckKeepsInv(s, t);
    case Commit(t) => CommitKeepsInv(s, t);
    case Abort(t) => OverKeepsInv(s, t);
  }

  lemma RunKeepsInv(s: State, actions: seq<Action>)
    requires Inv(s)
    ensures Inv(After(Next, s, actions))
  {
    hide Inv; hide CanDo; hide Do;
    forall x, a | Inv(x) ensures Inv(Next(x, a)) {
      if CanDo(x, a) { DoKeepsInv(x, a); }
    }
    AfterKeeps(Next, Inv, s, actions);
  }

  /** A Channel that a human created has a current human member at every moment, however many members come and go at once. */
  lemma ChannelsKeepAHuman(actions: seq<Action>, t: State, id: string)
    requires t == After(Next, State(map[], map[], map[]), actions) && id in t.channels && t.channels[id].creator.kind == Human
    ensures exists m: Member :: Current(t.channels[id].rows, m) && m.kind == Human
  {
    RunKeepsInv(State(map[], map[], map[]), actions);
    assert Populated(t.channels[id]);
    var m :| m in Humans(t.channels[id].rows);
    assert Current(t.channels[id].rows, m);
  }

  /** What nobody but this transaction has done to the state: its Channel's rows, and its own end. */
  ghost predicate Only(s: State, e: State, t: nat, id: string, rows: map<Member, bool>, request: Request)
    requires id in s.channels
  {
    && e.channels == s.channels[id := Channel(s.channels[id].creator, rows)]
    && e.locks == s.locks
    && e.txs == s.txs[t := Tx(id, request, Ended)]
  }

  /** A transaction that gets its Channel's lock, and what it has then read. */
  lemma Locks(s: State, t: nat, id: string, request: Request)
    requires id in s.channels && id !in s.locks && t !in s.txs
    ensures Next(Next(s, Begin(t, id, request)), Lock(t)) == s.(locks := s.locks[id := t], txs := s.txs[t := Tx(id, request, Locked)])
  {
    hide Decide;
  }

  /**
   A transaction that is let through: refused, it changes nothing; otherwise its member
   is current exactly if it was added, and everybody else as before. Either way it ends,
   gives the lock back, and touches no other Channel.
   */
  lemma RunsAlone(s: State, t: nat, id: string, request: Request, m: Member)
    requires id in s.channels && id !in s.locks && t !in s.txs
    ensures var e := Next(Next(Next(Next(s, Begin(t, id, request)), Lock(t)), Check(t)), Commit(t));
            && id in e.channels && Only(s, e, t, id, e.channels[id].rows, request)
            && (Decide(s.channels[id].rows, request).Refused? ==> e.channels[id].rows == s.channels[id].rows)
            && (Decide(s.channels[id].rows, request).Allowed? ==>
                  (Current(e.channels[id].rows, m) <==> if m == request.member then request.Add? else Current(s.channels[id].rows, m)))
  {
    var rows := s.channels[id].rows;
    Locks(s, t, id, request);
    if Decide(rows, request).Allowed? { WriteTakesEffect(rows, request, m); }
    hide Decide; hide Written; hide Current;
    assert s.locks[id := t] - {id} == s.locks;
  }

  /** One that is given up before it has written leaves nothing behind, wherever it stands. */
  lemma GivesUp(s: State, t: nat, id: string, request: Request)
    requires id in s.channels && id !in s.locks && t !in s.txs
    ensures var begun := Next(s, Begin(t, id, request)); var locked := Next(begun, Lock(t)); var checked := Next(locked, Check(t));
            && Only(s, Next(begun, Abort(t)), t, id, s.channels[id].rows, request)
            && Only(s, Next(locked, Abort(t)), t, id, s.channels[id].rows, request)
            && Only(s, Next(checked, Abort(t)), t, id, s.channels[id].rows, request)
  {
    Locks(s, t, id, request);
    hide Decide;
    assert s.locks[id := t] - {id} == s.locks;
    assert s.channels[id := Channel(s.channels[id].creator, s.channels[id].rows)] == s.channels;
  }

  /** Without the lock it would not: two removals that read the same two humans both pass, and together they take the last. */
  lemma LockIsNeeded(a: Member, b: Member)
    requires a.kind == Human && b.kind == Human && a != b
    ensures var rows := map[a := true, b := true];
            var first, second := Decide(rows, Remove(a, a, false)), Decide(rows, Remove(b, b, false));
            first.Allowed? && second.Allowed? && Humans(Written(Written(rows, first.write), second.write)) == {}
  {
    var rows := map[a := true, b := true];
    assert Humans(rows) == {a, b};
  }
}

/** Windows of a session's timeline: what the Host sends and how a reader puts them together. */
module AgentSessionWindow {
  import opened AgentSession
  import opened History
  import opened Options
  import opened Sequences

  const PAGE := 100
  const LIMIT_MAX := 500

  function Min(a: int, b: int): int { if a < b then a else b }

  function Max(a: int, b: int): int { if a < b then b else a }

  /** Where the newest `limit` entries begin, or the open run if that is earlier; no limit is the whole timeline. */
  function WindowStart(length: nat, limit: Option<nat>, keepFrom: nat): (start: nat)
    requires keepFrom <= length
    ensures start <= keepFrom
    ensures limit.Some? && start > 0 ==> length - start >= limit.value
    ensures limit.None? ==> start == 0
    ensures limit.Some? && start < keepFrom ==> length - start <= limit.value
  {
    if limit.None? then 0 else Max(0, Min(length - limit.value, keepFrom))
  }

  /** The open run begins at the latest user message; a window reaches back to it. */
  method RunStart(timeline: seq<Entry>, runOpen: bool) returns (keepFrom: nat)
    ensures keepFrom <= |timeline|
    ensures keepFrom < |timeline| ==> runOpen && timeline[keepFrom].Message? && timeline[keepFrom].role == User
    ensures runOpen ==> forall i :: 0 <= i < |timeline| && (keepFrom == |timeline| || keepFrom < i) ==>
              !(timeline[i].Message? && timeline[i].role == User)
  {
    var runStart := if runOpen then |timeline| - 1 else -1;
    while runStart >= 0
      invariant -1 <= runStart < |timeline|
      invariant runOpen ==> forall i :: runStart < i < |timeline| ==> !(timeline[i].Message? && timeline[i].role == User)
      invariant !runOpen ==> runStart == -1
    {
      if timeline[runStart].Message? && timeline[runStart].role == User { break; }
      runStart := runStart - 1;
    }
    keepFrom := if runStart < 0 then |timeline| else runStart;
  }

  /** A snapshot of the Host's timeline: its tail, and how many entries come before it. */
  predicate IsWindow(incoming: Session, host: seq<Entry>, limit: Option<nat>, keepFrom: nat)
    requires keepFrom <= |host|
  {
    var start := WindowStart(|host|, limit, keepFrom);
    incoming.timeline == host[start..] && incoming.omitted == (if start > 0 then Some(start) else None)
  }

  /** The reader holds the Host's ids `k` up to `n`, and knows that `k` are missing before. */
  predicate Shows(s: Session, ids: seq<EntryId>, k: nat, n: nat) {
    && k <= n <= |ids| && Ids(s.timeline) == ids[k..n]
    && s.omitted == (if k > 0 then Some(k) else None)
  }

  lemma IdsAt(t: seq<Entry>, ids: seq<EntryId>, k: nat, n: nat, i: nat)
    requires k <= n <= |ids| && Ids(t) == ids[k..n] && i < n - k
    ensures |t| == n - k && t[i].id == ids[k + i]
  {
    assert Ids(t)[i] == t[i].id;
  }

  /** Where a reader finds an id of the Host's. */
  lemma FoundAt(t: seq<Entry>, ids: seq<EntryId>, k: nat, n: nat, start: nat)
    requires Distinct(ids) && k <= n <= |ids| && Ids(t) == ids[k..n] && start < |ids|
    ensures |t| == n - k
    ensures IndexOf(t, ids[start]) == if k <= start < n then start - k else n - k
  {
    assert |Ids(t)| == |t|;
    forall i | 0 <= i < n - k ensures t[i].id == ids[k + i] { IdsAt(t, ids, k, n, i); }
    var r := IndexOf(t, ids[start]);
    if r < |t| { assert ids[k + r] == ids[start]; }
  }

  /** From where on the reader's timeline is complete after one more window. */
  function From(k: nat, n: nat, start: nat): nat {
    if start > 0 && k <= start < n then k else start
  }

  /** One window, as old or new as it may be, leaves the reader with the Host's timeline of that moment from some place on. */
  lemma WindowShown(s: Session, incoming: Session, host: seq<Entry>, limit: Option<nat>, keepFrom: nat, ids: seq<EntryId>, k: nat, n: nat)
    requires Distinct(ids) && Shows(s, ids, k, n) && Ids(host) <= ids
    requires keepFrom <= |host| && IsWindow(incoming, host, limit, keepFrom) && (limit.Some? ==> limit.value > 0)
    requires incoming.sessionId == s.sessionId
    ensures Shows(ApplySnapshot(s, incoming, Plain), ids, From(k, n, WindowStart(|host|, limit, keepFrom)), |host|)
  {
    var start := WindowStart(|host|, limit, keepFrom);
    assert |Ids(host)| == |host| && ids[..|host|] == Ids(host);
    assert Ids(host[start..]) == ids[start..|host|] by {
      forall i | 0 <= i < |host| - start ensures Ids(host[start..])[i] == ids[start + i] { assert Ids(host)[start + i] == host[start + i].id; }
    }
    if start > 0 {
      assert incoming.timeline[0].id == ids[start] by { assert Ids(host)[start] == host[start].id; }
      FoundAt(s.timeline, ids, k, n, start);
      if k <= start < n {
        assert Ids(s.timeline[..start - k]) == Ids(s.timeline)[..start - k] == ids[k..start];
        IdsOfBoth(s.timeline[..start - k], host[start..]);
        assert ids[k..start] + ids[start..|host|] == ids[k..|host|];
      }
    }
  }

  lemma IdsOfBoth(a: seq<Entry>, b: seq<Entry>)
    ensures Ids(a + b) == Ids(a) + Ids(b)
  {
  }

  /** A snapshot as a reader gets it: taken of some Host timeline, under some limit. */
  datatype Snapshot = Snapshot(incoming: Session, host: seq<Entry>, limit: Option<nat>, keepFrom: nat)

  /** The Host's timelines only ever append ids, and its bounds are respected. */
  predicate Taken(x: Snapshot, sessionId: string, ids: seq<EntryId>) {
    && x.keepFrom <= |x.host| && Ids(x.host) <= ids
    && (x.limit.Some? ==> 1 <= x.limit.value <= LIMIT_MAX)
    && x.incoming.sessionId == sessionId && IsWindow(x.incoming, x.host, x.limit, x.keepFrom)
  }

  function Read(s: Session, x: Snapshot): Session {
    ApplySnapshot(s, x.incoming, Plain)
  }

  /** After any sequence of snapshots, full or windowed, in any order of age. */
  lemma {:induction false} EverySequenceShows(s: Session, snapshots: seq<Snapshot>, ids: seq<EntryId>, k: nat, n: nat) returns (from: nat)
    requires Distinct(ids) && Shows(s, ids, k, n)
    requires forall i :: 0 <= i < |snapshots| ==> Taken(snapshots[i], s.sessionId, ids)
    ensures Shows(After(Read, s, snapshots), ids, from, if snapshots == [] then n else |snapshots[|snapshots| - 1].host|)
    decreases |snapshots|
  {
    hide Shows; hide ApplySnapshot; hide IsWindow;
    from := k;
    if snapshots != [] {
      var x := snapshots[0];
      assert Taken(x, s.sessionId, ids);
      WindowShown(s, x.incoming, x.host, x.limit, x.keepFrom, ids, k, n);
      AfterFirst(Read, s, snapshots);
      var t := Read(s, x);
      from := From(k, n, WindowStart(|x.host|, x.limit, x.keepFrom));
      SameSession(s, x.incoming);
      forall i | 0 <= i < |snapshots[1..]| ensures Taken(snapshots[1..][i], t.sessionId, ids) { assert snapshots[1..][i] == snapshots[i + 1]; }
      from := EverySequenceShows(t, snapshots[1..], ids, from, |x.host|);
    }
  }

  lemma SameSession(s: Session, incoming: Session)
    ensures ApplySnapshot(s, incoming, Plain).sessionId == incoming.sessionId
  {
  }

  /** A reader that starts with nothing. */
  lemma SnapshotsShowTheHost(sessionId: string, snapshots: seq<Snapshot>, ids: seq<EntryId>) returns (from: nat)
    requires Distinct(ids) && snapshots != []
    requires forall i :: 0 <= i < |snapshots| ==> Taken(snapshots[i], sessionId, ids)
    ensures var s := After(Read, EmptySession(sessionId), snapshots);
            var host := snapshots[|snapshots| - 1].host;
            && from <= |host| && Ids(s.timeline) == Ids(host)[from..]
            && s.omitted == (if from > 0 then Some(from) else None)
  {
    assert Ids(EmptySession(sessionId).timeline) == ids[0..0];
    from := EverySequenceShows(EmptySession(sessionId), snapshots, ids, 0, 0);
    var host := snapshots[|snapshots| - 1].host;
    assert Taken(snapshots[|snapshots| - 1], sessionId, ids);
    assert ids[..|host|] == Ids(host);
    assert ids[from..|host|] == Ids(host)[from..];
  }

  // ----------------------------------------------------------- load earlier

  /** One more page than is held, or everything once that passes the Host's bound. */
  function EarlierLimit(held: nat): (limit: Option<nat>)
    ensures limit.Some? ==> 1 <= limit.value <= LIMIT_MAX
  {
    if held + PAGE > LIMIT_MAX then None else Some(held + PAGE)
  }

  /** Each earlier read brings a page more, or everything. */
  lemma EarlierShows(s: Session, incoming: Session, host: seq<Entry>, keepFrom: nat, k: nat) returns (j: nat)
    requires Distinct(Ids(host)) && Shows(s, Ids(host), k, |host|)
    requires keepFrom <= |host| && IsWindow(incoming, host, EarlierLimit(|s.timeline|), keepFrom) && incoming.sessionId == s.sessionId
    ensures var t := ApplySnapshot(s, incoming, Plain);
            && t.sessionId == s.sessionId
            && j <= k && Shows(t, Ids(host), j, |host|) && (j > 0 ==> |t.timeline| >= |s.timeline| + PAGE)
    ensures EarlierLimit(|s.timeline|).None? ==> ApplySnapshot(s, incoming, Plain).omitted.None?
    ensures keepFrom == |host| && |s.timeline| + PAGE <= LIMIT_MAX ==>
              |ApplySnapshot(s, incoming, Plain).timeline| == Min(|s.timeline| + PAGE, |host|)
  {
    assert |Ids(host)| == |host| && |Ids(s.timeline)| == |s.timeline|;
    var limit := EarlierLimit(|s.timeline|);
    WindowShown(s, incoming, host, limit, keepFrom, Ids(host), k, |host|);
    j := From(k, |host|, WindowStart(|host|, limit, keepFrom));
    var t := ApplySnapshot(s, incoming, Plain);
    assert |Ids(t.timeline)| == |t.timeline|;
  }

  /**
   Loading earlier entries until none are missing: against a Host that does not change it
   takes at most six requests, wherever the reader stands and however far back an open run
   makes each window reach.
   */
  method LoadEverything(host: seq<Entry>, held: Session, ghost k: nat) returns (s: Session, requests: nat)
    requires Distinct(Ids(host)) && Shows(held, Ids(host), k, |host|)
    ensures requests <= 6
    ensures s.omitted.None? && Ids(s.timeline) == Ids(host)
  {
    s, requests := held, 0;
    ghost var j := k;
    while s.omitted.Some?
      invariant Shows(s, Ids(host), j, |host|) && s.sessionId == held.sessionId
      invariant requests <= 6
      invariant s.omitted.Some? ==> requests <= 5 && |s.timeline| >= PAGE * requests
      decreases 6 - requests
    {
      var keepFrom: int := *;
      if keepFrom < 0 || keepFrom > |host| { keepFrom := |host|; }
      var incoming := HostSnapshot(host, s.sessionId, EarlierLimit(|s.timeline|), keepFrom);
      j := EarlierShows(s, incoming, host, keepFrom, j);
      s := ApplySnapshot(s, incoming, Plain);
      requests := requests + 1;
    }
    assert Ids(host)[0..|host|] == Ids(host);
  }

  function HostSnapshot(host: seq<Entry>, sessionId: string, limit: Option<nat>, keepFrom: nat): (incoming: Session)
    requires keepFrom <= |host|
    ensures IsWindow(incoming, host, limit, keepFrom) && incoming.sessionId == sessionId
  {
    var start := WindowStart(|host|, limit, keepFrom);
    EmptySession(sessionId).(timeline := host[start..], omitted := if start > 0 then Some(start) else None)
  }
}

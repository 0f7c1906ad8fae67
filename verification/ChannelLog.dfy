/** The messages of a Channel, by their sequence numbers, and the pages the store reads from them. */
module ChannelLog {

  predicate Ascending(s: seq<int>) {
    forall i, j :: 0 <= i < j < |s| ==> s[i] < s[j]
  }

  predicate IsLog(log: seq<int>) {
    Ascending(log) && forall i :: 0 <= i < |log| ==> 1 <= log[i]
  }

  /** How many messages come before a sequence number. */
  function Before(log: seq<int>, x: int): (n: nat)
    ensures n <= |log|
  {
    if log == [] then 0
    else if log[|log| - 1] < x then |log|
    else Before(log[..|log| - 1], x)
  }

  lemma {:induction false} BeforeIs(log: seq<int>, x: int, n: nat)
    requires Ascending(log) && n <= |log|
    requires n > 0 ==> log[n - 1] < x
    requires n < |log| ==> x <= log[n]
    ensures Before(log, x) == n
  {
    if n < |log| {
      assert log[|log| - 1] >= x;
      BeforeIs(log[..|log| - 1], x, n);
    }
  }

  lemma {:induction false} BeforeSplits(log: seq<int>, x: int)
    requires Ascending(log)
    ensures forall i :: 0 <= i < |log| ==> (log[i] < x <==> i < Before(log, x))
  {
    if log != [] && log[|log| - 1] >= x {
      var front := log[..|log| - 1];
      BeforeSplits(front, x);
      assert forall i :: 0 <= i < |front| ==> log[i] == front[i];
    }
  }

  /** The messages from one sequence number up to and including another. */
  function Between(log: seq<int>, from: int, to: int): seq<int> {
    if Before(log, from) <= Before(log, to + 1) then log[Before(log, from)..Before(log, to + 1)] else []
  }

  datatype Page = Page(items: seq<int>, nextAfter: int, nextBefore: int, hasMore: bool, hasEarlier: bool)

  function Least(a: nat, b: nat): nat { if a < b then a else b }

  /** The first `limit` messages after a cursor. */
  function PageAfter(log: seq<int>, after: int, limit: nat): Page {
    var start := Before(log, after + 1);
    var end := start + Least(limit, |log| - start);
    var items := log[start..end];
    var nextBefore := if items == [] then after + 1 else items[0];
    Page(items, if items == [] then after else items[|items| - 1], nextBefore, |log| - start > limit, Before(log, nextBefore) > 0)
  }

  /** The last `limit` messages before a cursor, or of all. */
  function PageUpTo(log: seq<int>, end: nat, before: int, limit: nat): Page
    requires end <= |log|
  {
    var start := end - Least(limit, end);
    var items := log[start..end];
    var nextAfter := if items == [] then before - 1 else items[|items| - 1];
    Page(items, nextAfter, if items == [] then before else items[0], Before(log, nextAfter + 1) < |log|, start > 0)
  }

  function NewestPage(log: seq<int>, limit: nat): Page {
    PageUpTo(log, |log|, 1, limit)
  }

  function PageBefore(log: seq<int>, before: int, limit: nat): Page {
    PageUpTo(log, Before(log, before), before, limit)
  }

  lemma AfterIsSlice(log: seq<int>, after: int, limit: nat)
    requires IsLog(log) && limit > 0
    ensures var page := PageAfter(log, after, limit);
            && page.items == Between(log, after + 1, page.nextAfter) && page.nextAfter >= after
            && (page.hasMore ==> page.nextAfter > after && |page.items| == limit)
            && (!page.hasMore ==> Before(log, page.nextAfter + 1) == |log|)
            && Before(log, page.nextAfter + 1) == Before(log, after + 1) + |page.items|
  {
    var start := Before(log, after + 1);
    BeforeSplits(log, after + 1);
    var page := PageAfter(log, after, limit);
    if page.items != [] { BeforeIs(log, page.nextAfter + 1, start + |page.items|); }
  }

  /** Where the parts of a page stand in the log. */
  lemma Places(log: seq<int>, start: nat, end: nat)
    requires IsLog(log) && start < end <= |log|
    ensures Before(log, log[start]) == start && Before(log, log[end - 1] + 1) == end
    ensures 1 <= log[start] <= log[end - 1]
  {
    BeforeIs(log, log[start], start);
    BeforeIs(log, log[end - 1] + 1, end);
  }

  lemma UpToIsSlice(log: seq<int>, end: nat, before: int, limit: nat)
    requires IsLog(log) && limit > 0 && end <= |log| && end == Before(log, before)
    ensures var page := PageUpTo(log, end, before, limit);
            && page.items == Between(log, page.nextBefore, before - 1) && page.nextBefore <= before
            && (page.hasEarlier <==> Before(log, page.nextBefore) > 0)
            && Before(log, page.nextBefore) + |page.items| == end
  {
    BeforeSplits(log, before);
    hide Before;
    var start := end - Least(limit, end);
    if start < end { Places(log, start, end); }
  }

  lemma NewestOfSome(log: seq<int>, limit: nat)
    requires IsLog(log) && limit > 0 && log != []
    ensures var start := |log| - Least(limit, |log|);
            && NewestPage(log, limit).items == log[start..] && NewestPage(log, limit).nextAfter == log[|log| - 1]
            && NewestPage(log, limit).nextBefore == log[start] && NewestPage(log, limit).hasEarlier == (start > 0)
  {
    hide Before;
  }

  lemma NewestIsSlice(log: seq<int>, limit: nat)
    requires IsLog(log) && limit > 0
    ensures var page := NewestPage(log, limit);
            && page.items == Between(log, page.nextBefore, page.nextAfter)
            && page.nextBefore <= page.nextAfter + 1
            && (page.hasEarlier <==> Before(log, page.nextBefore) > 0)
            && Before(log, page.nextAfter + 1) == |log| && 1 <= page.nextBefore
  {
    if log == [] {
      assert NewestPage(log, limit).items == [];
    } else {
      hide Before; hide NewestPage; hide PageUpTo;
      NewestOfSome(log, limit);
      Places(log, |log| - Least(limit, |log|), |log|);
    }
  }

  /**
   What every page says, however it was asked for: its messages are those between its two
   cursors, which are its first and last message if it has any; and its two flags tell
   whether there are messages on either side of it.
   */
  ghost predicate Describes(log: seq<int>, page: Page) {
    && page.items == Between(log, page.nextBefore, page.nextAfter)
    && (page.items != [] ==> page.nextBefore == page.items[0] && page.nextAfter == page.items[|page.items| - 1])
    && (page.items == [] ==> page.nextBefore == page.nextAfter + 1)
    && (page.hasMore <==> exists i :: 0 <= i < |log| && log[i] > page.nextAfter)
    && (page.hasEarlier <==> exists i :: 0 <= i < |log| && log[i] < page.nextBefore)
  }

  lemma SidesOf(log: seq<int>, x: int)
    requires Ascending(log)
    ensures Before(log, x) > 0 <==> exists i :: 0 <= i < |log| && log[i] < x
    ensures Before(log, x + 1) < |log| <==> exists i :: 0 <= i < |log| && log[i] > x
  {
    BeforeSplits(log, x);
    BeforeSplits(log, x + 1);
    if Before(log, x) > 0 { assert log[0] < x; }
    if Before(log, x + 1) < |log| { assert log[Before(log, x + 1)] > x; }
    hide Before;
  }

  lemma AfterDescribes(log: seq<int>, after: int, limit: nat)
    requires IsLog(log) && limit > 0
    ensures Describes(log, PageAfter(log, after, limit))
    ensures var page := PageAfter(log, after, limit);
            (page.items == [] ==> page.nextAfter == after) && |page.items| <= limit && (page.hasMore ==> |page.items| == limit)
  {
    var page := PageAfter(log, after, limit);
    AfterIsSlice(log, after, limit);
    SidesOf(log, page.nextAfter);
    SidesOf(log, page.nextBefore);
    hide Before;
    if page.items != [] { Places(log, Before(log, after + 1), Before(log, after + 1) + |page.items|); }
  }

  /** A stretch of the log, from its first message to its last. */
  lemma StretchDescribes(log: seq<int>, start: nat, end: nat)
    requires IsLog(log) && start < end <= |log|
    ensures Describes(log, Page(log[start..end], log[end - 1], log[start], end < |log|, start > 0))
  {
    Places(log, start, end);
    SidesOf(log, log[end - 1]);
    SidesOf(log, log[start]);
    hide Before; hide IsLog;
  }

  lemma NothingDescribes(log: seq<int>, before: int)
    requires IsLog(log) && Before(log, before) == 0
    ensures Describes(log, Page([], before - 1, before, Before(log, before) < |log|, false))
  {
    SidesOf(log, before - 1);
    SidesOf(log, before);
    hide Before; hide IsLog;
  }

  /** A page before a cursor is such a stretch, of the size asked for unless it begins the log. */
  lemma UpToIsStretch(log: seq<int>, end: nat, before: int, limit: nat)
    requires IsLog(log) && 0 < limit && 0 < end <= |log|
    ensures var start := end - Least(limit, end);
            && start < end && end - start <= limit && (start > 0 ==> end - start == limit)
            && PageUpTo(log, end, before, limit) == Page(log[start..end], log[end - 1], log[start], end < |log|, start > 0)
  {
    Places(log, end - Least(limit, end), end);
    hide Before; hide IsLog;
  }

  lemma UpToDescribes(log: seq<int>, end: nat, before: int, limit: nat)
    requires IsLog(log) && limit > 0 && end <= |log| && (end == Before(log, before) || (end == |log| && before == 1))
    ensures Describes(log, PageUpTo(log, end, before, limit))
    ensures var page := PageUpTo(log, end, before, limit);
            (page.items == [] ==> page.nextBefore == before) && |page.items| <= limit && (page.hasEarlier ==> |page.items| == limit)
  {
    if end > 0 {
      UpToIsStretch(log, end, before, limit);
      StretchDescribes(log, end - Least(limit, end), end);
      hide PageUpTo; hide Describes; hide IsLog; hide Before;
    } else {
      NothingDescribes(log, before);
      hide Describes; hide IsLog; hide Before;
    }
  }

  /** So do all three kinds of page. */
  lemma PagesDescribe(log: seq<int>, cursor: int, limit: nat)
    requires IsLog(log) && limit > 0
    ensures Describes(log, PageAfter(log, cursor, limit)) && Describes(log, PageBefore(log, cursor, limit)) && Describes(log, NewestPage(log, limit))
  {
    AfterDescribes(log, cursor, limit);
    UpToDescribes(log, Before(log, cursor), cursor, limit);
    UpToDescribes(log, |log|, 1, limit);
    hide Describes; hide PageAfter; hide PageUpTo;
  }

  // ------------------------------------------------------------ one timeline

  function Insert(s: seq<int>, x: int): seq<int> {
    if s == [] || s[|s| - 1] < x then s + [x]
    else if s[|s| - 1] == x then s
    else Insert(s[..|s| - 1], x) + [s[|s| - 1]]
  }

  /** Sorted, and what occurs twice kept once. */
  function Sorted(s: seq<int>): seq<int> {
    if s == [] then [] else Insert(Sorted(s[..|s| - 1]), s[|s| - 1])
  }

  function Merge(current: seq<int>, next: seq<int>): seq<int> {
    Sorted(current + next)
  }

  lemma {:induction false} InsertSorted(s: seq<int>, x: int)
    requires Ascending(s)
    ensures Ascending(Insert(s, x))
    ensures forall y :: y in Insert(s, x) <==> y in s || y == x
  {
    if s != [] && s[|s| - 1] > x {
      var front, last := s[..|s| - 1], s[|s| - 1];
      InsertSorted(front, x);
      assert s == front + [last];
      var r := Insert(front, x);
      forall i | 0 <= i < |r| ensures r[i] < last { assert r[i] in r; }
    }
  }

  lemma {:induction false} SortedSorts(s: seq<int>)
    ensures Ascending(Sorted(s))
    ensures forall y :: y in Sorted(s) <==> y in s
  {
    if s != [] {
      SortedSorts(s[..|s| - 1]);
      InsertSorted(Sorted(s[..|s| - 1]), s[|s| - 1]);
      assert s == s[..|s| - 1] + [s[|s| - 1]];
    }
  }

  /** An ascending sequence is determined by what it contains. */
  lemma {:induction false} AscendingUnique(s: seq<int>, t: seq<int>)
    requires Ascending(s) && Ascending(t) && forall y :: y in s <==> y in t
    ensures s == t
  {
    assert t == [] || t[0] in t;
    if s != [] {
      var x := s[|s| - 1];
      assert x in s;
      assert x in t;
      assert t[|t| - 1] in t;
      var j :| 0 <= j < |t| && t[j] == x;
      var k :| 0 <= k < |s| && s[k] == t[|t| - 1];
      assert t[|t| - 1] == x;
      var sf, tf := s[..|s| - 1], t[..|t| - 1];
      forall y ensures y in sf <==> y in tf {
        if y in sf { assert y in s && y < x; assert y in t; assert y in tf; }
        if y in tf { assert y in t && y < x; assert y in s; assert y in sf; }
      }
      AscendingUnique(sf, tf);
    }
  }

  /** Two stretches of one log that touch or overlap merge into one. */
  lemma MergeStretches(log: seq<int>, a: nat, b: nat, c: nat, d: nat)
    requires Ascending(log) && a <= c <= b <= |log| && c <= d <= |log|
    ensures Merge(log[a..b], log[c..d]) == log[a..if b < d then d else b]
    ensures Merge(log[c..d], log[a..b]) == log[a..if b < d then d else b]
  {
    var whole := log[a..if b < d then d else b];
    forall y ensures y in whole <==> y in log[a..b] || y in log[c..d] {
      if y in whole {
        var i :| 0 <= i < |whole| && whole[i] == y;
        if a + i < b { assert log[a..b][i] == y; } else { assert log[c..d][a + i - c] == y; }
      }
    }
    SortedSorts(log[a..b] + log[c..d]);
    SortedSorts(log[c..d] + log[a..b]);
    AscendingUnique(Merge(log[a..b], log[c..d]), whole);
    AscendingUnique(Merge(log[c..d], log[a..b]), whole);
  }

  // ------------------------------------------------------------- growing logs

  predicate Grown(log: seq<int>, later: seq<int>) {
    log <= later && IsLog(later)
  }

  /** A cursor that the log has reached keeps its place as the log grows. */
  lemma BeforeStays(log: seq<int>, later: seq<int>, x: int)
    requires Grown(log, later) && (log == [] ==> x <= 1) && (log != [] ==> x <= log[|log| - 1] + 1)
    ensures Before(later, x) == Before(log, x)
  {
    BeforeSplits(log, x);
    var n := Before(log, x);
    assert n > 0 ==> later[n - 1] == log[n - 1];
    if n < |later| {
      if n < |log| { assert later[n] == log[n]; }
    }
    BeforeIs(later, x, n);
  }

  /** How far a log reaches. */
  function Reach(log: seq<int>): int {
    if log == [] then 0 else log[|log| - 1]
  }

  lemma ReachGrows(log: seq<int>, later: seq<int>)
    requires Grown(log, later)
    ensures Reach(log) <= Reach(later)
  {
  }

  lemma BetweenStays(log: seq<int>, later: seq<int>, from: int, to: int)
    requires Grown(log, later) && from <= to + 1 <= Reach(log) + 1
    ensures Between(later, from, to) == Between(log, from, to)
  {
    BeforeStays(log, later, from);
    BeforeStays(log, later, to + 1);
  }

  lemma BeforeMonotone(log: seq<int>, x: int, y: int)
    requires Ascending(log) && x <= y
    ensures Before(log, x) <= Before(log, y)
  {
    BeforeSplits(log, x);
    BeforeSplits(log, y);
    var n := Before(log, x);
    if n > 0 { assert log[n - 1] < y; }
  }

  lemma BetweenJoins(log: seq<int>, a: int, b: int, c: int)
    requires Ascending(log) && a <= b + 1 <= c + 1
    ensures Between(log, a, b) + Between(log, b + 1, c) == Between(log, a, c)
  {
    BeforeMonotone(log, a, b + 1);
    BeforeMonotone(log, b + 1, c + 1);
  }

  lemma PageReach(log: seq<int>, after: int, limit: nat)
    requires IsLog(log) && limit > 0 && PageAfter(log, after, limit).nextAfter != after
    ensures PageAfter(log, after, limit).nextAfter <= Reach(log)
  {
  }

  lemma BeforeGrows(log: seq<int>, later: seq<int>, x: int)
    requires Ascending(log) && Grown(log, later)
    ensures Before(log, x) <= Before(later, x)
  {
    BeforeSplits(log, x);
    BeforeSplits(later, x);
    var n := Before(log, x);
    if n > 0 { assert later[n - 1] == log[n - 1]; }
  }

  /** What was read from one cursor to another does not change, wherever the reading began. */
  predicate ReadSoFar(log: seq<int>, from: int, after: int) {
    from == after || from <= after <= Reach(log)
  }

  lemma ReadStays(was: seq<int>, log: seq<int>, from: int, after: int)
    requires IsLog(was) && Grown(was, log) && 0 <= from && ReadSoFar(was, from, after)
    ensures Between(log, from + 1, after) == Between(was, from + 1, after) && ReadSoFar(log, from, after)
  {
    hide Before; hide Between;
    if from == after {
      NothingBetween(was, from);
      NothingBetween(log, from);
    } else {
      BetweenStays(was, log, from + 1, after);
      ReachGrows(was, log);
    }
  }

  /** A page read from a log that has grown goes on where the earlier pages ended. */
  lemma PageExtends(was: seq<int>, log: seq<int>, from: int, after: int)
    requires IsLog(was) && Grown(was, log) && 0 <= from && ReadSoFar(was, from, after)
    ensures var page := PageAfter(log, after, 200);
            && after <= page.nextAfter && ReadSoFar(log, from, page.nextAfter)
            && Between(was, from + 1, after) + page.items == Between(log, from + 1, page.nextAfter)
            && (page.hasMore ==> Before(log, page.nextAfter + 1) > Before(was, after + 1))
            && (!page.hasMore ==> Before(log, page.nextAfter + 1) == |log|)
  {
    hide Before; hide Between; hide PageAfter;
    ReadStays(was, log, from, after);
    BeforeGrows(was, log, after + 1);
    AfterIsSlice(log, after, 200);
    BetweenJoins(log, from + 1, after, PageAfter(log, after, 200).nextAfter);
    if PageAfter(log, after, 200).nextAfter != after { PageReach(log, after, 200); }
  }

  class ChannelReader {
    var log: seq<int>

    /** How many more messages will be posted: any finite number. */
    var posts: nat

    constructor (posts: nat)
      ensures log == [] && this.posts == posts
    {
      log, this.posts := [], posts;
    }

    /** Messages arrive while a reader waits for its pages. */
    method Others()
      requires IsLog(log)
      modifies this
      ensures Grown(old(log), log) && |log| + posts == |old(log)| + old(posts)
    {
      var n: int := *;
      var i := 0;
      while i < n
        invariant Grown(old(log), log) && |log| + posts == |old(log)| + old(posts)
      {
        var x: int := *;
        if posts > 0 && x > Reach(log) {
          log, posts := log + [x], posts - 1;
        }
        i := i + 1;
      }
    }

    /** One page after a cursor, read from the log as it is by then. */
    method ReadPage(from: int, after: int) returns (page: Page)
      requires IsLog(log) && 0 <= from && ReadSoFar(log, from, after)
      modifies this
      ensures Grown(old(log), log) && after <= page.nextAfter && ReadSoFar(log, from, page.nextAfter)
      ensures Between(old(log), from + 1, after) + page.items == Between(log, from + 1, page.nextAfter)
      ensures page.hasMore ==> |log| + posts - Before(log, page.nextAfter + 1) < |old(log)| + old(posts) - Before(old(log), after + 1)
      ensures !page.hasMore ==> Before(log, page.nextAfter + 1) == |log|
    {
      ghost var was := log;
      Others();
      page := PageAfter(log, after, 200);
      hide Before; hide Between; hide PageAfter;
      PageExtends(was, log, from, after);
    }

    /**
     Read every page after a cursor. Whatever is posted meanwhile, the loop ends, and it
     returns every message after the cursor that there is when its last page is read.
     */
    method ReadPages(from: int) returns (entries: seq<int>, nextAfter: int)
      requires IsLog(log) && 0 <= from
      modifies this
      ensures Grown(old(log), log) && from <= nextAfter && (nextAfter != from ==> nextAfter <= Reach(log))
      ensures entries == Between(log, from + 1, nextAfter) && Before(log, nextAfter + 1) == |log|
    {
      entries := [];
      var after := from;
      hide Before; hide Between;
      NothingBetween(log, from);
      while true
        invariant Grown(old(log), log) && from <= after && ReadSoFar(log, from, after)
        invariant entries == Between(log, from + 1, after)
        decreases |log| + posts - Before(log, after + 1)
      {
        var page := ReadPage(from, after);
        entries := entries + page.items;
        nextAfter := page.nextAfter;
        if !page.hasMore { return; }
        after := page.nextAfter;
      }
    }
  }

  lemma NothingBetween(log: seq<int>, x: int)
    ensures Between(log, x + 1, x) == []
  {
  }
}

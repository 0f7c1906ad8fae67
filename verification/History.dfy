/** Histories of a store: what a run of changes leaves, and what its event log says of one row. */
module History {

  function After<D, C>(next: (D, C) -> D, d: D, changes: seq<C>): D {
    if changes == [] then d else next(After(next, d, changes[..|changes| - 1]), changes[|changes| - 1])
  }

  ghost predicate Evolves<D(!new), C(!new)>(next: (D, C) -> D, d: D, e: D) {
    exists changes :: After(next, d, changes) == e
  }

  lemma AfterNext<D, C>(next: (D, C) -> D, d: D, changes: seq<C>, c: C)
    ensures After(next, d, changes + [c]) == next(After(next, d, changes), c)
  {
    assert (changes + [c])[..|changes|] == changes;
  }

  lemma EvolvesNot<D(!new), C(!new)>(next: (D, C) -> D, d: D)
    ensures Evolves(next, d, d)
  {
    assert After(next, d, []) == d;
  }

  lemma EvolvesNext<D(!new), C(!new)>(next: (D, C) -> D, d: D, e: D, c: C)
    requires Evolves(next, d, e)
    ensures Evolves(next, d, next(e, c))
  {
    var changes :| After(next, d, changes) == e;
    AfterNext(next, d, changes, c);
  }

  lemma {:induction false} AfterAppend<D, C>(next: (D, C) -> D, d: D, first: seq<C>, more: seq<C>)
    ensures After(next, d, first + more) == After(next, After(next, d, first), more)
  {
    if more == [] {
      assert first + more == first;
    } else {
      var front, last := more[..|more| - 1], more[|more| - 1];
      AfterAppend(next, d, first, front);
      assert first + more == (first + front) + [last];
      AfterNext(next, d, first + front, last);
    }
  }

  lemma EvolvesOn<D(!new), C(!new)>(next: (D, C) -> D, d: D, e: D, f: D)
    requires Evolves(next, d, e) && Evolves(next, e, f)
    ensures Evolves(next, d, f)
  {
    var first :| After(next, d, first) == e;
    var more :| After(next, e, more) == f;
    AfterAppend(next, d, first, more);
  }

  /** What every change keeps, every run keeps. */
  lemma {:induction false} AfterKeeps<D(!new), C(!new)>(next: (D, C) -> D, inv: D -> bool, d: D, changes: seq<C>)
    requires inv(d) && forall x, c :: inv(x) ==> inv(next(x, c))
    ensures inv(After(next, d, changes))
  {
    if changes != [] { AfterKeeps(next, inv, d, changes[..|changes| - 1]); }
  }

  /** A run seen from its first change. */
  lemma {:induction false} AfterFirst<D, C>(next: (D, C) -> D, d: D, changes: seq<C>)
    requires changes != []
    ensures After(next, d, changes) == After(next, next(d, changes[0]), changes[1..])
  {
    var front, last := changes[..|changes| - 1], changes[|changes| - 1];
    if front == [] {
      assert changes[1..] == [];
    } else {
      AfterFirst(next, d, front);
      assert changes[1..] == front[1..] + [last];
      AfterNext(next, next(d, changes[0]), front[1..], last);
    }
  }

  /** Something holds at every moment of a run. */
  ghost predicate Always<D(!new), C(!new)>(next: (D, C) -> D, ok: D -> bool, d: D, changes: seq<C>) {
    forall n :: 0 <= n <= |changes| ==> ok(After(next, d, changes[..n]))
  }

  /** No change of a run breaks it. */
  ghost predicate Unbroken<D(!new), C(!new)>(next: (D, C) -> D, breaks: (D, C) -> bool, d: D, changes: seq<C>) {
    forall n :: 0 <= n < |changes| ==> !breaks(After(next, d, changes[..n]), changes[n])
  }

  lemma AlwaysNext<D(!new), C(!new)>(next: (D, C) -> D, ok: D -> bool, d: D, front: seq<C>, c: C)
    ensures Always(next, ok, d, front + [c]) <==> Always(next, ok, d, front) && ok(next(After(next, d, front), c))
  {
    var changes := front + [c];
    AfterNext(next, d, front, c);
    assert changes[..|front|] == front && changes[..|changes|] == changes;
    forall n | 0 <= n <= |front| ensures changes[..n] == front[..n] {}
    if Always(next, ok, d, changes) {
      assert ok(After(next, d, changes[..|changes|]));
      forall n | 0 <= n <= |front| ensures ok(After(next, d, front[..n])) { assert ok(After(next, d, changes[..n])); }
    }
  }

  lemma UnbrokenNext<D(!new), C(!new)>(next: (D, C) -> D, breaks: (D, C) -> bool, d: D, front: seq<C>, c: C)
    ensures Unbroken(next, breaks, d, front + [c]) <==> Unbroken(next, breaks, d, front) && !breaks(After(next, d, front), c)
  {
    var changes := front + [c];
    assert changes[..|front|] == front && changes[|front|] == c;
    forall n | 0 <= n < |front| ensures changes[..n] == front[..n] && changes[n] == front[n] {}
    if Unbroken(next, breaks, d, changes) {
      assert !breaks(After(next, d, changes[..|front|]), changes[|front|]);
      forall n | 0 <= n < |front| ensures !breaks(After(next, d, front[..n]), front[n]) { assert !breaks(After(next, d, changes[..n]), changes[n]); }
    }
  }

  /** If a fair change keeps something exactly when it does not break it, it holds throughout a run of them exactly when none does. */
  lemma {:induction false} AlwaysIsUnbroken<D(!new), C(!new)>(
      next: (D, C) -> D, ok: D -> bool, fair: C -> bool, breaks: (D, C) -> bool, d: D, changes: seq<C>)
    requires ok(d) && forall k :: 0 <= k < |changes| ==> fair(changes[k])
    requires forall x, c :: ok(x) && fair(c) ==> (ok(next(x, c)) <==> !breaks(x, c))
    ensures Always(next, ok, d, changes) <==> Unbroken(next, breaks, d, changes)
  {
    if changes == [] {
      assert After(next, d, changes[..0]) == d;
    } else {
      var front, last := changes[..|changes| - 1], changes[|changes| - 1];
      assert changes == front + [last];
      AlwaysIsUnbroken(next, ok, fair, breaks, d, front);
      AlwaysNext(next, ok, d, front, last);
      UnbrokenNext(next, breaks, d, front, last);
      if Always(next, ok, d, front) {
        assert front[..|front|] == front && ok(After(next, d, front[..|front|]));
      }
    }
  }

  /** What every fair change keeps holds at every moment of a run of them. */
  lemma {:induction false} KeptIsAlways<D(!new), C(!new)>(next: (D, C) -> D, ok: D -> bool, fair: C -> bool, d: D, changes: seq<C>)
    requires ok(d) && forall k :: 0 <= k < |changes| ==> fair(changes[k])
    requires forall x, c :: ok(x) && fair(c) ==> ok(next(x, c))
    ensures Always(next, ok, d, changes)
  {
    AlwaysIsUnbroken(next, ok, fair, (x, c) => false, d, changes);
  }

  lemma AlwaysAtTheEnd<D(!new), C(!new)>(next: (D, C) -> D, ok: D -> bool, d: D, changes: seq<C>)
    requires Always(next, ok, d, changes)
    ensures ok(After(next, d, changes))
  {
    assert changes[..|changes|] == changes;
  }

  lemma EvolvesKeeps<D(!new), C(!new)>(next: (D, C) -> D, inv: D -> bool, d: D, e: D)
    requires Evolves(next, d, e) && inv(d) && forall x, c :: inv(x) ==> inv(next(x, c))
    ensures inv(e)
  {
    var changes :| After(next, d, changes) == e;
    AfterKeeps(next, inv, d, changes);
  }

  datatype Event<K> = Event(row: string, kind: K)

  /** The kinds of one row's events, in order. */
  function Word<K>(log: seq<Event<K>>, row: string): seq<K> {
    if log == [] then []
    else Word(log[..|log| - 1], row) + (if log[|log| - 1].row == row then [log[|log| - 1].kind] else [])
  }

  lemma WordNext<K>(log: seq<Event<K>>, e: Event<K>, row: string)
    ensures Word(log + [e], row) == Word(log, row) + if e.row == row then [e.kind] else []
  {
    assert (log + [e])[..|log|] == log;
  }

  lemma {:induction false} WordPrefix<K>(log: seq<Event<K>>, more: seq<Event<K>>, row: string)
    ensures Word(log, row) <= Word(log + more, row)
  {
    if more == [] {
      assert log + more == log;
    } else {
      var front, last := more[..|more| - 1], more[|more| - 1];
      WordPrefix(log, front, row);
      assert log + more == (log + front) + [last];
      WordNext(log + front, last, row);
    }
  }

  // ------------------------------------------------------------ row stores

  /** A table of rows and the log of their events, which one transaction changes together. */
  datatype Store<R, K> = Store(rows: map<string, R>, log: seq<Event<K>>)

  /** What stays for good: the events so far, and of each row what `stays` says. */
  ghost predicate Extends<R, K>(stays: (R, R) -> bool, d: Store<R, K>, e: Store<R, K>) {
    && d.log <= e.log
    && (forall id :: id in d.rows ==> id in e.rows && stays(d.rows[id], e.rows[id]))
  }

  /** Some change in between was this one, made by the call itself. */
  ghost predicate Made<D(!new), C(!new)>(next: (D, C) -> D, can: (D, C) -> bool, d: D, c: C, e: D) {
    exists m :: Evolves(next, d, m) && can(m, c) && Evolves(next, next(m, c), e)
  }

  /** At some moment in between the store would not have made this change. */
  ghost predicate Refused<D(!new), C(!new)>(next: (D, C) -> D, can: (D, C) -> bool, d: D, c: C, e: D) {
    exists m :: Evolves(next, d, m) && Evolves(next, m, e) && !can(m, c)
  }

  lemma MadeLater<D(!new), C(!new)>(next: (D, C) -> D, can: (D, C) -> bool, d: D, m: D, c: C, e: D)
    requires Evolves(next, d, m) && Made(next, can, m, c, e)
    ensures Made(next, can, d, c, e)
  {
    var n :| Evolves(next, m, n) && can(n, c) && Evolves(next, next(n, c), e);
    EvolvesOn(next, d, m, n);
  }

  lemma RefusedLater<D(!new), C(!new)>(next: (D, C) -> D, can: (D, C) -> bool, d: D, m: D, c: C, e: D)
    requires Evolves(next, d, m) && Refused(next, can, m, c, e)
    ensures Refused(next, can, d, c, e)
  {
    var n :| Evolves(next, m, n) && Evolves(next, n, e) && !can(n, c);
    EvolvesOn(next, d, m, n);
  }

  lemma RefusedBefore<D(!new), C(!new)>(next: (D, C) -> D, can: (D, C) -> bool, d: D, m: D, c: C, e: D)
    requires Refused(next, can, d, c, m) && Evolves(next, m, e)
    ensures Refused(next, can, d, c, e)
  {
    var n :| Evolves(next, d, n) && Evolves(next, n, m) && !can(n, c);
    EvolvesOn(next, n, m, e);
  }
}

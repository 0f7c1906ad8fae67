/**
 The Plugin hook registry: exposures and contributions meet in either order. Plugins
 are other code, so what an installer does is left open; it may also throw. Installers
 and cleanups do not call back into the registry.
 */
module StudioPluginHooks {
  import opened Options
  import opened Sequences
  import JsText

  datatype Error = EmptyName | DuplicateHook | InstallFailed

  /** A hook's name within the Plugin that exposes it. */
  datatype Key = Key(owner: string, name: string)

  class HookProvider {
    const key: Key

    constructor (key: Key)
      ensures this.key == key
    {
      this.key := key;
    }
  }

  class HookContribution {
    const owner: string
    const target: Key
    var provider: HookProvider?
    var cleanup: bool

    constructor (owner: string, target: Key)
      ensures this.owner == owner && this.target == target && provider == null && !cleanup
    {
      this.owner, this.target, provider, cleanup := owner, target, null, false;
    }
  }

  /** What an installer did when it was called. */
  datatype Outcome = Threw | ReturnedJunk | ReturnedNothing | ReturnedCleanup

  /** The installer did its work; the other two outcomes are errors. */
  predicate Worked(o: Outcome) { o == ReturnedNothing || o == ReturnedCleanup }

  // ------------------------------------------------ the Plugins' own code

  /** A Plugin's code ran: an installer, with what it did, or the cleanup that one returned. */
  datatype CodeCall =
    | InstallerRan(contribution: HookContribution, provider: HookProvider, outcome: Outcome)
    | CleanupRan(contribution: HookContribution)

  /** The contributions whose cleanup is still to be run; nothing if one was run that nobody owed, or lost. */
  ghost function Owed(calls: seq<CodeCall>): Option<set<HookContribution>> {
    if calls == [] then Some({})
    else
      var before, last := Owed(calls[..|calls| - 1]), calls[|calls| - 1];
      if before.None? then None
      else if last.CleanupRan? then
        if last.contribution in before.value then Some(before.value - {last.contribution}) else None
      else if last.outcome == ReturnedCleanup then
        if last.contribution in before.value then None else Some(before.value + {last.contribution})
      else before
  }

  /** The contributions that hold a cleanup. */
  ghost function Holders(cs: seq<HookContribution>): set<HookContribution>
    reads cs
  {
    set c | c in cs && c.cleanup
  }

  lemma OwedNext(calls: seq<CodeCall>, owed: set<HookContribution>, call: CodeCall)
    requires Owed(calls) == Some(owed)
    ensures call.CleanupRan? && call.contribution in owed ==> Owed(calls + [call]) == Some(owed - {call.contribution})
    ensures call.InstallerRan? && call.outcome == ReturnedCleanup && call.contribution !in owed ==>
              Owed(calls + [call]) == Some(owed + {call.contribution})
    ensures call.InstallerRan? && call.outcome != ReturnedCleanup ==> Owed(calls + [call]) == Some(owed)
  {
    assert (calls + [call])[..|calls|] == calls;
  }

  /**
   The installers of the contributions waiting were called for this provider, in their
   order, from this place in the record on: all of them did their work, or the first n
   did and the next one did not.
   */
  ghost predicate Tried(calls: seq<CodeCall>, from: nat, waiting: seq<HookContribution>, p: HookProvider, n: nat, ok: bool) {
    && n <= |waiting| && (ok <==> n == |waiting|)
    && from + n + (if ok then 0 else 1) <= |calls|
    && (forall k :: 0 <= k < n ==> RanWell(calls[from + k], waiting[k], p))
    && (!ok ==> calls[from + n].InstallerRan? && calls[from + n].contribution == waiting[n] && calls[from + n].provider == p && !Worked(calls[from + n].outcome))
  }

  predicate RanWell(call: CodeCall, c: HookContribution, p: HookProvider) {
    call.InstallerRan? && call.contribution == c && call.provider == p && Worked(call.outcome)
  }

  // ------------------------------------------------------ what Plugins see

  /** A contribution took effect in a provider, or was taken out of it again. */
  datatype Effect =
    | Installed(contribution: HookContribution, provider: HookProvider)
    | Detached(contribution: HookContribution, provider: HookProvider)

  datatype Replayed = Illegal | Legal(held: map<HookContribution, HookProvider>)

  /** A journal is legal when it only installs what is out and detaches what is in. */
  ghost function Replay(journal: seq<Effect>): Replayed {
    if journal == [] then Legal(map[])
    else Advance(Replay(journal[..|journal| - 1]), journal[|journal| - 1])
  }

  ghost function Advance(r: Replayed, e: Effect): Replayed {
    if r.Illegal? then Illegal
    else match e
      case Installed(c, p) => if c in r.held then Illegal else Legal(r.held[c := p])
      case Detached(c, p) => if c in r.held && r.held[c] == p then Legal(r.held - {c}) else Illegal
  }

  lemma ReplayNext(journal: seq<Effect>, e: Effect)
    ensures Replay(journal + [e]) == Advance(Replay(journal), e)
  {
    assert (journal + [e])[..|journal|] == journal;
  }

  ghost function Installs(journal: seq<Effect>, c: HookContribution, p: HookProvider): nat {
    if journal == [] then 0
    else Installs(journal[..|journal| - 1], c, p) + (if journal[|journal| - 1] == Installed(c, p) then 1 else 0)
  }

  ghost function Detachments(journal: seq<Effect>, c: HookContribution, p: HookProvider): nat {
    if journal == [] then 0
    else Detachments(journal[..|journal| - 1], c, p) + (if journal[|journal| - 1] == Detached(c, p) then 1 else 0)
  }

  /** In a legal journal, installs minus detachments are the attachments, one by one. */
  lemma {:induction false} InstallsBalance(journal: seq<Effect>, c: HookContribution, p: HookProvider)
    requires Replay(journal).Legal?
    ensures Installs(journal, c, p) - Detachments(journal, c, p)
         == if c in Replay(journal).held && Replay(journal).held[c] == p then 1 else 0
  {
    if journal != [] { InstallsBalance(journal[..|journal| - 1], c, p); }
  }

  /** Every earlier moment of a legal journal was legal too, so nothing is detached twice for one install. */
  lemma {:induction false} LegalFromTheStart(journal: seq<Effect>, n: nat)
    requires Replay(journal).Legal? && n <= |journal|
    ensures Replay(journal[..n]).Legal?
    decreases |journal|
  {
    if n == |journal| {
      assert journal[..n] == journal;
    } else {
      var front := journal[..|journal| - 1];
      assert front[..n] == journal[..n];
      LegalFromTheStart(front, n);
    }
  }

  lemma {:induction false} ReplayInstalled(journal: seq<Effect>, cs: seq<HookContribution>, p: HookProvider)
    requires Replay(journal).Legal? && Distinct(cs)
    requires forall c :: c in cs ==> c !in Replay(journal).held
    ensures Replay(journal + InstalledIn(cs, p)) == Legal(Replay(journal).held + (map c | c in cs :: p))
  {
    var held := Replay(journal).held;
    if cs == [] {
      assert journal + InstalledIn(cs, p) == journal;
      assert held + (map c | c in cs :: p) == held;
    } else {
      var front, last := cs[..|cs| - 1], cs[|cs| - 1];
      assert front + [last] == cs;
      ReplayInstalled(journal, front, p);
      ReplayOneMore(journal, front, last, p);
    }
  }

  lemma ReplayOneMore(journal: seq<Effect>, front: seq<HookContribution>, last: HookContribution, p: HookProvider)
    requires Replay(journal).Legal? && last !in front && last !in Replay(journal).held
    requires Replay(journal + InstalledIn(front, p)) == Legal(Replay(journal).held + (map c | c in front :: p))
    ensures Replay(journal + InstalledIn(front + [last], p)) == Legal(Replay(journal).held + (map c | c in front + [last] :: p))
  {
    hide Replay;
    assert journal + InstalledIn(front + [last], p) == (journal + InstalledIn(front, p)) + [Installed(last, p)];
    ReplayNext(journal + InstalledIn(front, p), Installed(last, p));
    OneMore(Replay(journal).held, front, last, p);
  }

  lemma OneMore(held: map<HookContribution, HookProvider>, front: seq<HookContribution>, last: HookContribution, p: HookProvider)
    ensures (held + (map c | c in front :: p))[last := p] == held + (map c | c in front + [last] :: p)
  {
  }

  lemma {:induction false} ReplayDetached(journal: seq<Effect>, cs: seq<HookContribution>, p: HookProvider)
    requires Replay(journal).Legal? && Distinct(cs)
    requires forall c :: c in cs ==> c in Replay(journal).held && Replay(journal).held[c] == p
    ensures Replay(journal + DetachedIn(cs, p)) == Legal(Replay(journal).held - (set c | c in cs))
  {
    var held := Replay(journal).held;
    if cs == [] {
      assert journal + DetachedIn(cs, p) == journal;
      assert held - (set c | c in cs) == held;
    } else {
      var front, last := cs[..|cs| - 1], cs[|cs| - 1];
      ReplayDetached(journal, front, p);
      assert journal + DetachedIn(cs, p) == (journal + DetachedIn(front, p)) + [Detached(last, p)];
      ReplayNext(journal + DetachedIn(front, p), Detached(last, p));
      assert last !in front && forall c :: c in cs <==> c in front || c == last;
      assert (held - (set c | c in front)) - {last} == held - (set c | c in cs);
    }
  }

  /** A failed exposure cancels out in what the Plugins saw. */
  lemma ReplayRolledBack(journal: seq<Effect>, cs: seq<HookContribution>, p: HookProvider)
    requires Replay(journal).Legal? && Distinct(cs)
    requires forall c :: c in cs ==> c !in Replay(journal).held
    ensures Replay(journal + InstalledIn(cs, p) + RolledBack(cs, p)) == Replay(journal)
  {
    ReplayInstalled(journal, cs, p);
    ReverseMembers(cs);
    ReverseDistinct(cs);
    hide Reverse;
    assert RolledBack(cs, p) == DetachedIn(Reverse(cs), p);
    ReplayDetached(journal + InstalledIn(cs, p), Reverse(cs), p);
    assert Replay(journal + InstalledIn(cs, p) + RolledBack(cs, p)).held == Replay(journal).held;
  }

  // -------------------------------------------------------------- registry

  function Without<T(==)>(s: seq<T>, x: T): seq<T> {
    if s == [] then [] else (if s[0] == x then [] else [s[0]]) + Without(s[1..], x)
  }

  lemma {:induction false} WithoutMember<T>(s: seq<T>, x: T, y: T)
    ensures y in Without(s, x) <==> y in s && y != x
  {
    if s != [] { WithoutMember(s[1..], x, y); }
  }

  lemma {:induction false} WithoutDistinct<T>(s: seq<T>, x: T)
    requires Distinct(s)
    ensures Distinct(Without(s, x))
  {
    if s != [] {
      WithoutDistinct(s[1..], x);
      WithoutMember(s[1..], x, s[0]);
      assert forall k :: 0 <= k < |s| - 1 ==> s[1..][k] == s[k + 1];
      assert s[0] !in s[1..];
    }
  }

  lemma {:induction false} WithoutNothing<T>(s: seq<T>, x: T)
    requires x !in s
    ensures Without(s, x) == s
  {
    if s != [] { WithoutNothing(s[1..], x); }
  }

  /** The contributions another Plugin than this one made, in their order. */
  function NotBy(cs: seq<HookContribution>, owner: string): seq<HookContribution> {
    if cs == [] then []
    else NotBy(cs[..|cs| - 1], owner) + (if cs[|cs| - 1].owner == owner then [] else [cs[|cs| - 1]])
  }

  lemma {:induction false} NotByMember(cs: seq<HookContribution>, owner: string, c: HookContribution)
    ensures c in NotBy(cs, owner) <==> c in cs && c.owner != owner
  {
    if cs != [] { NotByMember(cs[..|cs| - 1], owner, c); }
  }

  lemma {:induction false} WithoutMiddle<T>(front: seq<T>, x: T, rest: seq<T>)
    requires x !in front && x !in rest
    ensures Without(front + [x] + rest, x) == front + rest
  {
    if front == [] {
      assert ([] + [x] + rest)[1..] == rest;
      WithoutNothing(rest, x);
    } else {
      assert (front + [x] + rest)[1..] == front[1..] + [x] + rest;
      WithoutMiddle(front[1..], x, rest);
      assert [front[0]] + (front[1..] + rest) == front + rest;
    }
  }

  lemma NotByNothing(cs: seq<HookContribution>, owner: string)
    ensures NotBy(cs[..0], owner) + cs == cs
  {
    assert cs[..0] == [];
  }

  /** One round of a Plugin's release: what is not its own stays. */
  lemma NotByNext(cs: seq<HookContribution>, owner: string, i: nat)
    requires Distinct(cs) && i < |cs|
    ensures NotBy(cs[..i + 1], owner) + cs[i + 1..]
         == if cs[i].owner == owner then Without(NotBy(cs[..i], owner) + cs[i..], cs[i]) else NotBy(cs[..i], owner) + cs[i..]
  {
    var front, c, rest := NotBy(cs[..i], owner), cs[i], cs[i + 1..];
    assert cs[..i + 1][..i] == cs[..i];
    assert cs[i..] == [c] + rest;
    assert front + ([c] + rest) == front + [c] + rest;
    if c.owner == owner {
      NotByMember(cs[..i], owner, c);
      WithoutMiddle(front, c, rest);
    }
  }

  /** The contributions to one hook, in the order they were made. */
  function ForKey(contributions: seq<HookContribution>, key: Key): seq<HookContribution> {
    if contributions == [] then []
    else
      var last := contributions[|contributions| - 1];
      ForKey(contributions[..|contributions| - 1], key) + (if last.target == key then [last] else [])
  }

  lemma {:induction false} ForKeyMember(contributions: seq<HookContribution>, key: Key, c: HookContribution)
    ensures c in ForKey(contributions, key) <==> c in contributions && c.target == key
  {
    if contributions != [] { ForKeyMember(contributions[..|contributions| - 1], key, c); }
  }

  lemma ForKeyMembers(contributions: seq<HookContribution>, key: Key)
    ensures forall c :: c in ForKey(contributions, key) <==> c in contributions && c.target == key
  {
    forall c: HookContribution ensures c in ForKey(contributions, key) <==> c in contributions && c.target == key {
      ForKeyMember(contributions, key, c);
    }
  }

  lemma {:induction false} ForKeyDistinct(contributions: seq<HookContribution>, key: Key)
    requires Distinct(contributions)
    ensures Distinct(ForKey(contributions, key))
  {
    if contributions != [] {
      var front := contributions[..|contributions| - 1];
      ForKeyDistinct(front, key);
      ForKeyMember(front, key, contributions[|contributions| - 1]);
    }
  }

  lemma {:induction false} ForKeyPrefix(contributions: seq<HookContribution>, key: Key, n: nat)
    requires n <= |contributions|
    ensures ForKey(contributions[..n], key) <= ForKey(contributions, key)
  {
    if n == |contributions| {
      assert contributions[..n] == contributions;
    } else {
      var front := contributions[..|contributions| - 1];
      assert front[..n] == contributions[..n];
      ForKeyPrefix(front, key, n);
    }
  }

  ghost function InstalledIn(cs: seq<HookContribution>, p: HookProvider): seq<Effect> {
    seq(|cs|, i requires 0 <= i < |cs| => Installed(cs[i], p))
  }

  ghost function DetachedIn(cs: seq<HookContribution>, p: HookProvider): seq<Effect> {
    seq(|cs|, i requires 0 <= i < |cs| => Detached(cs[i], p))
  }

  lemma ForKeyNone(p: HookProvider)
    ensures ForKey([], p.key) == [] && InstalledIn([], p) == [] && DetachedIn([], p) == []
  {
  }

  lemma ForKeyNext(cs: seq<HookContribution>, key: Key, i: nat)
    requires i < |cs|
    ensures ForKey(cs[..i + 1], key) == if cs[i].target == key then ForKey(cs[..i], key) + [cs[i]] else ForKey(cs[..i], key)
  {
    assert cs[..i + 1][..i] == cs[..i];
  }

  lemma InstalledNext(cs: seq<HookContribution>, c: HookContribution, p: HookProvider)
    ensures InstalledIn(cs + [c], p) == InstalledIn(cs, p) + [Installed(c, p)]
  {
  }

  lemma DetachedNext(cs: seq<HookContribution>, c: HookContribution, p: HookProvider)
    ensures DetachedIn(cs + [c], p) == DetachedIn(cs, p) + [Detached(c, p)]
  {
  }

  /** The last one installed is the first one out. */
  ghost function RolledBack(cs: seq<HookContribution>, p: HookProvider): seq<Effect> {
    seq(|cs|, i requires 0 <= i < |cs| => Detached(cs[|cs| - 1 - i], p))
  }

  /** The attachments that the live exposures and contributions call for. */
  ghost function Wanted(providers: map<Key, HookProvider>, cs: seq<HookContribution>): map<HookContribution, HookProvider> {
    map c | c in cs && c.target in providers :: providers[c.target]
  }

  /** A contribution as its Plugin knows it: who offers something, and to which hook. */
  datatype Offer = Offer(owner: string, target: Key)

  ghost function Offers(cs: seq<HookContribution>): multiset<Offer> {
    if cs == [] then multiset{}
    else Offers(cs[..|cs| - 1]) + multiset{Offer(cs[|cs| - 1].owner, cs[|cs| - 1].target)}
  }

  /** The offers that some provider has taken up. */
  ghost function TakenUp(cs: seq<HookContribution>): multiset<Offer>
    reads cs
  {
    if cs == [] then multiset{}
    else
      var last := cs[|cs| - 1];
      TakenUp(cs[..|cs| - 1]) + (if last.provider == null then multiset{} else multiset{Offer(last.owner, last.target)})
  }

  /** If each contribution is attached just when its hook is exposed, that alone decides which offers are taken up. */
  lemma {:induction false} TakenUpIsExposed(cs: seq<HookContribution>, exposed: set<Key>, o: Offer)
    requires forall c :: c in cs ==> (c.provider == null <==> c.target !in exposed)
    ensures TakenUp(cs)[o] == if o.target in exposed then Offers(cs)[o] else 0
  {
    if cs != [] {
      TakenUpIsExposed(cs[..|cs| - 1], exposed, o);
      assert cs[|cs| - 1] in cs;
    }
  }

  lemma WantedWith(providers: map<Key, HookProvider>, cs: seq<HookContribution>, p: HookProvider, waiting: seq<HookContribution>)
    requires p.key !in providers && forall c :: c in waiting <==> c in cs && c.target == p.key
    ensures Wanted(providers, cs) + (map c | c in waiting :: p) == Wanted(providers[p.key := p], cs)
    ensures forall c :: c in waiting ==> c !in Wanted(providers, cs)
  {
  }

  lemma WantedWithout(providers: map<Key, HookProvider>, cs: seq<HookContribution>, p: HookProvider, held: seq<HookContribution>)
    requires p.key in providers && providers[p.key] == p && forall c :: c in held <==> c in cs && c.target == p.key
    ensures Wanted(providers, cs) - (set c | c in held) == Wanted(providers - {p.key}, cs)
    ensures forall c :: c in held ==> c in Wanted(providers, cs) && Wanted(providers, cs)[c] == p
  {
  }

  /** The waiting contributions are exactly what a new provider adds. */
  lemma Exposed(providers: map<Key, HookProvider>, cs: seq<HookContribution>, p: HookProvider, journal: seq<Effect>)
    requires p.key !in providers && Distinct(cs)
    requires Replay(journal) == Legal(Wanted(providers, cs))
    ensures Replay(journal + InstalledIn(ForKey(cs, p.key), p)) == Legal(Wanted(providers[p.key := p], cs))
  {
    hide Replay; hide ForKey; hide InstalledIn; hide Wanted;
    ForKeyDistinct(cs, p.key);
    ForKeyMembers(cs, p.key);
    WantedWith(providers, cs, p, ForKey(cs, p.key));
    ReplayInstalled(journal, ForKey(cs, p.key), p);
  }

  /** A failed exposure leaves the Plugins with what was wanted before. */
  lemma ExposureFailed(providers: map<Key, HookProvider>, cs: seq<HookContribution>, p: HookProvider, journal: seq<Effect>,
                       attached: seq<HookContribution>)
    requires p.key !in providers && Distinct(cs) && attached <= ForKey(cs, p.key)
    requires Replay(journal) == Legal(Wanted(providers, cs))
    ensures Replay(journal + InstalledIn(attached, p) + RolledBack(attached, p)) == Replay(journal)
    ensures Distinct(attached)
  {
    hide Replay; hide ForKey; hide InstalledIn; hide RolledBack; hide Wanted;
    ForKeyDistinct(cs, p.key);
    ForKeyMembers(cs, p.key);
    WantedWith(providers, cs, p, ForKey(cs, p.key));
    ReplayRolledBack(journal, attached, p);
  }

  /** A removal detaches exactly what its provider held. */
  lemma Removed(providers: map<Key, HookProvider>, cs: seq<HookContribution>, p: HookProvider, journal: seq<Effect>)
    requires p.key in providers && providers[p.key] == p && Distinct(cs)
    requires Replay(journal) == Legal(Wanted(providers, cs))
    ensures Replay(journal + DetachedIn(ForKey(cs, p.key), p)) == Legal(Wanted(providers - {p.key}, cs))
  {
    hide Replay; hide ForKey; hide DetachedIn; hide Wanted;
    ForKeyDistinct(cs, p.key);
    ForKeyMembers(cs, p.key);
    WantedWithout(providers, cs, p, ForKey(cs, p.key));
    ReplayDetached(journal, ForKey(cs, p.key), p);
  }

  /** A new contribution is installed at once if its hook is exposed, and otherwise waits. */
  lemma Contributed(providers: map<Key, HookProvider>, cs: seq<HookContribution>, c: HookContribution, journal: seq<Effect>)
    requires c !in cs && Replay(journal) == Legal(Wanted(providers, cs))
    ensures Replay(journal + if c.target in providers then [Installed(c, providers[c.target])] else [])
         == Legal(Wanted(providers, cs + [c]))
  {
    if c.target in providers {
      ReplayNext(journal, Installed(c, providers[c.target]));
      assert Wanted(providers, cs)[c := providers[c.target]] == Wanted(providers, cs + [c]);
    } else {
      assert journal + [] == journal;
      assert Wanted(providers, cs) == Wanted(providers, cs + [c]);
    }
  }

  /** A withdrawn contribution is detached if it was installed. */
  lemma Withdrawn(providers: map<Key, HookProvider>, cs: seq<HookContribution>, c: HookContribution, journal: seq<Effect>)
    requires c in cs && Distinct(cs) && Replay(journal) == Legal(Wanted(providers, cs))
    ensures Replay(journal + if c.target in providers then [Detached(c, providers[c.target])] else [])
         == Legal(Wanted(providers, Without(cs, c)))
    ensures Distinct(Without(cs, c)) && forall y :: y in Without(cs, c) <==> y in cs && y != c
  {
    WithoutDistinct(cs, c);
    forall y ensures y in Without(cs, c) <==> y in cs && y != c { WithoutMember(cs, c, y); }
    if c.target in providers {
      ReplayNext(journal, Detached(c, providers[c.target]));
      assert Wanted(providers, cs) - {c} == Wanted(providers, Without(cs, c));
    } else {
      assert journal + [] == journal;
      assert Wanted(providers, cs) == Wanted(providers, Without(cs, c));
    }
  }

  class StudioPluginHookRegistry {
    var providers: map<Key, HookProvider>
    var contributions: seq<HookContribution>
    ghost var journal: seq<Effect>
    ghost var calls: seq<CodeCall>

    constructor ()
      ensures Valid() && providers == map[] && contributions == [] && journal == [] && calls == []
    {
      providers, contributions, journal, calls := map[], [], [], [];
      new;
      assert Holders(contributions) == {};
    }

    /** The cleanups still to be run are those that the contributions hold: none is lost, and none is run twice. */
    ghost predicate CleanupsKept()
      reads this`calls, this`contributions, contributions
    {
      Owed(calls) == Some(Holders(contributions))
    }

    ghost predicate Shape()
      reads this
    {
      && Distinct(contributions)
      && (forall k :: k in providers ==> providers[k].key == k)
    }

    /** The provider a live contribution should be attached to. */
    function Target(c: HookContribution): HookProvider?
      reads this
    {
      if c.target in providers then providers[c.target] else null
    }

    ghost predicate Attached()
      reads this`providers, this`contributions, contributions
    {
      forall c :: c in contributions ==> c.provider == (if c.target in providers then providers[c.target] else null) && (c.provider == null ==> !c.cleanup)
    }

    /** Attached exactly as wanted, and what the Plugins have seen adds up to just that. */
    ghost predicate Valid()
      reads this, contributions
    {
      && Shape()
      && Attached()
      && Replay(journal) == Legal(Wanted(providers, contributions))
      && CleanupsKept()
    }

    /** What took effect and was not undone since is just what is attached now, whoever started first. */
    lemma JournalBalances(c: HookContribution, p: HookProvider)
      requires Valid()
      ensures Installs(journal, c, p) - Detachments(journal, c, p)
           == if c in contributions && c.provider == p then 1 else 0
    {
      InstallsBalance(journal, c, p);
    }

    /**
     Who started first makes no difference: two registries, whatever happened in them, that
     expose the same hooks and hold the same offers have taken up the same ones, each by the
     provider of its own hook.
     */
    lemma OrderMakesNoDifference(other: StudioPluginHookRegistry)
      requires Valid() && other.Valid()
      requires providers.Keys == other.providers.Keys && Offers(contributions) == Offers(other.contributions)
      ensures TakenUp(contributions) == TakenUp(other.contributions)
      ensures forall c :: c in contributions && c.provider != null ==> c.provider.key == c.target
    {
      forall o: Offer ensures TakenUp(contributions)[o] == TakenUp(other.contributions)[o] {
        TakenUpIsExposed(contributions, providers.Keys, o);
        TakenUpIsExposed(other.contributions, providers.Keys, o);
      }
    }

    /** The Plugin's own code runs here; it may do any of the four. */
    method CallInstaller(c: HookContribution, p: HookProvider) returns (outcome: Outcome)
      modifies this`calls
      ensures calls == old(calls) + [InstallerRan(c, p, outcome)]
    {
      outcome := *;
      calls := calls + [InstallerRan(c, p, outcome)];
    }

    /** A contribution is attached exactly if its installer returned nothing or a cleanup, which it then holds. */
    method Attach(c: HookContribution, p: HookProvider) returns (ok: bool, ghost outcome: Outcome)
      modifies c, this`journal, this`calls
      ensures calls == old(calls) + [InstallerRan(c, p, outcome)] && (ok <==> outcome == ReturnedNothing || outcome == ReturnedCleanup)
      ensures ok ==> c.provider == p && journal == old(journal) + [Installed(c, p)] && (c.cleanup <==> outcome == ReturnedCleanup)
      ensures !ok ==> c.provider == old(c.provider) && c.cleanup == old(c.cleanup) && journal == old(journal)
    {
      var did := CallInstaller(c, p);
      outcome := did;
      if did.Threw? || did.ReturnedJunk? { return false, outcome; }
      c.provider, c.cleanup := p, did.ReturnedCleanup?;
      journal := journal + [Installed(c, p)];
      ok := true;
    }

    /** Forget the provider first, then run the cleanup if there is one; a cleanup that throws changes nothing here. */
    method RunCleanup(c: HookContribution)
      modifies c, this`journal, this`calls
      ensures c.provider == null && !c.cleanup
      ensures journal == old(journal) + if old(c.provider) == null then [] else [Detached(c, old(c.provider))]
      ensures calls == old(calls) + if old(c.cleanup) then [CleanupRan(c)] else []
    {
      var cleanup := c.cleanup;
      if c.provider != null { journal := journal + [Detached(c, c.provider)]; }
      c.provider, c.cleanup := null, false;
      if cleanup { calls := calls + [CleanupRan(c)]; }
    }

    /** One of the contributions at hand is cleaned up. */
    method Detach(c: HookContribution)
      requires c in contributions && CleanupsKept()
      modifies c, this`journal, this`calls
      ensures c.provider == null && !c.cleanup && CleanupsKept() && old(calls) <= calls
      ensures journal == old(journal) + if old(c.provider) == null then [] else [Detached(c, old(c.provider))]
    {
      hide Owed;
      ghost var owed := Holders(contributions);
      OwedNext(calls, owed, CleanupRan(c));
      assert calls + [] == calls && (c !in owed ==> owed - {c} == owed);
      RunCleanup(c);
      assert Holders(contributions) == owed - {c};
    }

    /** Undo a failed exposure, last attachment first. */
    method RollBack(attached: seq<HookContribution>, p: HookProvider)
      requires Distinct(attached) && (forall c :: c in attached ==> c in contributions && c.provider == p) && CleanupsKept()
      modifies contributions, this`journal, this`calls
      ensures forall c :: c in attached ==> c.provider == null && !c.cleanup
      ensures forall c :: c in contributions && c !in attached ==> c.provider == old(c.provider) && c.cleanup == old(c.cleanup)
      ensures journal == old(journal) + RolledBack(attached, p)
      ensures CleanupsKept() && old(calls) <= calls
    {
      hide Owed;
      var n := |attached|;
      while n > 0
        invariant 0 <= n <= |attached|
        invariant forall k :: 0 <= k < n ==> attached[k].provider == p
        invariant forall k :: n <= k < |attached| ==> attached[k].provider == null && !attached[k].cleanup
        invariant forall c :: c in contributions && c !in attached ==> c.provider == old(c.provider) && c.cleanup == old(c.cleanup)
        invariant journal == old(journal) + RolledBack(attached, p)[..|attached| - n]
        invariant CleanupsKept() && old(calls) <= calls
      {
        n := n - 1;
        Detach(attached[n]);
      }
    }

    /** An installer of a waiting contribution is called, and what it returned is kept. */
    method Install(c: HookContribution, p: HookProvider) returns (ok: bool)
      requires c in contributions && !c.cleanup && CleanupsKept()
      modifies c, this`journal, this`calls
      ensures CleanupsKept() && |calls| == |old(calls)| + 1 && old(calls) <= calls
      ensures var call := calls[|calls| - 1];
              call.InstallerRan? && call.contribution == c && call.provider == p && (ok <==> Worked(call.outcome))
      ensures ok ==> c.provider == p && journal == old(journal) + [Installed(c, p)]
      ensures !ok ==> c.provider == old(c.provider) && !c.cleanup && journal == old(journal)
    {
      hide Owed;
      ghost var owed := Holders(contributions);
      ghost var outcome;
      ok, outcome := Attach(c, p);
      OwedNext(old(calls), owed, InstallerRan(c, p, outcome));
      assert Holders(contributions) == if outcome == ReturnedCleanup then owed + {c} else owed;
    }

    /** The exposure's loop: attach every waiting contribution until an installer fails. */
    method AttachAll(p: HookProvider) returns (attached: seq<HookContribution>, ok: bool)
      requires Distinct(contributions) && CleanupsKept()
      requires forall c :: c in contributions && c.target == p.key ==> c.provider == null && !c.cleanup
      modifies contributions, this`journal, this`calls
      ensures attached <= ForKey(contributions, p.key) && (ok <==> attached == ForKey(contributions, p.key))
      ensures forall c :: c in attached ==> c in contributions && c.provider == p
      ensures forall c :: c in contributions && c !in attached ==> c.provider == old(c.provider) && c.cleanup == old(c.cleanup)
      ensures journal == old(journal) + InstalledIn(attached, p)
      ensures CleanupsKept() && old(calls) <= calls && Tried(calls, |old(calls)|, ForKey(contributions, p.key), p, |attached|, ok)
    {
      hide ForKey; hide InstalledIn; hide Owed; hide Worked;
      attached := [];
      var i := 0;
      ForKeyNone(p);
      while i < |contributions|
        invariant 0 <= i <= |contributions|
        invariant attached == ForKey(contributions[..i], p.key)
        invariant forall c :: c in attached ==> c in contributions[..i] && c.provider == p
        invariant forall c :: c in contributions && c !in attached ==> c.provider == old(c.provider) && c.cleanup == old(c.cleanup)
        invariant journal == old(journal) + InstalledIn(attached, p)
        invariant CleanupsKept() && old(calls) <= calls && Tried(calls, |old(calls)|, attached, p, |attached|, true)
        invariant |calls| == |old(calls)| + |attached|
      {
        var c := contributions[i];
        ForKeyNext(contributions, p.key, i);
        assert c !in contributions[..i];
        if c.target == p.key && c.provider == null {
          ok := Install(c, p);
          ForKeyPrefix(contributions, p.key, i + 1);
          if !ok { return; }
          InstalledNext(attached, c, p);
          attached := attached + [c];
        }
        i := i + 1;
      }
      assert contributions[..i] == contributions;
      ok := true;
    }

    /** The removal's loop: detach every contribution this provider holds. */
    method DetachAll(p: HookProvider)
      requires Distinct(contributions) && CleanupsKept()
      requires forall c :: c in contributions ==> (c.provider == p <==> c.target == p.key)
      modifies contributions, this`journal, this`calls
      ensures CleanupsKept()
      ensures forall c :: c in contributions && c.target == p.key ==> c.provider == null && !c.cleanup
      ensures forall c :: c in contributions && c.target != p.key ==> c.provider == old(c.provider) && c.cleanup == old(c.cleanup)
      ensures journal == old(journal) + DetachedIn(ForKey(contributions, p.key), p)
    {
      hide ForKey; hide DetachedIn; hide Owed;
      var i := 0;
      ForKeyNone(p);
      while i < |contributions|
        invariant 0 <= i <= |contributions|
        invariant forall k :: 0 <= k < |contributions| && (i <= k || contributions[k].target != p.key) ==>
                    contributions[k].provider == old(contributions[k].provider) && contributions[k].cleanup == old(contributions[k].cleanup)
        invariant forall k :: 0 <= k < i && contributions[k].target == p.key ==>
                    contributions[k].provider == null && !contributions[k].cleanup
        invariant journal == old(journal) + DetachedIn(ForKey(contributions[..i], p.key), p)
        invariant CleanupsKept()
      {
        var c := contributions[i];
        ForKeyNext(contributions, p.key, i);
        assert c.provider == old(c.provider);
        if c.provider == p {
          DetachedNext(ForKey(contributions[..i], p.key), c, p);
          Detach(c);
        }
        i := i + 1;
      }
      assert contributions[..i] == contributions;
    }

    /** Stand a new provider under its name; if an installer fails, take everything back. */
    method AttachOrUndo(provider: HookProvider) returns (ok: bool, ghost attached: seq<HookContribution>)
      requires Valid() && provider.key !in providers
      modifies this, contributions
      ensures Valid() && contributions == old(contributions)
      ensures ok ==> providers == old(providers)[provider.key := provider]
      ensures ok ==> journal == old(journal) + InstalledIn(ForKey(contributions, provider.key), provider)
      ensures !ok ==> providers == old(providers) && attached < ForKey(contributions, provider.key)
      ensures !ok ==> journal == old(journal) + InstalledIn(attached, provider) + RolledBack(attached, provider)
      ensures !ok ==> forall c :: c in contributions ==> c.provider == old(c.provider) && c.cleanup == old(c.cleanup)
      ensures old(calls) <= calls && Tried(calls, |old(calls)|, ForKey(contributions, provider.key), provider, |attached|, ok)
    {
      hide CleanupsKept; hide Worked; hide RanWell;
      hide Replay; hide ForKey; hide InstalledIn; hide RolledBack; hide Wanted;
      providers := providers[provider.key := provider];
      Exposed(old(providers), contributions, provider, journal);
      ForKeyMembers(contributions, provider.key);
      var installed;
      installed, ok := AttachAll(provider);
      attached := installed;
      if !ok {
        ExposureFailed(old(providers), contributions, provider, old(journal), attached);
        RollBack(installed, provider);
        providers := providers - {provider.key};
        assert providers == old(providers);
      }
    }

    /**
     Expose a hook under the Plugin's name. Contributions already waiting for it are
     attached in their order; if one installer fails, everything is as before.
     */
    method Expose(owner: string, rawName: string) returns (r: Result<HookProvider, Error>)
      requires Valid()
      modifies this, contributions
      ensures Valid() && contributions == old(contributions)
      ensures JsText.IsBlank(rawName) ==> r == Err(EmptyName)
      ensures !JsText.IsBlank(rawName) && Key(owner, rawName) in old(providers) ==> r == Err(DuplicateHook)
      ensures r.Ok? ==> Key(owner, rawName) !in old(providers) && fresh(r.value)
      ensures r.Ok? ==> providers == old(providers)[Key(owner, rawName) := r.value]
      ensures r.Ok? ==> journal == old(journal) + InstalledIn(ForKey(contributions, Key(owner, rawName)), r.value)
      ensures r.Err? ==> providers == old(providers)
      ensures r.Err? ==> forall c :: c in contributions ==> c.provider == old(c.provider) && c.cleanup == old(c.cleanup)
      ensures r == Err(InstallFailed) ==> exists p, attached ::
                && attached < ForKey(contributions, Key(owner, rawName))
                && journal == old(journal) + InstalledIn(attached, p) + RolledBack(attached, p)
      ensures r.Err? && r.error != InstallFailed ==> journal == old(journal) && calls == old(calls)
      ensures old(calls) <= calls
      ensures r.Ok? ==>
                var waiting := ForKey(contributions, Key(owner, rawName));
                Tried(calls, |old(calls)|, waiting, r.value, |waiting|, true)
      ensures r == Err(InstallFailed) ==> exists p, n :: Tried(calls, |old(calls)|, ForKey(contributions, Key(owner, rawName)), p, n, false)
    {
      if JsText.IsBlank(rawName) { return Err(EmptyName); }
      var key := Key(owner, rawName);
      if key in providers { return Err(DuplicateHook); }
      var provider := new HookProvider(key);
      var ok, attached := AttachOrUndo(provider);
      r := if ok then Ok(provider) else Err(InstallFailed);
    }

    /**
     What an exposure's disposer does. Once another provider stands under the name, an
     old disposer finds it is not its own and leaves everything alone.
     */
    method RemoveProvider(provider: HookProvider)
      requires Valid()
      modifies this, contributions
      ensures Valid() && contributions == old(contributions)
      ensures provider.key in old(providers) && old(providers)[provider.key] == provider ==>
                && providers == old(providers) - {provider.key}
                && journal == old(journal) + DetachedIn(ForKey(contributions, provider.key), provider)
      ensures !(provider.key in old(providers) && old(providers)[provider.key] == provider) ==>
                && providers == old(providers) && journal == old(journal)
                && forall c :: c in contributions ==> c.provider == old(c.provider) && c.cleanup == old(c.cleanup)
    {
      hide CleanupsKept; hide Replay; hide Wanted; hide ForKey; hide DetachedIn;
      if provider.key !in providers || providers[provider.key] != provider { return; }
      Removed(providers, contributions, provider, journal);
      DetachAll(provider);
      providers := providers - {provider.key};
      assert Attached() && Shape();
    }

    /** Contribute to a hook, exposed already or not; a contribution whose installer fails leaves no trace. */
    method Contribute(owner: string, rawTarget: string, rawHook: string) returns (r: Result<HookContribution, Error>)
      requires Valid()
      modifies this
      ensures Valid() && providers == old(providers)
      ensures JsText.IsBlank(rawTarget) || JsText.IsBlank(rawHook) ==> r == Err(EmptyName)
      ensures r.Ok? ==> fresh(r.value) && r.value.owner == owner && r.value.target == Key(rawTarget, rawHook)
      ensures r.Ok? ==> contributions == old(contributions) + [r.value]
      ensures r.Ok? ==> journal == old(journal)
                                + if r.value.target in providers then [Installed(r.value, providers[r.value.target])] else []
      ensures r.Err? ==> contributions == old(contributions) && journal == old(journal)
      ensures old(calls) <= calls
      ensures r.Ok? ==> if r.value.target in providers then |calls| == |old(calls)| + 1 && RanWell(calls[|old(calls)|], r.value, providers[r.value.target])
                        else calls == old(calls)
      ensures r == Err(InstallFailed) ==>
                |calls| == |old(calls)| + 1 && calls[|old(calls)|].InstallerRan? && !Worked(calls[|old(calls)|].outcome)
      ensures !JsText.IsBlank(rawTarget) && !JsText.IsBlank(rawHook) && Key(rawTarget, rawHook) !in providers ==> r.Ok?
    {
      hide Replay; hide Wanted; hide Owed;
      if JsText.IsBlank(rawTarget) || JsText.IsBlank(rawHook) { return Err(EmptyName); }
      var c := new HookContribution(owner, Key(rawTarget, rawHook));
      var before := contributions;
      contributions := before + [c];
      Contributed(providers, before, c, journal);
      assert journal + [] == journal;
      assert Holders(before) == Holders(contributions);
      if c.target in providers {
        var ok := Install(c, providers[c.target]);
        if !ok {
          assert Holders(before) == Holders(contributions);
          contributions := before;
          return Err(InstallFailed);
        }
      }
      r := Ok(c);
    }

    /** A contribution leaves the registry, and its cleanup is run if it holds one. */
    method TakeOut(c: HookContribution)
      requires c in contributions && CleanupsKept()
      requires forall d :: d in Without(contributions, c) <==> d in contributions && d != c
      modifies this`contributions, this`journal, this`calls, c
      ensures contributions == Without(old(contributions), c) && CleanupsKept()
      ensures forall k :: 0 <= k < |contributions| ==> contributions[k] in old(contributions) && contributions[k] != c
      ensures c.provider == null && !c.cleanup
      ensures journal == old(journal) + if old(c.provider) == null then [] else [Detached(c, old(c.provider))]
    {
      hide Owed; hide Without;
      ghost var owed := Holders(contributions);
      OwedNext(calls, owed, CleanupRan(c));
      assert calls + [] == calls && (c !in owed ==> owed - {c} == owed);
      contributions := Without(contributions, c);
      assert forall k :: 0 <= k < |contributions| ==> contributions[k] in contributions;
      RunCleanup(c);
      assert Holders(contributions) == owed - {c};
    }

    /** What a contribution's disposer does, however often it is called. */
    method RemoveContribution(c: HookContribution)
      requires Valid()
      requires c !in contributions ==> c.provider == null && !c.cleanup
      modifies this, c
      ensures Valid() && providers == old(providers)
      ensures contributions == Without(old(contributions), c)
      ensures c.provider == null && !c.cleanup
      ensures journal == old(journal) + if old(c.provider) == null then [] else [Detached(c, old(c.provider))]
    {
      hide CleanupsKept; hide Replay; hide Wanted; hide Without;
      if c !in contributions { WithoutNothing(contributions, c); return; }
      Withdrawn(providers, contributions, c, journal);
      TakeOut(c);
    }

    /** The first half of a release: withdraw everything the Plugin contributed. */
    method WithdrawAll(owner: string)
      requires Valid()
      modifies this, contributions
      ensures Valid() && providers == old(providers)
      ensures contributions == NotBy(old(contributions), owner)
    {
      hide Replay; hide Wanted; hide Without; hide NotBy;
      var copy := contributions;
      var i := 0;
      assert copy[..0] == [];
      NotByNothing(copy, owner);
      while i < |copy|
        invariant 0 <= i <= |copy|
        invariant Valid() && providers == old(providers)
        invariant contributions == NotBy(copy[..i], owner) + copy[i..]
      {
        NotByNext(copy, owner, i);
        if copy[i].owner == owner {
          assert copy[i] in contributions by { assert copy[i] in copy[i..]; }
          RemoveContribution(copy[i]);
        }
        i := i + 1;
      }
      assert copy[..i] == copy;
    }

    /** The second half: take back everything the Plugin exposed. */
    method RemoveAll(owner: string)
      requires Valid()
      modifies this, contributions
      ensures Valid() && contributions == old(contributions)
      ensures providers == map k | k in old(providers) && k.owner != owner :: old(providers)[k]
    {
      hide Replay; hide Wanted; hide ForKey; hide DetachedIn;
      var mine := set k | k in providers && k.owner == owner;
      while mine != {}
        invariant Valid() && contributions == old(contributions)
        invariant forall k :: k in mine ==> k in old(providers) && k.owner == owner
        invariant providers == map k | k in old(providers) && (k.owner != owner || k in mine) :: old(providers)[k]
      {
        var k :| k in mine;
        RemoveProvider(providers[k]);
        mine := mine - {k};
      }
    }

    /** Stop a Plugin: withdraw what it contributed, then take back what it exposed. */
    method ReleasePlugin(owner: string)
      requires Valid()
      modifies this, contributions
      ensures Valid()
      ensures contributions == NotBy(old(contributions), owner)
      ensures providers == map k | k in old(providers) && k.owner != owner :: old(providers)[k]
      ensures forall c :: c in contributions && c.target.owner == owner ==> c.provider == null
    {
      WithdrawAll(owner);
      forall c | c in contributions ensures c in old(contributions) { NotByMember(old(contributions), owner, c); }
      assert forall i :: 0 <= i < |contributions| ==> contributions[i] in old(contributions);
      RemoveAll(owner);
      assert forall c :: c in contributions && c.target.owner == owner ==> c.provider == Target(c) == null;
    }
  }
}

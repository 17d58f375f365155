/** Runs that reach the edge cases: a trim that fails although it evicts, a stage that falls, and a head
    that is rejected with its ancestor. */
module EdgeRuns {
  import opened Types
  import opened Sequences
  import opened Forest
  import opened Store
  import opened StoreInvariants
  import opened StoreTrees
  import opened Wire
  import opened Publisher
  import opened PublisherInvariants
  import opened Shown
  import opened PlainRuns
  import opened EdgeCases
  import opened Finality
  import opened HeadLoss
  import opened HeadSurvival
  import opened StoreFaith
  import R = Retention

  // ----- A trim that evicts and yet fails -----

  const TINY := Limits(2, 8, 10, 10)

  predicate Holds(s: Store, h: Hash, incarnation: nat) {
    Held(s, h) && s.candidates[h].incarnation == incarnation
  }

  /** Only block 1 has listed children, and every record is held under an incarnation equal to its hash. */
  ghost predicate Fan(s: Store, known: set<Hash>, order: seq<Ticket>, next: nat, dead: seq<Hash>) {
    && Simple(s, known) && s.head == 1 && s.children.Keys <= {1}
    && s.projectionOrder == order && s.metadataOrder == order
    && s.projectionCount == |known| && s.nextIncarnation == next
    && s.tombstoneOrder == dead && s.tombstones == Elements(dead)
    && (forall h :: h in known ==> Leaf(s, h))
  }

  predicate Leaf(s: Store, h: Hash) { Stored(s, h) && Holds(s, h, h) && (h != 1 ==> s.candidates[h].stage == Executed) }

  lemma PutLeaf(p: State, known: set<Hash>, h: Hash, x: Hash)
    requires p.store.candidates.Keys == known && Quiet(p.store) && p.store.nextIncarnation == h && h !in known && 2 <= h
    requires x in known ==> Leaf(p.store, x)
    ensures x in known + {h} ==> Leaf(Put(p, h), x)
  {
    hide Put;
    PutEntry(p, h, x);
  }

  lemma OneMore(known: set<Hash>, h: Hash)
    requires h !in known
    ensures |known + {h}| == |known| + 1
  {
  }

  lemma ChildOfFirst(h: Hash)
    requires 2 <= h <= 5
    ensures Header(h).parent == 1
  {
  }

  lemma PutInFan(p: State, known: set<Hash>, order: seq<Ticket>, h: Hash, dead: seq<Hash>)
    requires Fan(p.store, known, order, h, dead) && 2 <= h <= 5 && h !in known
    requires |known| + 1 < p.store.limits.metadata
    ensures Fan(Put(p, h), known + {h}, order + [Ticket(h, h)], h + 1, dead) && Put(p, h).limits == p.store.limits
  {
    hide Put, Leaf, Header, Quiet, Elements;
    PutFields(p, h);
    assert |known + {h}| == |known| + 1 by { OneMore(known, h); }
    assert Header(h).parent == 1 by { ChildOfFirst(h); }
    forall x | x in known + {h}
      ensures Leaf(Put(p, h), x)
    {
      PutLeaf(p, known, h, x);
    }
  }

  lemma AddToFan(p: State, known: set<Hash>, order: seq<Ticket>, h: Hash, dead: seq<Hash>)
    requires Calm(p) && Fan(p.store, known, order, h, dead) && SharesHead(p)
    requires 2 <= h <= 5 && 1 in known && h !in known && h !in dead
    requires |known| < p.store.limits.cache && |known| + 1 < p.store.limits.metadata
    ensures var r := Next(p, Executes(h));
            && Calm(r) && SharesHead(r) && r.store.limits == p.store.limits
            && Fan(r.store, known + {h}, order + [Ticket(h, h)], h + 1, dead)
  {
    hide Put, Next, PutProjection, Fan, TrimProjections, Simple;
    PutInFan(p, known, order, h, dead);
    FanTrim(Put(p, h), known + {h}, order + [Ticket(h, h)], h + 1, dead);
    FanParts(p.store, known, order, h, dead, h);
    FanParts(p.store, known, order, h, dead, 1);
    assert Header(h).parent == 1 by { ChildOfFirst(h); }
    assert |known + {h}| == |known| + 1 by { OneMore(known, h); }
    ExecutedStep(p, known, h);
  }

  lemma FanTrim(s: Store, known: set<Hash>, order: seq<Ticket>, next: nat, dead: seq<Hash>)
    requires Fan(s, known, order, next, dead) && |known| <= s.limits.cache
    ensures TrimProjections(s) == Trim(s, [], true) && s.head == 1
    ensures MetadataLen(s) == |known| && s.projectionCount == |known|
  {
    hide Elements, Leaf;
  }

  lemma FanParts(s: Store, known: set<Hash>, order: seq<Ticket>, next: nat, dead: seq<Hash>, h: Hash)
    requires Fan(s, known, order, next, dead)
    ensures Simple(s, known) && s.head == 1 && (forall x :: x in known ==> Stored(s, x))
    ensures h in known <==> Held(s, h)
    ensures h !in dead ==> h !in s.tombstones
  {
    hide Simple, Elements;
    InElements(dead, h);
    assert forall x :: x in known ==> Leaf(s, x);
    assert s.candidates.Keys == known by { SimpleKeys(s, known); }
  }

  lemma SimpleKeys(s: Store, known: set<Hash>)
    requires Simple(s, known)
    ensures s.candidates.Keys == known
  {
  }

  lemma RemoveLeaf(s: Store, h: Hash)
    requires h != s.head && h !in s.children
    ensures RemoveCandidateTree(s, h, true) == RemoveOne(s, h, true)
  {
    assert s.children - {h} == s.children;
    assert s.(children := s.children - {h}) == s;
    var r := TakeOut(s, h, true);
    assert RemoveTrees(r, [], true) == r;
    assert [h][..0] + Kids(s, h) == [];
  }

  lemma RemoveFields(s: Store, h: Hash)
    requires h in s.candidates && Held(s, h) && s.projectionCount > 0 && s.deferred == map[] && h !in s.tombstones
    requires |s.metadataOrder| <= 2 * s.limits.metadata && |s.projectionOrder| <= 2 * s.limits.cache
    requires |s.tombstones + {h}| <= s.limits.metadata
    ensures var r := RemoveOne(s, h, true);
            && r.candidates == s.candidates - {h} && r.deferred == map[]
            && r.projectionOrder == s.projectionOrder && r.metadataOrder == s.metadataOrder
            && r.projectionCount == s.projectionCount - 1 && r.nextIncarnation == s.nextIncarnation
            && r.sweep == s.sweep && r.lastFinalized == s.lastFinalized && r.limits == s.limits && r.head == s.head
            && r.tombstones == s.tombstones + {h} && r.tombstoneOrder == s.tombstoneOrder + [h]
            && r.children.Keys <= s.children.Keys
  {
    assert s.deferred - {h} == map[];
  }

  lemma RemoveFromFan(s: Store, known: set<Hash>, order: seq<Ticket>, next: nat, dead: seq<Hash>, h: Hash)
    requires Fan(s, known, order, next, dead) && h in known && h !in dead && Distinct(dead)
    requires |order| <= 2 * s.limits.cache && |order| <= 2 * s.limits.metadata && |dead| < s.limits.metadata
    ensures var r := RemoveOne(s, h, true); Fan(r, known - {h}, order, next, dead + [h]) && r.limits == s.limits
  {
    hide RemoveOne;
    ElementsSize(dead);
    assert Leaf(s, h) && Elements(dead + [h]) == Elements(dead) + {h} && |s.tombstones + {h}| == |dead| + 1;
    RemoveFields(s, h);
    var r := RemoveOne(s, h, true);
    assert r.candidates.Keys == known - {h};
    assert forall x :: x in known - {h} ==> Leaf(s, x) && r.candidates[x] == s.candidates[x];
  }

  lemma DropFromFan(p: State, known: set<Hash>, order: seq<Ticket>, next: nat, dead: seq<Hash>, h: Hash)
    requires Calm(p) && Fan(p.store, known, order, next, dead) && SharesHead(p)
    requires h in known && h != 1 && h !in dead && Distinct(dead)
    requires |order| <= 2 * p.store.limits.cache && |order| <= 2 * p.store.limits.metadata
    requires |dead| < p.store.limits.metadata
    ensures var r := Next(p, OnRejected(0, h));
            && Calm(r) && SharesHead(r) && r.store.limits == p.store.limits
            && Fan(r.store, known - {h}, order, next, dead + [h])
  {
    hide RemoveOne, RemoveCandidateTree, Elements, Distinct;
    RemoveLeaf(p.store, h);
    RemoveFromFan(p.store, known, order, next, dead, h);
    assert Leaf(p.store, h);
  }

  predicate SharesHead(p: State) { p.shared.published.canonical == Proj(p.store.head) }

  /** Blocks 2 and 3 come and go, and block 4 comes. */
  function Wearing(): seq<Command> {
    [Executes(2), OnRejected(0, 2), Executes(3), OnRejected(0, 3), Executes(4)]
  }

  ghost predicate FanAfter(limits: Limits, cmds: seq<Command>, known: set<Hash>, order: seq<Ticket>, next: nat,
                           dead: seq<Hash>) {
    var p := After(First(1, limits), cmds);
    Calm(p) && SharesHead(p) && p.store.limits == limits && Fan(p.store, known, order, next, dead)
  }

  lemma FirstFan(limits: Limits)
    requires limits.metadata > 1
    ensures FanAfter(limits, [], {1}, [Ticket(1, 1)], 2, [])
  {
    AfterNone(First(1, limits));
    assert Elements<Hash>([]) == {};
  }

  lemma FanAdds(limits: Limits, cmds: seq<Command>, known: set<Hash>, order: seq<Ticket>, h: Hash, dead: seq<Hash>,
                cmds': seq<Command>, known': set<Hash>, order': seq<Ticket>)
    requires FanAfter(limits, cmds, known, order, h, dead)
    requires 2 <= h <= 5 && 1 in known && h !in known && h !in dead
    requires |known| < limits.cache && |known| + 1 < limits.metadata
    requires cmds' == cmds + [Executes(h)] && known' == known + {h} && order' == order + [Ticket(h, h)]
    ensures FanAfter(limits, cmds', known', order', h + 1, dead)
  {
    hide Fan, Calm, Next, After, SharesHead;
    AfterMore(First(1, limits), cmds, Executes(h));
    AddToFan(After(First(1, limits), cmds), known, order, h, dead);
  }

  lemma FanDrops(limits: Limits, cmds: seq<Command>, known: set<Hash>, order: seq<Ticket>, next: nat,
                 dead: seq<Hash>, h: Hash, cmds': seq<Command>, known': set<Hash>, dead': seq<Hash>)
    requires FanAfter(limits, cmds, known, order, next, dead)
    requires h in known && h != 1 && h !in dead && Distinct(dead)
    requires |order| <= 2 * limits.cache && |order| <= 2 * limits.metadata && |dead| < limits.metadata
    requires cmds' == cmds + [OnRejected(0, h)] && known' == known - {h} && dead' == dead + [h]
    ensures FanAfter(limits, cmds', known', order, next, dead')
  {
    hide Fan, Calm, Next, After, SharesHead, Distinct;
    AfterMore(First(1, limits), cmds, OnRejected(0, h));
    DropFromFan(After(First(1, limits), cmds), known, order, next, dead, h);
  }

  lemma WornFan(limits: Limits)
    requires 2 <= limits.cache && 3 <= limits.metadata
    ensures FanAfter(limits, Wearing(), {1, 4}, [Ticket(1, 1), Ticket(2, 2), Ticket(3, 3), Ticket(4, 4)], 5, [2, 3])
  {
    hide FanAfter, Executes;
    FirstFan(limits);
    var t1, t2, t3, t4 := Ticket(1, 1), Ticket(2, 2), Ticket(3, 3), Ticket(4, 4);
    var a, b, c, d, e := Executes(2), OnRejected(0, 2), Executes(3), OnRejected(0, 3), Executes(4);
    FanAdds(limits, [], {1}, [t1], 2, [], [a], {1, 2}, [t1, t2]);
    FanDrops(limits, [a], {1, 2}, [t1, t2], 3, [], 2, [a, b], {1}, [2]);
    FanAdds(limits, [a, b], {1}, [t1, t2], 3, [2], [a, b, c], {1, 3}, [t1, t2, t3]);
    FanDrops(limits, [a, b, c], {1, 3}, [t1, t2, t3], 4, [2], 3, [a, b, c, d], {1}, [2, 3]);
    FanAdds(limits, [a, b, c, d], {1}, [t1, t2, t3], 4, [2, 3], [a, b, c, d, e], {1, 4}, [t1, t2, t3, t4]);
  }

  lemma CrowdedScan(s: Store)
    requires s.projectionOrder == [Ticket(1, 1), Ticket(2, 2), Ticket(3, 3), Ticket(4, 4), Ticket(5, 5)]
    requires s.head == 1 && Holds(s, 1, 1) && Holds(s, 4, 4) && 2 !in s.candidates && 3 !in s.candidates
    ensures FirstProjectionVictim(s, s.projectionOrder) == 3 && HeadTicket(s) == Ticket(1, 1)
    ensures Position(s.projectionOrder, Ticket(1, 1)) == 0
    ensures Scanned(s.projectionOrder, 3, Ticket(1, 1)) == [Ticket(4, 4), Ticket(5, 5), Ticket(1, 1)]
  {
    var q := s.projectionOrder;
    assert ProjectionVictim(s, q[3]) && !ProjectionVictim(s, q[0]) && !ProjectionVictim(s, q[1])
           && !ProjectionVictim(s, q[2]);
  }

  /** One projection too many is evicted, and yet the trim fails: three tickets stood in front of it, and two remain. */
  lemma CrowdedTrim(s: Store)
    requires Fan(s, {1, 4, 5}, [Ticket(1, 1), Ticket(2, 2), Ticket(3, 3), Ticket(4, 4), Ticket(5, 5)], 6, [2, 3])
    requires s.limits == TINY
    ensures var t := TrimProjections(s);
            && !t.ok && t.store.projectionCount == s.limits.cache && t.store.limits == s.limits
            && MetadataLen(t.store) == 3
            && !Held(t.store, 4) && Held(t.store, 5) && Held(t.store, 1)
  {
    hide FirstProjectionVictim, Position, Scanned, HeadTicket;
    assert Leaf(s, 1) && Leaf(s, 4) && Leaf(s, 5);
    CrowdedScan(s);
    assert |{1, 4, 5}| == 3;
    assert TrimProjections(s).store.candidates.Keys == {1, 4, 5};
  }

  /** Block 5 makes one projection too many. One is evicted, as it should be, and the publisher reports an
      error all the same: it evicted block 4 behind three tickets, two of them stale, and only the head's ticket
      and the newest remain. */
  lemma StaleTicketsFailTheTrim()
    ensures var p, r := After(First(1, TINY), Wearing()), After(First(1, TINY), Wearing() + [Executes(5)]);
            && !p.broken && Held(p.store, 1) && Held(p.store, 4) && p.store.projectionCount == p.store.limits.cache
            && r.broken && r.store.projectionCount == r.store.limits.cache
            && Held(r.store, 1) && !Held(r.store, 4) && Held(r.store, 5)
  {
    hide Put, Next, TrimProjections, After, Fan, Simple;
    WornFan(TINY);
    var p, order := After(First(1, TINY), Wearing()), [Ticket(1, 1), Ticket(2, 2), Ticket(3, 3), Ticket(4, 4)];
    FanParts(p.store, {1, 4}, order, 5, [2, 3], 1);
    FanParts(p.store, {1, 4}, order, 5, [2, 3], 4);
    FanParts(p.store, {1, 4}, order, 5, [2, 3], 5);
    assert |{1, 4}| == 2;
    FanTrim(p.store, {1, 4}, order, 5, [2, 3]);
    PutInFan(p, {1, 4}, order, 5, [2, 3]);
    assert {1, 4} + {5} == {1, 4, 5};
    assert order + [Ticket(5, 5)] == [Ticket(1, 1), Ticket(2, 2), Ticket(3, 3), Ticket(4, 4), Ticket(5, 5)];
    CrowdedTrim(Put(p, 5));
    ExecutedStep(p, {1, 4}, 5);
    AfterMore(First(1, TINY), Wearing(), Executes(5));
  }

  // ----- A stage that falls -----

  /** Block 2 is executed, validated, and evicted for block 3. */
  function Evicting(): seq<Command> { [Executes(2), OnValidated(0, 2, false), Executes(3)] }

  /** Blocks 1 and 2 are held, and 2 is validated. */
  ghost predicate Pair(s: Store) {
    && Simple(s, {1, 2}) && s.limits == TINY && s.head == 1 && s.tombstones == {}
    && s.projectionOrder == [Ticket(1, 1), Ticket(2, 2)] && s.projectionCount == 2 && s.nextIncarnation == 3
    && Stored(s, 1) && Stored(s, 2) && Holds(s, 1, 1) && Holds(s, 2, 2) && s.candidates[2].stage == Validated
  }

  lemma PromotedPair(s: Store)
    requires Fan(s, {1, 2}, [Ticket(1, 1), Ticket(2, 2)], 3, []) && s.limits == TINY
    ensures Pair(SetStage(s, 2))
  {
    assert Leaf(s, 1) && Leaf(s, 2);
    assert SetStage(s, 2).candidates.Keys == {1, 2};
    assert |{1, 2}| == 2;
  }

  lemma PromotedStep(p: State)
    requires Calm(p) && Fan(p.store, {1, 2}, [Ticket(1, 1), Ticket(2, 2)], 3, [])
             && p.store.limits == TINY
    ensures var r := Next(p, OnValidated(0, 2, false)); Calm(r) && Pair(r.store)
  {
    hide Pair;
    assert Leaf(p.store, 2);
    PromotedPair(p.store);
  }

  /** The store with block 2 validated and block 3 put in. */
  ghost predicate Triple(s: Store) {
    && Simple(s, {1, 2, 3}) && s.limits == TINY && s.head == 1 && s.tombstones == {}
    && s.projectionOrder == [Ticket(1, 1), Ticket(2, 2), Ticket(3, 3)] && s.projectionCount == 3
    && Stored(s, 1) && Stored(s, 2) && Stored(s, 3) && Holds(s, 1, 1) && Holds(s, 2, 2) && Holds(s, 3, 3)
    && s.candidates[2].stage == Validated
  }

  lemma PutThird(p: State)
    requires Pair(p.store)
    ensures Triple(Put(p, 3))
  {
    hide Put;
    PutFields(p, 3);
    PutEntry(p, 3, 1);
    PutEntry(p, 3, 2);
    assert {1, 2} + {3} == {1, 2, 3} && |{1, 2, 3}| == 3;
  }

  /** What the trim for block 3 leaves: block 2 is known, validated, and has no projection. */
  ghost predicate Evicted(s: Store) {
    && Simple(s, {1, 2, 3}) && s.limits == TINY && s.head == 1 && s.tombstones == {}
    && s.projectionOrder == [Ticket(3, 3), Ticket(1, 1)] && s.projectionCount == 2
    && Stored(s, 1) && Stored(s, 2) && Stored(s, 3) && Holds(s, 1, 1) && !Held(s, 2) && Holds(s, 3, 3)
    && s.candidates[2].stage == Validated && s.candidates[2].incarnation == 2
  }

  lemma EvictSecond(s: Store)
    requires Triple(s)
    ensures TrimProjections(s).ok && Evicted(TrimProjections(s).store)
  {
    var q := s.projectionOrder;
    assert ProjectionVictim(s, q[1]) && !ProjectionVictim(s, q[0]);
    assert FirstProjectionVictim(s, q) == 1;
    assert HeadTicket(s) == q[0] && Position(q, q[0]) == 0;
    assert Scanned(q, 1, q[0]) == [Ticket(2, 2), Ticket(3, 3), Ticket(1, 1)];
    assert TrimProjections(s).store.candidates.Keys == {1, 2, 3};
  }

  /** Putting block 2 back makes one projection too many again, and block 3 goes. */
  lemma PutBack(p: State)
    requires Evicted(p.store)
    ensures var t := TrimProjections(Put(p, 2)); t.ok && MetadataLen(t.store) <= t.store.limits.metadata
  {
    var s := Put(p, 2);
    var q := s.projectionOrder;
    assert q == [Ticket(3, 3), Ticket(1, 1), Ticket(2, 2)] && s.projectionCount == 3;
    assert s.candidates[3] == p.store.candidates[3];
    assert ProjectionVictim(s, q[0]);
    assert FirstProjectionVictim(s, q) == 0;
    assert TrimProjections(s).store.candidates.Keys == {1, 2, 3} && TrimProjections(s).store.deferred == map[];
    assert |{1, 2, 3}| == 3;
  }

  lemma ThirdStep(p: State)
    requires Calm(p) && Pair(p.store)
    ensures var r := Next(p, Executes(3)); Calm(r) && Evicted(r.store)
  {
    hide Put, Next, TrimProjections, Triple;
    PutThird(p);
    EvictSecond(Put(p, 3));
    assert |{1, 2, 3}| == 3;
    ExecutedStep(p, {1, 2}, 3);
  }

  lemma EvictedAfter()
    ensures var p := After(First(1, TINY), Evicting()); Calm(p) && Evicted(p.store)
  {
    hide Fan, Next, After, Pair, Evicted, Executes;
    var a, b, c := Executes(2), OnValidated(0, 2, false), Executes(3);
    FirstFan(TINY);
    FanAdds(TINY, [], {1}, [Ticket(1, 1)], 2, [], [a], {1, 2}, [Ticket(1, 1), Ticket(2, 2)]);
    PromotedStep(After(First(1, TINY), [a]));
    AfterMore(First(1, TINY), [a], b);
    assert [a] + [b] == [a, b];
    ThirdStep(After(First(1, TINY), [a, b]));
    AfterMore(First(1, TINY), [a, b], c);
    assert [a, b] + [c] == Evicting();
  }

  lemma ExecutesIs(p: State, h: Hash)
    requires Calm(p)
    ensures var o := ProjectCandidate(Plain(), p, 0, Header(h), Plain().chain.delta(0, h), Executed, false, 0);
            Next(p, Executes(h)) == o.state.(broken := !o.ok)
  {
    hide ProjectCandidate;
  }

  /** A validated block without a projection, next to its parent's, is executed anew. */
  lemma FallsFrom(p: State)
    requires Calm(p) && Valid(Plain(), p) && Evicted(p.store)
    ensures var r := Next(p, Executes(2));
            !r.broken && 2 in r.store.candidates && r.store.candidates[2].stage == Executed
  {
    hide Next, ProjectCandidate, TrimProjections, Put, Valid;
    PutBack(p);
    ExecutedStep(p, {1, 2, 3}, 2);
    ExecutesIs(p, 2);
    StageFallsExactly(Plain(), p, 0, Header(2), 0);
  }

  /** Block 2 was validated; its projection is evicted, its execution event comes again, and it is only executed. */
  lemma StageFalls()
    ensures var p, r := After(First(1, TINY), Evicting()), After(First(1, TINY), Evicting() + [Executes(2)]);
            && !p.broken && 2 in p.store.candidates && p.store.candidates[2].stage == Validated
            && !r.broken && 2 in r.store.candidates && r.store.candidates[2].stage == Executed
  {
    hide Next, After, Valid, First;
    EvictedAfter();
    FirstValid(1, TINY);
    AfterValid(First(1, TINY), Evicting());
    FallsFrom(After(First(1, TINY), Evicting()));
    AfterMore(First(1, TINY), Evicting(), Executes(2));
  }

  // ----- A head that is rejected with its ancestor -----

  const ROOMY := Limits(4, 8, 10, 1)

  /** Block 2, block 6 over it, and a forkchoice that makes 6 the head. */
  function Heading(): seq<Command> {
    [Executes(2), Executes(6), Leads(6, None)]
  }

  /** Records 1 and 2, then 6, all held and none swept. */
  ghost predicate Climb(s: Store, known: set<Hash>) {
    && Simple(s, known) && s.limits == ROOMY && s.head == 1 && s.tombstones == {} && s.anchor == 1
    && s.projectionCount == |known| <= 3 && s.nextIncarnation > 1
    && (forall h :: h in known ==> Rung(s, h))
  }

  predicate Rung(s: Store, h: Hash) {
    Stored(s, h) && Held(s, h) && (h != 1 ==> s.candidates[h].stage == Executed && s.candidates[h].incarnation != 1)
  }

  lemma PutRung(p: State, known: set<Hash>, h: Hash)
    requires Climb(p.store, known) && h in {2, 6} && h !in known && |known| < 3
    ensures Climb(Put(p, h), known + {h})
  {
    hide Put, Header, Quiet, Rung;
    PutFields(p, h);
    assert |known + {h}| == |known| + 1 by { OneMore(known, h); }
    forall x | x in known + {h}
      ensures Rung(Put(p, h), x)
    {
      OneRung(p, h, x);
    }
  }

  lemma OneRung(p: State, h: Hash, x: Hash)
    requires h in {2, 6} && h !in p.store.candidates && Quiet(p.store) && p.store.nextIncarnation > 1
    requires x == h || Rung(p.store, x)
    ensures Rung(Put(p, h), x)
  {
    hide Put;
    PutEntry(p, h, x);
  }

  lemma ClimbStep(p: State, known: set<Hash>, h: Hash)
    requires Calm(p) && Climb(p.store, known) && h in {2, 6} && h !in known && Header(h).parent in known && |known| < 3
    ensures var r := Next(p, Executes(h)); Calm(r) && Climb(r.store, known + {h}) && SameShown(p, r)
  {
    hide Put, Next;
    PutRung(p, known, h);
    assert TrimProjections(Put(p, h)) == Trim(Put(p, h), [], true);
    assert MetadataLen(Put(p, h)) == |known + {h}|;
    assert Rung(p.store, Header(h).parent);
    assert forall x :: x in known ==> Rung(p.store, x);
    ExecutedStep(p, known, h);
  }

  /** What the rejection needs to know of the store: 2 is only executed and 6, which is not the anchor, is over it. */
  predicate Topped(s: Store) {
    && s.candidates.Keys == {1, 2, 6} && s.deferred == map[] && s.anchor == 1
    && s.candidates[2].stage == Executed && s.candidates[6].incarnation != 1
  }

  lemma LedIsTopped(s: Store, n: nat)
    requires Climb(s, {1, 2, 6})
    ensures Topped(Led(s, 6, n)) && Led(s, 6, n).head == 6
  {
    hide Led;
    assert Rung(s, 1) && Rung(s, 2) && Rung(s, 6);
    LedFields(s, 6, n);
  }

  lemma HeadStep(p: State)
    requires Calm(p) && Climb(p.store, {1, 2, 6}) && p.shared.published.canonical == Proj(1)
    ensures var r := Next(p, Leads(6, None)); Calm(r) && Topped(r.store) && r.store.head == 6
  {
    hide Topped, Next, Led;
    assert Rung(p.store, 6) && |{1, 2, 6}| == 3;
    var n := LeadStep(p, 6, None);
    LedIsTopped(p.store, n);
  }

  lemma ClimbedAfter()
    ensures var p := After(First(1, ROOMY), [Executes(2), Executes(6)]);
            Calm(p) && Climb(p.store, {1, 2, 6}) && p.shared.published.canonical == Proj(1)
  {
    hide Climb, Calm, Next, After, Executes, First, Proj;
    var p := First(1, ROOMY);
    FirstRung();
    AfterNone(p);
    var a, b := Executes(2), Executes(6);
    ClimbStep(p, {1}, 2);
    AfterMore(p, [], a);
    assert [] + [a] == [a] && {1} + {2} == {1, 2};
    ClimbStep(After(p, [a]), {1, 2}, 6);
    AfterMore(p, [a], b);
    assert [a] + [b] == [a, b] && {1, 2} + {6} == {1, 2, 6};
  }

  lemma HeadedAfter()
    ensures var p := After(First(1, ROOMY), Heading()); Calm(p) && Topped(p.store) && p.store.head == 6
  {
    hide Climb, Calm, Next, After, Executes, Topped, First, Proj, Leads;
    var climbed := [Executes(2), Executes(6)];
    ClimbedAfter();
    HeadStep(After(First(1, ROOMY), climbed));
    AfterMore(First(1, ROOMY), climbed, Leads(6, None));
    assert climbed + [Leads(6, None)] == Heading();
  }

  lemma FirstRung()
    ensures var p := First(1, ROOMY); Calm(p) && Climb(p.store, {1}) && p.shared.published.canonical == Proj(1)
  {
  }

  /** Block 2 is rejected, and the published head, block 6 over it, goes with it; nothing reports an error. */
  lemma RejectionTakesHead()
    ensures var p, r := After(First(1, ROOMY), Heading()), After(First(1, ROOMY), Heading() + [OnRejected(0, 2)]);
            && !p.broken && p.store.head == 6 && IsRecord(p.store, 6)
            && !r.broken && r.shared.published.canonical.block.hash == 6 && !IsRecord(r.store, 6)
  {
    hide After, Valid, First, Topped, Under, RemoveCandidateTree;
    HeadedAfter();
    FirstValid(1, ROOMY);
    AfterValid(First(1, ROOMY), Heading());
    AfterMore(First(1, ROOMY), Heading(), OnRejected(0, 2));
    var p := After(First(1, ROOMY), Heading());
    RejectedTop(p);
  }

  lemma SixUnderTwo(s: Store)
    requires Topped(s)
    ensures Under(Edges(Plain().chain, s), 2, 6)
  {
    assert Reaches(Edges(Plain().chain, s), 2, 6, 1);
  }

  lemma HeadIsCanonical(p: State)
    requires Valid(Plain(), p) && !p.broken
    ensures p.shared.published.canonical.block.hash == p.store.head
  {
  }

  lemma RejectedTop(p: State)
    requires !p.broken && Active(p) == 0 && Topped(p.store) && p.store.head == 6 && Valid(Plain(), p)
    ensures var r := Next(p, OnRejected(0, 2));
            && !r.broken && r.shared.published.canonical.block.hash == 6 && !IsRecord(r.store, 6)
            && IsRecord(p.store, 6)
  {
    hide Valid, Under, Edges, RemoveCandidateTree;
    HeadIsCanonical(p);
    SixUnderTwo(p.store);
    RejectionTakesHeadExactly(Plain(), p, 0, 2);
  }

  // ----- A head that is swept by a walk from before it was the head -----

  const OTHER := Some(Checkpoint(1, 99))

  /** Block 2 is executed, a block other than its parent is finalized, a walk from 2 comes to 1, and 2 becomes
      the head. */
  function Luring(): seq<Command> { [Executes(2), Leads(1, OTHER), OnTick([]), Leads(2, OTHER)] }

  /** Blocks 1 and 2 are held, and the sweep is this one. */
  ghost predicate Lure(s: Store, head: Hash, pending: seq<Ticket>, active: Option<Walk>) {
    && s.limits == ROOMY && s.head == head && s.deferred == map[] && s.candidates.Keys == {1, 2}
    && s.projectionCount == 2 && s.lastFinalized == OTHER && s.sweep == Some(Sweep(OTHER.value, pending, map[], active))
    && Stored(s, 1) && Stored(s, 2) && Holds(s, 1, 1) && Holds(s, 2, 2)
  }

  /** Blocks 1 and 2, as they come first. */
  ghost predicate Two(s: Store, limits: Limits) {
    && s.limits == limits && s.head == 1 && s.anchor == 1 && Quiet(s) && s.candidates.Keys == {1, 2}
    && s.projectionCount == 2 && s.nextIncarnation == 3 && s.tombstones == {}
    && s.metadataOrder == [Ticket(1, 1), Ticket(2, 2)] && s.projectionOrder == [Ticket(1, 1), Ticket(2, 2)]
    && Stored(s, 1) && Stored(s, 2) && Holds(s, 1, 1) && Holds(s, 2, 2) && s.candidates[2].stage == Executed
  }

  lemma PutSecond(p: State, limits: Limits)
    requires p == First(1, limits)
    ensures Two(Put(p, 2), limits)
  {
    hide Put;
    PutFields(p, 2);
    PutEntry(p, 2, 1);
    assert {1} + {2} == {1, 2};
  }

  lemma SecondStep(p: State, limits: Limits)
    requires p == First(1, limits) && limits in {TINY, ROOMY}
    ensures var r := Next(p, Executes(2)); Calm(r) && Two(r.store, limits) && r.shared.published.canonical == Proj(1)
  {
    hide Put, Next;
    PutSecond(p, limits);
    assert TrimProjections(Put(p, 2)) == Trim(Put(p, 2), [], true);
    assert |{1, 2}| == 2 && |{1}| == 1;
    ExecutedStep(p, {1}, 2);
  }

  /** One unit on the new sweep skips the head. */
  lemma NotedOther(s: Store)
    requires Two(s, ROOMY)
    ensures Lure(Noted(s, OTHER), 1, [Ticket(2, 2)], None)
  {
    var begun := BeginSweep(s, OTHER.value);
    assert SweepUnits(SweepUnit(begun).store, 0) == Slice(SweepUnit(begun).store, [], 0);
  }

  /** The next one starts a walk from block 2, which comes to block 1. */
  lemma SweptToParent(s: Store)
    requires Lure(s, 1, [Ticket(2, 2)], None)
    ensures Lure(ProcessFinality(s, 1).store, 1, [], Some(Walk(2, 2, 1, [2])))
  {
    assert SweepUnits(SweepUnit(s).store, 0) == Slice(SweepUnit(s).store, [], 0);
    assert [Ticket(2, 2)][1..] == [] && [] + [2] == [2];
  }

  lemma LedLure(s: Store, n: nat)
    requires Lure(s, 1, [], Some(Walk(2, 2, 1, [2])))
    ensures Lure(Led(s, 2, n), 2, [], Some(Walk(2, 2, 1, [2])))
  {
    hide Led;
    LedFields(s, 2, n);
  }

  lemma LuredTakes(s: Store)
    requires Lure(s, 2, [], Some(Walk(2, 2, 1, [2])))
    ensures SweepTakes(s, 1) && HeadHeld(s)
  {
  }

  ghost predicate LureAfter(cmds: seq<Command>, head: Hash, pending: seq<Ticket>, active: Option<Walk>) {
    var p := After(First(1, ROOMY), cmds);
    Calm(p) && p.shared.published.canonical == Proj(head) && Lure(p.store, head, pending, active)
  }

  lemma LureBegins()
    ensures LureAfter([Executes(2), Leads(1, OTHER)], 1, [Ticket(2, 2)], None)
  {
    hide Lure, Next, After, Executes, Leads, Noted;
    var p, a, b := First(1, ROOMY), Executes(2), Leads(1, OTHER);
    AfterNone(p);
    AfterMore(p, [], a);
    assert [] + [a] == [a];
    SecondStep(p, ROOMY);
    var _ := LeadStep(After(p, [a]), 1, OTHER);
    NotedOther(After(p, [a]).store);
    AfterMore(p, [a], b);
    assert [a] + [b] == [a, b];
  }

  lemma LureWalks()
    ensures LureAfter([Executes(2), Leads(1, OTHER), OnTick([])], 1, [], Some(Walk(2, 2, 1, [2])))
  {
    hide Next, After, Executes, Leads, ProcessFinality, Proj;
    var p, cmds := First(1, ROOMY), [Executes(2), Leads(1, OTHER)];
    LureBegins();
    TickStep(After(p, cmds));
    SweptToParent(After(p, cmds).store);
    AfterMore(p, cmds, OnTick([]));
    assert cmds + [OnTick([])] == [Executes(2), Leads(1, OTHER), OnTick([])];
  }

  lemma LureLeads()
    ensures LureAfter(Luring(), 2, [], Some(Walk(2, 2, 1, [2])))
  {
    hide Next, After, Executes, Leads, Led, Proj;
    var p, cmds := First(1, ROOMY), [Executes(2), Leads(1, OTHER), OnTick([])];
    LureWalks();
    assert |{1, 2}| == 2;
    var n := LeadStep(After(p, cmds), 2, OTHER);
    LedLure(After(p, cmds).store, n);
    AfterMore(p, cmds, Leads(2, OTHER));
    assert cmds + [Leads(2, OTHER)] == Luring();
  }

  /** One more tick finishes the walk at a block that conflicts, and the published head, its root, goes; nothing
      reports an error. */
  lemma SweepTakesHead()
    ensures var p, r := After(First(1, ROOMY), Luring()), After(First(1, ROOMY), Luring() + [OnTick([])]);
            && !p.broken && p.store.head == 2 && IsRecord(p.store, 2)
            && !r.broken && r.shared.published.canonical.block.hash == 2 && !IsRecord(r.store, 2)
  {
    hide Next, After, ProcessFinality, SweepTakes, Luring;
    var p := After(First(1, ROOMY), Luring());
    LureLeads();
    LuredTakes(p.store);
    SweepTakesHeadExactly(p.store, 1);
    TickStep(p);
    AfterMore(First(1, ROOMY), Luring(), OnTick([]));
  }

  // ----- A rejection the consumer cannot follow -----

  /** Blocks 2, 6 and 7 follow on one another, in a cache with room for two. */
  function Stacking(): seq<Command> { [Executes(2), Executes(6), Executes(7)] }

  /** Records with their incarnations, some of them held. */
  ghost predicate Stack(s: Store, known: set<Hash>, order: seq<Ticket>, count: nat, next: nat) {
    && Simple(s, known) && s.limits == TINY && s.head == 1 && s.anchor == 1 && s.tombstones == {}
    && s.projectionOrder == order && s.projectionCount == count && s.nextIncarnation == next
    && (forall h :: h in known ==> Stored(s, h) && s.candidates[h].incarnation == Born(h))
    && (2 in known ==> s.candidates[2].stage == Executed)
  }

  function Born(h: Hash): nat { if h <= 2 then h else if h == 6 then 3 else 4 }

  lemma PutOnStack(p: State, known: set<Hash>, order: seq<Ticket>, count: nat, h: Hash)
    requires Stack(p.store, known, order, count, Born(h)) && h in {6, 7} && h !in known && |known| < 4
    ensures Stack(Put(p, h), known + {h}, order + [Ticket(Born(h), h)], count + 1, Born(h) + 1)
    ensures forall x :: x in known ==> Held(Put(p, h), x) == Held(p.store, x)
    ensures Held(Put(p, h), h)
  {
    hide Put, Quiet;
    PutFields(p, h);
    OneMore(known, h);
    forall x | x in known + {h}
      ensures Stored(Put(p, h), x) && Put(p, h).candidates[x].incarnation == Born(x)
      ensures x in known ==> Held(Put(p, h), x) == Held(p.store, x)
      ensures Held(Put(p, h), h)
      ensures 2 in known ==> Put(p, h).candidates[2].stage == Executed
    {
      PutEntry(p, h, x);
      PutEntry(p, h, 2);
    }
    PutEntry(p, h, 2);
  }

  lemma TrimSix(s: Store)
    requires Stack(s, {1, 2, 6}, [Ticket(1, 1), Ticket(2, 2), Ticket(3, 6)], 3, 4)
    requires Held(s, 1) && Held(s, 2) && Held(s, 6)
    ensures var t := TrimProjections(s);
            && t.ok && Stack(t.store, {1, 2, 6}, [Ticket(3, 6), Ticket(1, 1)], 2, 4)
            && Held(t.store, 1) && !Held(t.store, 2) && Held(t.store, 6)
  {
    var q := s.projectionOrder;
    assert ProjectionVictim(s, q[1]) && !ProjectionVictim(s, q[0]);
    assert FirstProjectionVictim(s, q) == 1;
    assert HeadTicket(s) == q[0] && Position(q, q[0]) == 0;
    assert Scanned(q, 1, q[0]) == [Ticket(2, 2), Ticket(3, 6), Ticket(1, 1)];
    assert TrimProjections(s).store.candidates.Keys == {1, 2, 6};
  }

  lemma TrimSeven(s: Store)
    requires Stack(s, {1, 2, 6, 7}, [Ticket(3, 6), Ticket(1, 1), Ticket(4, 7)], 3, 5)
    requires Held(s, 1) && !Held(s, 2) && Held(s, 6) && Held(s, 7)
    ensures var t := TrimProjections(s);
            && t.ok && Stack(t.store, {1, 2, 6, 7}, [Ticket(1, 1), Ticket(4, 7)], 2, 5)
            && Held(t.store, 1) && !Held(t.store, 2) && !Held(t.store, 6) && Held(t.store, 7)
  {
    var q := s.projectionOrder;
    assert ProjectionVictim(s, q[0]);
    assert FirstProjectionVictim(s, q) == 0;
    assert HeadTicket(s) == q[1] && Position(q, q[1]) == 1;
    assert Scanned(q, 0, q[1])[1..] == [Ticket(1, 1), Ticket(4, 7)];
    assert TrimProjections(s).store.candidates.Keys == {1, 2, 6, 7};
  }

  lemma StackSix(p: State)
    requires Calm(p) && Two(p.store, TINY)
    ensures var r := Next(p, Executes(6));
            && Calm(r) && Stack(r.store, {1, 2, 6}, [Ticket(3, 6), Ticket(1, 1)], 2, 4)
            && Held(r.store, 1) && !Held(r.store, 2) && Held(r.store, 6)
  {
    hide Put, Next, TrimProjections;
    assert |{1, 2}| == 2 && |{1, 2, 6}| == 3;
    PutOnStack(p, {1, 2}, [Ticket(1, 1), Ticket(2, 2)], 2, 6);
    assert {1, 2} + {6} == {1, 2, 6};
    TrimSix(Put(p, 6));
    ExecutedStep(p, {1, 2}, 6);
  }

  lemma StackSeven(p: State)
    requires Calm(p) && Stack(p.store, {1, 2, 6}, [Ticket(3, 6), Ticket(1, 1)], 2, 4)
    requires Held(p.store, 1) && !Held(p.store, 2) && Held(p.store, 6)
    ensures var r := Next(p, Executes(7));
            && Calm(r) && Stack(r.store, {1, 2, 6, 7}, [Ticket(1, 1), Ticket(4, 7)], 2, 5)
            && Held(r.store, 1) && !Held(r.store, 2) && !Held(r.store, 6) && Held(r.store, 7)
  {
    hide Put, Next, TrimProjections;
    assert |{1, 2, 6}| == 3 && |{1, 2, 6, 7}| == 4;
    PutOnStack(p, {1, 2, 6}, [Ticket(3, 6), Ticket(1, 1)], 2, 7);
    assert {1, 2, 6} + {7} == {1, 2, 6, 7};
    TrimSeven(Put(p, 7));
    ExecutedStep(p, {1, 2, 6}, 7);
  }

  lemma StackedAfter()
    ensures var p := After(First(1, TINY), Stacking());
            && Calm(p) && Stack(p.store, {1, 2, 6, 7}, [Ticket(1, 1), Ticket(4, 7)], 2, 5)
            && Held(p.store, 1) && !Held(p.store, 2) && !Held(p.store, 6) && Held(p.store, 7)
  {
    hide Stack, Two, Calm, Next, After, Executes;
    var p, a, b, c := First(1, TINY), Executes(2), Executes(6), Executes(7);
    AfterNone(p);
    SecondStep(p, TINY);
    AfterMore(p, [], a);
    assert [] + [a] == [a];
    StackSix(After(p, [a]));
    AfterMore(p, [a], b);
    assert [a] + [b] == [a, b];
    StackSeven(After(p, [a, b]));
    AfterMore(p, [a, b], c);
    assert [a, b] + [c] == Stacking();
  }

  /** What a consumer that saw every frame retains. */
  ghost function KeptBy(p: State): R.Kept { R.Retained(map[1 := 0], p.shared.calls) }

  lemma AgreesBefore()
    ensures R.Agreement(Plain(), {}, map[1 := 0], After(First(1, TINY), Stacking()))
  {
    hide Run, Step, Valid, R.Spoiled, R.Agreement, CommandTrue, Stacking;
    FirstValid(1, TINY);
    R.NothingSpoiled(Plain().chain, 1);
    R.StartAgrees(Plain(), {}, TINY, 0, Loaded(1, View(Checkpoint(1, 1), None, None), 0), 0);
    StackingTrue();
    R.RunAgrees(Plain(), {}, map[1 := 0], First(1, TINY), Turns(Stacking()));
  }

  lemma StackingTrue()
    ensures forall i :: 0 <= i < |Stacking()| ==>
              CommandTrue(Plain(), Stacking()[i]) && R.Honest(Plain(), {}, Stacking()[i])
  {
  }

  /** Before the rejection both sides have the same blocks, and the consumer knows their parents. */
  lemma EvenBefore(p: State)
    requires !p.broken && R.Agreement(Plain(), {}, map[1 := 0], p)
    ensures R.Even(KeptBy(p), p.store) && forall h :: h in KeptBy(p) ==> KeptBy(p)[h] == Header(h).parent
  {
    hide R.Spoiled, R.Retained, R.AnchorClean;
    forall h: Hash
      ensures !R.Spoiled(Plain().chain, {}, h)
    {
      R.NothingSpoiled(Plain().chain, h);
    }
  }

  /** Six was evicted, so the consumer does not trace seven to two. */
  lemma NotTraced(kept: R.Kept)
    requires 7 in kept && kept[7] == 6 && 6 !in kept
    ensures !Under(kept, 2, 7)
  {
    forall k: nat
      ensures !Reaches(kept, 2, 7, k)
    {
      if k > 1 {
        assert !Reaches(kept, 2, 6, k - 1);
      }
    }
  }

  lemma SevenUnderTwo(s: Store)
    requires Stack(s, {1, 2, 6, 7}, [Ticket(1, 1), Ticket(4, 7)], 2, 5)
    ensures Under(Edges(Plain().chain, s), 2, 7)
  {
    var edges := Edges(Plain().chain, s);
    assert Reaches(edges, 2, 6, 1);
    assert Reaches(edges, 2, 7, 2);
  }

  lemma StackRejects(p: State)
    requires Calm(p) && Valid(Plain(), p) && Stack(p.store, {1, 2, 6, 7}, [Ticket(1, 1), Ticket(4, 7)], 2, 5)
    ensures Rejectable(p.store, 2) && p.store.head != 2
    ensures Good(Plain().chain, 0, p.store) && Bounded(p.store)
  {
    hide SharedTrue, Good, Bounded;
  }

  lemma RejectedStack(p: State)
    requires Calm(p) && Valid(Plain(), p) && Stack(p.store, {1, 2, 6, 7}, [Ticket(1, 1), Ticket(4, 7)], 2, 5)
    ensures var r := Next(p, OnRejected(0, 2));
            Calm(r) && !IsRecord(r.store, 7) && KeptBy(r) == R.WithoutSubtree(KeptBy(p), 2)
  {
    hide Valid, Good, Bounded, Stack, RemoveCandidateTree, Under, R.Retained, Edges, R.WithoutSubtree;
    StackRejects(p);
    SevenUnderTwo(p.store);
    RemoveTreeGood(Plain().chain, 0, p.store, 2);
    R.RetainedSend(map[1 := 0], Plain(), p, 0, BlockRejected(2), None);
  }

  /** Block 2 is rejected. The publisher forgets 7 with it. The consumer, which was told to forget 6, keeps 7. */
  lemma ConsumerKeepsMore()
    ensures var p, r := After(First(1, TINY), Stacking()), After(First(1, TINY), Stacking() + [OnRejected(0, 2)]);
            && !p.broken && R.Even(KeptBy(p), p.store)
            && !r.broken && 7 in KeptBy(r) && !IsRecord(r.store, 7)
  {
    hide After, Next, Valid, KeptBy, Stacking, Under, First, CommandTrue, R.Agreement;
    var p := After(First(1, TINY), Stacking());
    StackedAfter();
    AgreesBefore();
    EvenBefore(p);
    FirstValid(1, TINY);
    StackingTrue();
    AfterValid(First(1, TINY), Stacking());
    assert Tracked(p.store, 7) && !Tracked(p.store, 6) by { TrackedIsHeldIn(p); }
    NotTraced(KeptBy(p));
    RejectedStack(p);
    AfterMore(First(1, TINY), Stacking(), OnRejected(0, 2));
  }

  lemma TrackedIsHeldIn(p: State)
    requires Valid(Plain(), p)
    ensures forall h :: Tracked(p.store, h) <==> Held(p.store, h)
  {
  }
}

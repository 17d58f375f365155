/** A run in which a sweep spares a record that conflicted when it began: the tombstone that condemned it ages out
    while the sweep buries another record. */
module SparedRuns {
  import opened Types
  import opened Sequences
  import opened Store
  import opened Finality
  import opened FinalityComplete
  import opened Publisher
  import opened PlainRuns
  import opened EdgeRuns

  /** Three records and three tombstones at most. */
  const SMALL := Limits(3, 3, 10, 10)

  const ELSEWHERE := Checkpoint(1, 99)

  /** Blocks 2, 3 and 4 are rejected, block 5 becomes the head, and block 6, a child of block 2, has to wait. */
  function Burying(): seq<Command> {
    Wearing() + [OnRejected(0, 4), Executes(5), Leads(5, None), Executes(6)]
  }

  /** Block 1 and its child 5, which is the head, and three tombstones. */
  ghost predicate Grave(s: Store) {
    && s.limits == SMALL && s.head == 5 && s.candidates.Keys == {1, 5} && Stored(s, 1) && Stored(s, 5)
    && Holds(s, 1, 1) && Holds(s, 5, 5) && s.nextIncarnation == 6 && s.projectionCount == 2
    && s.metadataOrder == [Ticket(1, 1), Ticket(2, 2), Ticket(3, 3), Ticket(4, 4), Ticket(5, 5)]
    && s.tombstoneOrder == [2, 3, 4] && s.tombstones == {2, 3, 4} && s.sweep.None? && s.lastFinalized.None?
  }

  lemma GraveFan()
    ensures FanAfter(SMALL, Wearing() + [OnRejected(0, 4), Executes(5)], {1, 5},
                     [Ticket(1, 1), Ticket(2, 2), Ticket(3, 3), Ticket(4, 4), Ticket(5, 5)], 6, [2, 3, 4])
  {
    hide FanAfter, Executes;
    var order := [Ticket(1, 1), Ticket(2, 2), Ticket(3, 3), Ticket(4, 4)];
    WornFan(SMALL);
    FanDrops(SMALL, Wearing(), {1, 4}, order, 5, [2, 3], 4, Wearing() + [OnRejected(0, 4)], {1}, [2, 3, 4]);
    assert Wearing() + [OnRejected(0, 4), Executes(5)] == Wearing() + [OnRejected(0, 4)] + [Executes(5)];
    FanAdds(SMALL, Wearing() + [OnRejected(0, 4)], {1}, order, 5, [2, 3, 4],
            Wearing() + [OnRejected(0, 4), Executes(5)], {1, 5}, order + [Ticket(5, 5)]);
    assert order + [Ticket(5, 5)] == [Ticket(1, 1), Ticket(2, 2), Ticket(3, 3), Ticket(4, 4), Ticket(5, 5)];
  }

  lemma GraveHead(p: State)
    requires Calm(p) && SharesHead(p) && p.store.limits == SMALL
    requires Fan(p.store, {1, 5}, [Ticket(1, 1), Ticket(2, 2), Ticket(3, 3), Ticket(4, 4), Ticket(5, 5)], 6, [2, 3, 4])
    ensures var r := Next(p, Leads(5, None)); Calm(r) && SharesHead(r) && Grave(r.store) && r.store.deferred == map[]
  {
    hide Next, Led;
    assert Leaf(p.store, 1) && Leaf(p.store, 5);
    assert Elements([2, 3, 4]) == {2, 3, 4};
    assert |{1, 5}| == 2;
    var n := LeadStep(p, 5, None);
    LedFields(p.store, 5, n);
  }

  /** Block 6 is filed to wait. */
  lemma SixWaits(p: State)
    requires Calm(p) && SharesHead(p) && Grave(p.store) && p.store.deferred == map[]
    ensures var r := Next(p, Executes(6));
            && Calm(r) && SharesHead(r) && r.store == PutDeferred(p.store, Header(6), [], 0)
  {
    hide PutDeferred;
    var put := PutDeferred(p.store, Header(6), [], 0);
    SixFields(p.store);
    assert |put.candidates.Keys| == 2 && |put.deferred.Keys| == 1;
    NoneRetired(p.shared);
  }

  lemma SixFields(s: Store)
    requires Grave(s) && s.deferred == map[]
    ensures Tomb(PutDeferred(s, Header(6), [], 0))
  {
  }

  /** The grave, and block 6 in it. */
  ghost predicate Tomb(s: Store) {
    && s.limits == SMALL && s.head == 5 && s.candidates.Keys == {1, 5} && Stored(s, 1) && Stored(s, 5)
    && Holds(s, 1, 1) && Holds(s, 5, 5)
    && s.deferred.Keys == {6} && s.deferred[6].block == Header(6) && s.deferred[6].incarnation == 6
    && s.metadataOrder == [Ticket(1, 1), Ticket(2, 2), Ticket(3, 3), Ticket(4, 4), Ticket(5, 5), Ticket(6, 6)]
    && s.tombstoneOrder == [2, 3, 4] && s.tombstones == {2, 3, 4} && s.sweep.None? && s.lastFinalized.None?
  }

  // ----- The sweep -----

  /** What is left once block 1 is buried: its tombstone has pushed out that of block 2. */
  ghost predicate Pushed(s: Store, pending: seq<Ticket>) {
    && s.head == 5 && s.candidates.Keys == {5} && Holds(s, 5, 5)
    && s.deferred.Keys == {6} && s.deferred[6].block == Header(6) && s.deferred[6].incarnation == 6
    && s.tombstones == {3, 4, 1} && s.lastFinalized == Some(ELSEWHERE)
    && s.sweep == Some(Sweep(ELSEWHERE, pending, map[1 := Conflict], None))
  }

  lemma FirstConflicts(s: Store)
    requires Tomb(s)
    ensures var begun := BeginSweep(s, ELSEWHERE);
            var rest := Sweep(ELSEWHERE, s.metadataOrder[1..], map[], None);
            Busy(begun) && SweepUnit(begun) == Settle(begun, rest, Walk(1, 1, 1, []), Conflict)
  {
    hide Settle;
    assert Stored(s, 1);
  }

  lemma FirstIsBuried(s: Store)
    requires Tomb(s)
    ensures var begun := BeginSweep(s, ELSEWHERE);
            Busy(begun) && Pushed(SweepUnit(begun).store,
                                  [Ticket(2, 2), Ticket(3, 3), Ticket(4, 4), Ticket(5, 5), Ticket(6, 6)])
  {
    hide RemoveOne, SweepUnit, Memoised;
    var begun, rest := BeginSweep(s, ELSEWHERE), Sweep(ELSEWHERE, s.metadataOrder[1..], map[], None);
    FirstConflicts(s);
    assert Memoised(map[], Walk(1, 1, 1, []), Conflict) == map[1 := Conflict] by { OneVerdict(); }
    OneIsBuried(begun.(sweep := Some(rest.(verdicts := map[1 := Conflict]))));
  }

  lemma OneVerdict()
    ensures Memoised(map[], Walk(1, 1, 1, []), Conflict) == map[1 := Conflict]
  {
  }

  lemma OneIsBuried(s: Store)
    requires s.tombstoneOrder == [2, 3, 4] && s.tombstones == {2, 3, 4} && s.limits == SMALL
    ensures var r := RemoveOne(s, 1, true);
            && r.candidates == s.candidates - {1} && r.deferred == s.deferred - {1} && r.tombstones == {3, 4, 1}
            && r.head == s.head && r.sweep == s.sweep && r.lastFinalized == s.lastFinalized
  {
    assert |{2, 3, 4} + {1}| == 4 && {2, 3, 4} + {1} - {2} == {3, 4, 1};
  }

  /** Stale tickets and the head are passed over. */
  lemma PassesOver(s: Store, t: Ticket, rest: seq<Ticket>)
    requires Pushed(s, [t] + rest) && t.hash != 6
    ensures Busy(s) && Pushed(SweepUnit(s).store, rest)
  {
    hide Examine;
    assert Skipped(s, t);
    assert ([t] + rest)[1..] == rest;
  }

  /** Nothing is known of block 6 any more, and it stays. */
  lemma SixIsSpared(s: Store)
    requires Pushed(s, [Ticket(6, 6)])
    ensures Busy(s) && Pushed(SweepUnit(s).store, [])
  {
    hide RemoveOne, AdvanceWalk, Skipped;
    assert [Ticket(6, 6)][1..] == [];
    SixIsUnknown(s);
  }

  lemma SixIsUnknown(s: Store)
    requires Pushed(s, [Ticket(6, 6)])
    ensures AdvanceWalk(s, Walk(6, 6, 6, []), ELSEWHERE) == Settled(Unknown) && !Skipped(s, Ticket(6, 6))
  {
  }

  lemma SixStays(s: Store)
    requires Tomb(s)
    ensures var r := Noted(s, Some(ELSEWHERE));
            r.sweep.None? && 6 in r.deferred && !IsRecord(r, 1) && r.lastFinalized == Some(ELSEWHERE)
  {
    hide SweepUnit, BeginSweep, Pushed;
    var s0 := BeginSweep(s, ELSEWHERE);
    FirstIsBuried(s);
    var t2, t3, t4, t5, t6 := Ticket(2, 2), Ticket(3, 3), Ticket(4, 4), Ticket(5, 5), Ticket(6, 6);
    var s1 := SweepUnit(s0).store;
    assert [t2, t3, t4, t5, t6] == [t2] + [t3, t4, t5, t6] && [t3, t4, t5, t6] == [t3] + [t4, t5, t6]
           && [t4, t5, t6] == [t4] + [t5, t6] && [t5, t6] == [t5] + [t6];
    PassesOver(s1, t2, [t3, t4, t5, t6]);
    var s2 := SweepUnit(s1).store;
    PassesOver(s2, t3, [t4, t5, t6]);
    var s3 := SweepUnit(s2).store;
    PassesOver(s3, t4, [t5, t6]);
    var s4 := SweepUnit(s3).store;
    PassesOver(s4, t5, [t6]);
    var s5 := SweepUnit(s4).store;
    SixIsSpared(s5);
    var s6 := SweepUnit(s5).store;
    PushedEnds(s6);
    assert SweepUnits(s6, 4).store == s6;
    assert SweepUnits(s5, 5).store == s6;
    assert SweepUnits(s4, 6).store == s6;
    assert SweepUnits(s3, 7).store == s6;
    assert SweepUnits(s2, 8).store == s6;
    assert SweepUnits(s1, 9).store == s6;
    assert SweepUnits(s0, 10).store == s6;
  }

  lemma PushedEnds(s: Store)
    requires Pushed(s, [])
    ensures !Busy(s) && 6 in s.deferred && !IsRecord(s, 1) && s.lastFinalized == Some(ELSEWHERE)
  {
  }

  /** When the sweep began, block 6 hung under a tombstone. */
  lemma SixConflicts(s: Store)
    requires Tomb(s)
    ensures Conflicted(s, ELSEWHERE, 6) && !Roomy(s)
  {
    assert s.tombstoneOrder[0] == 2;
    assert ConflictsIn(s, 3, map[], ELSEWHERE, 6, 1);
    assert |s.candidates.Keys| == 2 && |s.deferred.Keys| == 1;
  }

  lemma TombAfter()
    ensures var p := After(First(1, SMALL), Burying()); Calm(p) && SharesHead(p) && Tomb(p.store)
  {
    hide Next, After, Fan, Tomb, Grave, PutDeferred;
    var p, a, b := First(1, SMALL), Wearing() + [OnRejected(0, 4), Executes(5)], Leads(5, None);
    GraveFan();
    GraveHead(After(p, a));
    AfterMore(p, a, b);
    SixWaits(After(p, a + [b]));
    SixFields(After(p, a + [b]).store);
    AfterMore(p, a + [b], Executes(6));
    assert Burying() == a + [b] + [Executes(6)];
  }

  /** A finalized checkpoint beside block 1. Block 6 conflicts with it by the tombstone of its parent when the sweep
      begins; burying block 1 pushes that tombstone out, and once the sweep has nothing left to do block 6 is still
      there. No error is pending. */
  lemma AgedTombstoneSpares()
    ensures var p := After(First(1, SMALL), Burying());
            var r := After(First(1, SMALL), Burying() + [Leads(5, Some(ELSEWHERE))]);
            && !p.broken && p.store.head == 5 && Conflicted(p.store, ELSEWHERE, 6) && !Roomy(p.store)
            && !r.broken && r.store.sweep.None? && r.store.lastFinalized == Some(ELSEWHERE)
            && IsRecord(p.store, 1) && !IsRecord(r.store, 1) && IsRecord(p.store, 6) && IsRecord(r.store, 6)
  {
    hide Next, After, Noted;
    TombAfter();
    var p := After(First(1, SMALL), Burying());
    SixConflicts(p.store);
    SixStays(p.store);
    var n := LeadStep(p, 5, Some(ELSEWHERE));
    AfterMore(First(1, SMALL), Burying(), Leads(5, Some(ELSEWHERE)));
  }
}

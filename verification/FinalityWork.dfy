/** How much work a sweep takes, and how much it remembers: always bounded, and linear while no walk ends
    unclassified. */
module FinalityWork {
  import opened Types
  import opened Sequences
  import opened Chain
  import opened Store
  import opened StoreInvariants
  import opened Finality
  import opened FinalitySound

  // ----- Work, while every walk is classified -----

  /** Records no verdict or walk has reached yet. */
  ghost function Unreached(s: Store, sweep: Sweep): set<Hash> {
    set h | h in s.candidates.Keys + s.deferred.Keys && h !in sweep.verdicts
            && !(sweep.active.Some? && h in sweep.active.value.path)
  }

  /** Units of budget a sweep can still use up, as long as no walk ends unclassified. */
  ghost function WorkLeft(s: Store): nat
    requires s.sweep.Some?
  {
    |s.sweep.value.pending| + (if s.sweep.value.active.Some? then 1 else 0) + |Unreached(s, s.sweep.value)|
  }

  lemma SettleWork(s: Store, sweep: Sweep, w: Walk, verdict: Verdict)
    requires sweep.active.None? && verdict != Unknown
    ensures var r := Settle(s, sweep, w, verdict).store;
            r.sweep.Some? && r.sweep.value.pending == sweep.pending && r.sweep.value.active.None?
            && Unreached(r, r.sweep.value) <= Unreached(s, sweep.(active := Some(w)))
  {
    hide RemoveOne;
    var noted := s.(sweep := Some(sweep.(verdicts := Memoised(sweep.verdicts, w, verdict), active := None)));
    RemoveOneFields(noted, w.root);
  }

  /** A walk never meets a block twice: numbers fall by one at each edge. */
  lemma {:induction false} CurrentNotOnPath(c: Chain, finalized: Checkpoint, w: Walk, i: nat)
    requires WalkSound(c, finalized, w) && i <= |w.path|
    ensures Number(c, (w.path + [w.current])[i]) == Number(c, w.current) + |w.path| - i
    decreases |w.path| - i
  {
    if i < |w.path| {
      CurrentNotOnPath(c, finalized, w, i + 1);
    }
  }

  lemma MoveWork(c: Chain, s: Store, sweep: Sweep, w: Walk, w': Walk)
    requires WalkSound(c, sweep.checkpoint, w) && IsRecord(s, w.current) && w.current !in sweep.verdicts
    requires w'.path == w.path + [w.current]
    ensures Unreached(s, sweep.(active := Some(w'))) < Unreached(s, sweep.(active := Some(w)))
  {
    forall i | 0 <= i < |w.path|
      ensures w.path[i] != w.current
    {
      CurrentNotOnPath(c, sweep.checkpoint, w, i);
    }
    assert w.current in Unreached(s, sweep.(active := Some(w)));
    assert w.current !in Unreached(s, sweep.(active := Some(w')));
  }

  lemma ExamineWork(c: Chain, s: Store, sweep: Sweep, w: Walk)
    requires WellFormed(c) && Inv(c, s) && sweep.active.None? && WalkSound(c, sweep.checkpoint, w)
    requires VerdictsSound(c, sweep.checkpoint, s.terminal, sweep.verdicts)
    requires !Examine(s, sweep, w).unknown
    ensures var r := Examine(s, sweep, w).store;
            r.sweep.Some? && WorkLeft(r) <= |sweep.pending| + |Unreached(s, sweep.(active := Some(w)))|
  {
    hide Inv, Settle, AdvanceWalk, Unreached;
    var before := Unreached(s, sweep.(active := Some(w)));
    var r := Examine(s, sweep, w).store;
    if w.current in sweep.verdicts {
      SettleWork(s, sweep, w, sweep.verdicts[w.current]);
      SmallerSet(Unreached(r, r.sweep.value), before);
    } else {
      InvParts(c, s);
      AdvanceSound(c, s, w, sweep.checkpoint);
      match AdvanceWalk(s, w, sweep.checkpoint)
      case Settled(v) =>
        assert v != Unknown by { UnknownIsReported(s, sweep, w, v); }
        SettleWork(s, sweep, w, v);
        SmallerSet(Unreached(r, r.sweep.value), before);
      case Moved(w') =>
        MoveWork(c, s, sweep, w, w');
        SameUnreached(s, r, sweep.(active := Some(w')));
        StrictlySmallerSet(Unreached(r, r.sweep.value), before);
    }
  }

  lemma UnknownIsReported(s: Store, sweep: Sweep, w: Walk, verdict: Verdict)
    requires !Settle(s, sweep, w, verdict).unknown
    ensures verdict != Unknown
  {
  }

  lemma SameUnreached(s: Store, r: Store, sweep: Sweep)
    requires r.candidates == s.candidates && r.deferred == s.deferred
    ensures Unreached(r, sweep) == Unreached(s, sweep)
  {
  }

  lemma StrictlySmallerSet(a: set<Hash>, b: set<Hash>)
    requires a < b
    ensures |a| < |b|
  {
    assert b == a + (b - a);
  }

  /** A unit that does not end a walk unclassified uses up some of the work left. */
  lemma UnitWork(c: Chain, s: Store)
    requires Ready(c, s) && Busy(s) && !SweepUnit(s).unknown
    ensures SweepUnit(s).store.sweep.Some? && WorkLeft(SweepUnit(s).store) < WorkLeft(s)
  {
    hide Inv, Examine, Unreached;
    var sweep := s.sweep.value;
    if sweep.active.Some? {
      ExamineWork(c, s, sweep.(active := None), sweep.active.value);
      assert sweep.(active := None).(active := Some(sweep.active.value)) == sweep;
    } else {
      var t := sweep.pending[0];
      var rest := sweep.(pending := sweep.pending[1..]);
      if Skipped(s, t) {
        UnreachedPending(s, SweepUnit(s).store, sweep, rest);
      } else {
        var w := Walk(t.incarnation, t.hash, t.hash, []);
        ExamineWork(c, s, rest, w);
        UnreachedPending(s, s, sweep, rest.(active := Some(w)));
      }
    }
  }

  lemma UnreachedPending(s: Store, r: Store, a: Sweep, b: Sweep)
    requires r.candidates == s.candidates && r.deferred == s.deferred
    requires a.verdicts == b.verdicts && a.active.None? && (b.active.None? || b.active.value.path == [])
    ensures Unreached(r, b) == Unreached(s, a)
  {
  }

  predicate NoUnknown(s: Store, budget: nat)
    decreases budget
  {
    budget == 0 || !Busy(s) || (!SweepUnit(s).unknown && NoUnknown(SweepUnit(s).store, budget - 1))
  }

  lemma {:induction false} SweepDrainsWithin(c: Chain, s: Store, budget: nat)
    requires Ready(c, s) && s.sweep.Some? && NoUnknown(s, budget) && budget >= WorkLeft(s)
    ensures !Busy(SweepUnits(s, budget).store)
    decreases budget
  {
    hide Inv, SweepUnit, WorkLeft, SweepSound;
    if Busy(s) {
      assert WorkLeft(s) > 0 by { BusyHasWork(s); }
      UnitWork(c, s);
      UnitKeeps(c, s);
      SweepDrainsWithin(c, SweepUnit(s).store, budget - 1);
    }
  }

  lemma BusyHasWork(s: Store)
    requires Busy(s)
    ensures WorkLeft(s) > 0
  {
  }

  /** While no walk ends unclassified, a unit for each ticket, each record and a walk under way suffices. */
  lemma LinearBound(c: Chain, s: Store, budget: nat)
    requires Ready(c, s) && s.sweep.Some? && NoUnknown(s, budget)
    requires budget >= |s.sweep.value.pending| + MetadataLen(s) + (if s.sweep.value.active.Some? then 1 else 0)
    ensures ProcessFinality(s, budget).store.sweep.None?
  {
    hide Inv;
    SmallerSet(Unreached(s, s.sweep.value), Records(s));
    RecordsSize(s);
    SweepDrainsWithin(c, s, budget);
  }

  /** Each unit brings a walk one block closer to the finalized height, or ends it. */
  lemma WalkFalls(c: Chain, s: Store)
    requires Ready(c, s) && s.sweep.Some? && s.sweep.value.active.Some?
    ensures var w := s.sweep.value.active.value;
            var r := SweepUnit(s).store.sweep;
            r.Some? && (r.value.active.Some? ==>
                          && r.value.active.value.root == w.root
                          && Number(c, r.value.active.value.current) + 1 == Number(c, w.current)
                          && s.sweep.value.checkpoint.number <= Number(c, r.value.active.value.current))
  {
    hide Inv, RemoveOne, Memoised;
    var sweep := s.sweep.value.(active := None);
    var w := s.sweep.value.active.value;
    InvParts(c, s);
    AdvanceSound(c, s, w, sweep.checkpoint);
    forall noted: Store
      ensures RemoveOne(noted, w.root, true).sweep == noted.sweep
    {
      RemoveOneFields(noted, w.root);
    }
    match AdvanceWalk(s, w, sweep.checkpoint)
    case Settled(_) =>
    case Moved(w') => assert w'.path[|w.path|] == w.current;
  }

  // ----- Work, in every case -----

  ghost function Records(s: Store): set<Hash> { s.candidates.Keys + s.deferred.Keys }

  /** Records a walk has not met yet. */
  ghost function Unmet(s: Store, w: Walk): set<Hash> { set h | h in Records(s) && h !in w.path }

  function Times(a: nat, b: nat): nat { a * b }

  /** Units of budget a sweep can still use up, whatever its walks find. */
  ghost function Toil(s: Store): nat
    requires s.sweep.Some?
  {
    Times(|s.sweep.value.pending|, |Records(s)| + 1)
    + (if s.sweep.value.active.Some? then |Unmet(s, s.sweep.value.active.value)| + 1 else 0)
  }

  lemma TimesLess(a: nat, b: nat, x: nat, y: nat)
    requires a <= b && x <= y
    ensures Times(a, x) <= Times(b, y)
  {
    assert b * y == a * x + a * (y - x) + (b - a) * y;
  }

  lemma TimesOne(a: nat, x: nat)
    ensures Times(a + 1, x) == Times(a, x) + x
  {
  }

  lemma SettleRests(s: Store, sweep: Sweep, w: Walk, verdict: Verdict)
    requires sweep.active.None?
    ensures var r := Settle(s, sweep, w, verdict).store;
            && r.sweep.Some? && r.sweep.value.pending == sweep.pending && r.sweep.value.active.None?
            && Records(r) <= Records(s)
  {
    hide RemoveOne;
    var noted := s.(sweep := Some(sweep.(verdicts := Memoised(sweep.verdicts, w, verdict), active := None)));
    RemoveOneFields(noted, w.root);
  }

  /** An examined walk ends, or goes on past one more record. */
  lemma ExamineToils(c: Chain, s: Store, sweep: Sweep, w: Walk)
    requires WellFormed(c) && Inv(c, s) && sweep.active.None? && WalkSound(c, sweep.checkpoint, w)
    ensures var r := Examine(s, sweep, w).store;
            && r.sweep.Some? && r.sweep.value.pending == sweep.pending && Records(r) <= Records(s)
            && (r.sweep.value.active.Some? ==> Unmet(r, r.sweep.value.active.value) < Unmet(s, w))
  {
    hide Inv, Settle, AdvanceWalk;
    if w.current in sweep.verdicts {
      SettleRests(s, sweep, w, sweep.verdicts[w.current]);
    } else {
      InvParts(c, s);
      AdvanceSound(c, s, w, sweep.checkpoint);
      match AdvanceWalk(s, w, sweep.checkpoint)
      case Settled(v) => SettleRests(s, sweep, w, v);
      case Moved(w') =>
        forall i | 0 <= i < |w.path|
          ensures w.path[i] != w.current
        {
          CurrentNotOnPath(c, sweep.checkpoint, w, i);
        }
        assert w.current in Unmet(s, w) && w.current !in Unmet(s, w');
    }
  }

  lemma ToilAfter(s: Store, r: Store, sweep: Sweep, left: nat)
    requires r.sweep.Some? && r.sweep.value.pending == sweep.pending && Records(r) <= Records(s)
    requires r.sweep.value.active.Some? ==> |Unmet(r, r.sweep.value.active.value)| < left
    ensures Toil(r) <= Times(|sweep.pending|, |Records(s)| + 1) + left
  {
    hide Unmet, Times, Records;
    SmallerSet(Records(r), Records(s));
    TimesLess(|sweep.pending|, |sweep.pending|, |Records(r)| + 1, |Records(s)| + 1);
  }

  lemma UnitToils(c: Chain, s: Store)
    requires Ready(c, s) && Busy(s)
    ensures SweepUnit(s).store.sweep.Some? && Toil(SweepUnit(s).store) < Toil(s)
  {
    hide Inv, Examine, Unmet, Records, Times;
    var sweep, r := s.sweep.value, SweepUnit(s).store;
    if sweep.active.Some? {
      var w := sweep.active.value;
      ExamineToils(c, s, sweep.(active := None), w);
      if r.sweep.value.active.Some? {
        StrictlySmallerSet(Unmet(r, r.sweep.value.active.value), Unmet(s, w));
      }
      ToilAfter(s, r, sweep, |Unmet(s, w)|);
    } else {
      var t, rest := sweep.pending[0], sweep.(pending := sweep.pending[1..]);
      TimesOne(|rest.pending|, |Records(s)| + 1);
      if Skipped(s, t) {
        assert Records(r) == Records(s) by { SameRecords(s, r); }
      } else {
        var w := Walk(t.incarnation, t.hash, t.hash, []);
        ExamineToils(c, s, rest, w);
        assert |Unmet(s, w)| <= |Records(s)| by { UnmetIsRecord(s, w); }
        if r.sweep.value.active.Some? {
          StrictlySmallerSet(Unmet(r, r.sweep.value.active.value), Unmet(s, w));
        }
        ToilAfter(s, r, rest, |Unmet(s, w)|);
      }
    }
  }

  lemma SameRecords(s: Store, r: Store)
    requires r.candidates == s.candidates && r.deferred == s.deferred
    ensures Records(r) == Records(s)
  {
  }

  lemma UnmetIsRecord(s: Store, w: Walk)
    ensures |Unmet(s, w)| <= |Records(s)|
  {
    SmallerSet(Unmet(s, w), Records(s));
  }

  lemma {:induction false} ToilsWithin(c: Chain, s: Store, budget: nat)
    requires Ready(c, s) && s.sweep.Some? && budget >= Toil(s)
    ensures !Busy(SweepUnits(s, budget).store)
    decreases budget
  {
    hide Inv, SweepUnit, Toil, SweepSound;
    if Busy(s) {
      UnitToils(c, s);
      UnitKeeps(c, s);
      ToilsWithin(c, SweepUnit(s).store, budget - 1);
    }
  }

  lemma RecordsSize(s: Store)
    ensures |Records(s)| <= MetadataLen(s)
  {
    assert |s.candidates.Keys + s.deferred.Keys| <= |s.candidates.Keys| + |s.deferred.Keys|;
  }

  lemma ToilBound(s: Store)
    requires s.sweep.Some?
    ensures Toil(s) <= Times(|s.sweep.value.pending| + 1, MetadataLen(s) + 1)
  {
    hide Times, Records, Unmet, MetadataLen;
    RecordsSize(s);
    TimesLess(|s.sweep.value.pending|, |s.sweep.value.pending|, |Records(s)| + 1, MetadataLen(s) + 1);
    TimesOne(|s.sweep.value.pending|, MetadataLen(s) + 1);
    if s.sweep.value.active.Some? {
      UnmetIsRecord(s, s.sweep.value.active.value);
    }
  }

  /** Every sweep drains, classified or not: a walk never meets a record twice, so it takes at most one
      unit for each record and one more. */
  lemma SweepAlwaysDrains(c: Chain, s: Store, budget: nat)
    requires Ready(c, s) && s.sweep.Some? && budget >= (|s.sweep.value.pending| + 1) * (MetadataLen(s) + 1)
    ensures ProcessFinality(s, budget).store.sweep.None?
  {
    hide Inv, Toil, SweepUnits;
    ToilBound(s);
    ToilsWithin(c, s, budget);
  }

  // ----- Memory -----

  /** What a sweep remembers: verdicts, and the path of the walk under way. */
  function Footprint(s: Store): nat {
    if s.sweep.None? then 0
    else |s.sweep.value.verdicts| + (if s.sweep.value.active.Some? then |s.sweep.value.active.value.path| else 0)
  }

  lemma UnionSize(a: set<Hash>, b: set<Hash>)
    ensures |a + b| <= |a| + |b|
  {
    assert |a + b| == |a| + |b| - |a * b|;
  }

  lemma {:induction false} FewOnPath(path: seq<Hash>)
    ensures |Elements(path)| <= |path|
  {
    if path != [] {
      FewOnPath(path[1..]);
      assert Elements(path) == {path[0]} + Elements(path[1..]);
      UnionSize({path[0]}, Elements(path[1..]));
    }
  }

  lemma MemoisedSize(verdicts: map<Hash, Verdict>, w: Walk, verdict: Verdict)
    ensures |Memoised(verdicts, w, verdict)| <= |verdicts| + |w.path| + 1
  {
    var more := {w.current} + Elements(w.path);
    FewOnPath(w.path);
    UnionSize({w.current}, Elements(w.path));
    UnionSize(verdicts.Keys, more);
    SmallerSet(Memoised(verdicts, w, verdict).Keys, verdicts.Keys + more);
  }

  lemma ExamineFootprint(s: Store, sweep: Sweep, w: Walk)
    requires sweep.active.None?
    ensures Footprint(Examine(s, sweep, w).store) <= |sweep.verdicts| + |w.path| + 1
  {
    hide RemoveOne, Memoised;
    forall verdict: Verdict
      ensures Footprint(Settle(s, sweep, w, verdict).store) <= |sweep.verdicts| + |w.path| + 1
    {
      MemoisedSize(sweep.verdicts, w, verdict);
      RemoveOneFields(s.(sweep := Some(sweep.(verdicts := Memoised(sweep.verdicts, w, verdict), active := None))),
                      w.root);
    }
  }

  /** A unit of budget adds at most one hash to what a sweep remembers. */
  lemma UnitFootprint(s: Store)
    requires Busy(s)
    ensures Footprint(SweepUnit(s).store) <= Footprint(s) + 1
  {
    hide Examine;
    var sweep := s.sweep.value;
    if sweep.active.Some? {
      ExamineFootprint(s, sweep.(active := None), sweep.active.value);
    } else {
      var t := sweep.pending[0];
      ExamineFootprint(s, sweep.(pending := sweep.pending[1..]), Walk(t.incarnation, t.hash, t.hash, []));
    }
  }

  lemma {:induction false} UnitsFootprint(s: Store, budget: nat)
    ensures Footprint(SweepUnits(s, budget).store) <= Footprint(s) + SweepUnits(s, budget).work
    decreases budget
  {
    hide SweepUnit, Footprint;
    if budget > 0 && Busy(s) {
      UnitFootprint(s);
      UnitsFootprint(SweepUnit(s).store, budget - 1);
    }
  }

  /** A slice adds no more to what the sweep remembers than it does work, which is at most its budget. */
  lemma SliceFootprint(s: Store, budget: nat)
    ensures var slice := ProcessFinality(s, budget);
            Footprint(slice.store) <= Footprint(s) + slice.work && slice.work <= budget
  {
    hide SweepUnits;
    UnitsFootprint(s, budget);
    WorkWithinBudget(s, budget);
  }

  /** A walk's path is no longer than its root is above the checkpoint. */
  lemma PathBound(c: Chain, s: Store)
    requires Ready(c, s) && s.sweep.Some? && s.sweep.value.active.Some?
    ensures var w := s.sweep.value.active.value;
            w.path != [] ==> s.sweep.value.checkpoint.number + |w.path| <= Number(c, w.root)
  {
    hide Inv;
    var w := s.sweep.value.active.value;
    CurrentNotOnPath(c, s.sweep.value.checkpoint, w, 0);
    if w.path != [] {
      assert Descent(c, s.sweep.value.checkpoint, w.path[|w.path| - 1], (w.path + [w.current])[|w.path|]);
    }
  }
}

/** The incremental finality sweep. */
module Finality {
  import opened Types
  import opened Store

  datatype Advance = Settled(verdict: Verdict) | Moved(walk: Walk)

  /** One step of a walk towards the finalized height. */
  function AdvanceWalk(s: Store, w: Walk, finalized: Checkpoint): Advance {
    match Meta(s, w.current)
    case None => Settled(Unknown)
    case Some(block) =>
      if block.number == finalized.number then Settled(if block.hash == finalized.hash then Compatible else Conflict)
      else if block.number < finalized.number then Settled(Compatible)
      else
        match Meta(s, block.parent)
        case None => Settled(if block.parent in s.tombstones then Conflict else Unknown)
        case Some(parent) =>
          if parent.number + 1 != block.number then Settled(Unknown)
          else Moved(w.(path := w.path + [w.current], current := parent.hash))
  }

  /** What one unit of budget does: the store after it, the retired hash if any, and whether the
      walk it ended could not be classified. */
  datatype Unit = Unit(store: Store, retired: seq<Hash>, unknown: bool)

  function Memoised(verdicts: map<Hash, Verdict>, w: Walk, verdict: Verdict): map<Hash, Verdict> {
    if verdict == Unknown then verdicts
    else map h | h in verdicts.Keys + {w.current} + (set x | x in w.path) ::
           if h == w.current || h in w.path then verdict else verdicts[h]
  }

  predicate Condemned(s: Store, w: Walk, verdict: Verdict) {
    verdict == Conflict && Incarnation(s, w.root) == Some(w.incarnation)
  }

  /** Ends a walk: the result is remembered for the whole path, and a conflicting root is removed. */
  function Settle(s: Store, sweep: Sweep, w: Walk, verdict: Verdict): Unit {
    var noted := s.(sweep := Some(sweep.(verdicts := Memoised(sweep.verdicts, w, verdict), active := None)));
    if Condemned(s, w, verdict)
    then Unit(RemoveOne(noted, w.root, true), if Tracked(s, w.root) then [w.root] else [], false)
    else Unit(noted, [], verdict == Unknown)
  }

  function Examine(s: Store, sweep: Sweep, w: Walk): Unit {
    if w.current in sweep.verdicts then Settle(s, sweep, w, sweep.verdicts[w.current])
    else
      match AdvanceWalk(s, w, sweep.checkpoint)
      case Settled(verdict) => Settle(s, sweep, w, verdict)
      case Moved(w') => Unit(s.(sweep := Some(sweep.(active := Some(w')))), [], false)
  }

  predicate Busy(s: Store) {
    s.sweep.Some? && (s.sweep.value.active.Some? || s.sweep.value.pending != [])
  }

  predicate Skipped(s: Store, t: Ticket) { !LiveMetadata(s, t) || t.hash == s.head }

  function SweepUnit(s: Store): Unit
    requires Busy(s)
  {
    var sweep := s.sweep.value;
    if sweep.active.Some? then Examine(s, sweep.(active := None), sweep.active.value)
    else
      var t := sweep.pending[0];
      var rest := sweep.(pending := sweep.pending[1..]);
      if Skipped(s, t) then Unit(s.(sweep := Some(rest)), [], false)
      else Examine(s, rest, Walk(t.incarnation, t.hash, t.hash, []))
  }

  datatype Slice = Slice(store: Store, retired: seq<Hash>, work: nat)

  function SweepUnits(s: Store, budget: nat): Slice
    decreases budget
  {
    if budget == 0 || !Busy(s) then Slice(s, [], 0)
    else
      var unit := SweepUnit(s);
      var rest := SweepUnits(unit.store, budget - 1);
      Slice(rest.store, unit.retired + rest.retired, 1 + rest.work)
  }

  function CloseSweep(s: Store): Store {
    if Busy(s) then s else s.(sweep := None)
  }

  function ProcessFinality(s: Store, budget: nat): Slice {
    var r := SweepUnits(s, budget);
    r.(store := CloseSweep(r.store))
  }

  function BeginSweep(s: Store, finalized: Checkpoint): Store {
    s.(lastFinalized := Some(finalized),
       sweep := Some(Sweep(finalized, s.metadataOrder, map[], None)))
  }

  // ----- Slicing -----

  lemma {:induction false} UnitsSum(s: Store, a: nat, b: nat)
    ensures var first := SweepUnits(s, a);
            var second := SweepUnits(first.store, b);
            SweepUnits(s, a + b) == Slice(second.store, first.retired + second.retired, first.work + second.work)
    decreases a
  {
    hide SweepUnit, Busy;
    if a > 0 && Busy(s) {
      var u := SweepUnit(s);
      UnitsSum(u.store, a - 1, b);
      var first := SweepUnits(u.store, a - 1);
      var second := SweepUnits(first.store, b);
      assert (u.retired + first.retired) + second.retired == u.retired + (first.retired + second.retired);
    }
  }

  /** Two slices do what one slice with both budgets does: the same store, the same retirements in
      the same order, the same work. */
  lemma SlicingIsInvisible(s: Store, a: nat, b: nat)
    ensures var first := ProcessFinality(s, a);
            var second := ProcessFinality(first.store, b);
            ProcessFinality(s, a + b) == Slice(second.store, first.retired + second.retired, first.work + second.work)
  {
    UnitsSum(s, a, b);
    var first := SweepUnits(s, a);
    if !Busy(first.store) {
      assert SweepUnits(first.store, b) == Slice(first.store, [], 0);
      assert SweepUnits(CloseSweep(first.store), b) == Slice(CloseSweep(first.store), [], 0);
    }
  }

  lemma {:induction false} WorkWithinBudget(s: Store, budget: nat)
    ensures SweepUnits(s, budget).work <= budget
    ensures SweepUnits(s, budget).work < budget ==> !Busy(SweepUnits(s, budget).store)
    decreases budget
  {
    if budget > 0 && Busy(s) {
      WorkWithinBudget(SweepUnit(s).store, budget - 1);
    }
  }
}

/** When the sweep removes the canonical head. A walk is not started from the head, but one that was started
    from a block before it became the head is finished. */
module HeadLoss {
  import opened Types
  import opened Store
  import opened Finality
  import opened FinalitySound

  /** Following stored parents from the block, within the budget, ends in a conflict with the checkpoint. */
  predicate ConflictsWithin(s: Store, verdicts: map<Hash, Verdict>, f: Checkpoint, h: Hash, budget: nat)
    decreases budget
  {
    budget > 0
    && if h in verdicts then verdicts[h] == Conflict
       else if !IsRecord(s, h) then false
       else
         var block := Meta(s, h).value;
         if block.number <= f.number then block.number == f.number && block.hash != f.hash
         else if !IsRecord(s, block.parent) then block.parent in s.tombstones
         else
           var parent := Meta(s, block.parent).value;
           parent.number + 1 == block.number && ConflictsWithin(s, verdicts, f, parent.hash, budget - 1)
  }

  /** The walk was started from this very record of the head. */
  predicate FromHead(s: Store, w: Walk) { w.root == s.head && Incarnation(s, s.head) == Some(w.incarnation) }

  /** The walk under way was started from the head and will meet a conflict within the budget. */
  predicate SweepTakes(s: Store, budget: nat) {
    && s.sweep.Some? && s.sweep.value.active.Some? && FromHead(s, s.sweep.value.active.value)
    && ConflictsWithin(s, s.sweep.value.verdicts, s.sweep.value.checkpoint, s.sweep.value.active.value.current, budget)
  }

  // ----- A sweep whose walk was not started from the head -----

  predicate Elsewhere(s: Store) {
    s.sweep.Some? && s.sweep.value.active.Some? ==> !FromHead(s, s.sweep.value.active.value)
  }

  /** The head's record is what it was. */
  predicate SameHead(s: Store, r: Store) {
    && r.head == s.head
    && (s.head in s.candidates ==> s.head in r.candidates && r.candidates[s.head] == s.candidates[s.head])
    && (s.head in s.deferred ==> s.head in r.deferred && r.deferred[s.head] == s.deferred[s.head])
  }

  lemma SettleSpares(s: Store, sweep: Sweep, w: Walk, verdict: Verdict)
    requires IsRecord(s, s.head) && (!FromHead(s, w) || verdict != Conflict)
    ensures var r := Settle(s, sweep, w, verdict).store; SameHead(s, r) && Elsewhere(r)
  {
    hide RemoveOne, Memoised;
    var noted := s.(sweep := Some(sweep.(verdicts := Memoised(sweep.verdicts, w, verdict), active := None)));
    RemoveOneFields(noted, w.root);
  }

  lemma ExamineSpares(s: Store, sweep: Sweep, w: Walk)
    requires IsRecord(s, s.head) && !FromHead(s, w)
    ensures var r := Examine(s, sweep, w).store; SameHead(s, r) && Elsewhere(r)
  {
    hide Settle;
    if w.current in sweep.verdicts {
      SettleSpares(s, sweep, w, sweep.verdicts[w.current]);
    } else {
      match AdvanceWalk(s, w, sweep.checkpoint)
      case Settled(verdict) => SettleSpares(s, sweep, w, verdict);
      case Moved(_) =>
    }
  }

  lemma UnitSpares(s: Store)
    requires IsRecord(s, s.head) && Elsewhere(s) && Busy(s)
    ensures SameHead(s, SweepUnit(s).store) && Elsewhere(SweepUnit(s).store)
  {
    hide Examine;
    var sweep := s.sweep.value;
    if sweep.active.Some? {
      ExamineSpares(s, sweep.(active := None), sweep.active.value);
    } else if !Skipped(s, sweep.pending[0]) {
      var t := sweep.pending[0];
      ExamineSpares(s, sweep.(pending := sweep.pending[1..]), Walk(t.incarnation, t.hash, t.hash, []));
    }
  }

  lemma {:induction false} UnitsSpare(s: Store, budget: nat)
    requires IsRecord(s, s.head) && Elsewhere(s)
    ensures SameHead(s, SweepUnits(s, budget).store)
    decreases budget
  {
    hide SweepUnit;
    if budget > 0 && Busy(s) {
      UnitSpares(s);
      UnitsSpare(SweepUnit(s).store, budget - 1);
    }
  }

  lemma SettleAddsNothing(s: Store, sweep: Sweep, w: Walk, verdict: Verdict, h: Hash)
    requires !IsRecord(s, h)
    ensures !IsRecord(Settle(s, sweep, w, verdict).store, h)
  {
    hide RemoveOne, Memoised;
    RemoveOneFields(s.(sweep := Some(sweep.(verdicts := Memoised(sweep.verdicts, w, verdict), active := None))),
                    w.root);
  }

  lemma ExamineAddsNothing(s: Store, sweep: Sweep, w: Walk, h: Hash)
    requires !IsRecord(s, h)
    ensures !IsRecord(Examine(s, sweep, w).store, h)
  {
    hide Settle;
    if w.current in sweep.verdicts {
      SettleAddsNothing(s, sweep, w, sweep.verdicts[w.current], h);
    } else {
      match AdvanceWalk(s, w, sweep.checkpoint)
      case Settled(verdict) => SettleAddsNothing(s, sweep, w, verdict, h);
      case Moved(_) =>
    }
  }

  /** A sweep adds no record. */
  lemma {:induction false} UnitsAddNothing(s: Store, budget: nat, h: Hash)
    requires !IsRecord(s, h)
    ensures !IsRecord(SweepUnits(s, budget).store, h)
    decreases budget
  {
    hide Examine;
    if budget > 0 && Busy(s) {
      var sweep := s.sweep.value;
      if sweep.active.Some? {
        ExamineAddsNothing(s, sweep.(active := None), sweep.active.value, h);
      } else {
        var t := sweep.pending[0];
        ExamineAddsNothing(s, sweep.(pending := sweep.pending[1..]), Walk(t.incarnation, t.hash, t.hash, []), h);
      }
      UnitsAddNothing(SweepUnit(s).store, budget - 1, h);
    }
  }

  // ----- A sweep whose walk was started from the head -----

  lemma {:induction false} SameConflict(s: Store, r: Store, verdicts: map<Hash, Verdict>, f: Checkpoint, h: Hash,
                                        budget: nat)
    requires r == s.(sweep := r.sweep)
    ensures ConflictsWithin(r, verdicts, f, h, budget) <==> ConflictsWithin(s, verdicts, f, h, budget)
    decreases budget
  {
    if budget > 0 && h !in verdicts && IsRecord(s, h) && IsRecord(s, Meta(s, h).value.parent) {
      SameConflict(s, r, verdicts, f, Meta(s, Meta(s, h).value.parent).value.hash, budget - 1);
    }
  }

  lemma SettleTakes(s: Store, sweep: Sweep, w: Walk)
    requires FromHead(s, w)
    ensures !IsRecord(Settle(s, sweep, w, Conflict).store, s.head)
  {
    hide RemoveOne, Memoised;
    RemoveOneFields(s.(sweep := Some(sweep.(verdicts := Memoised(sweep.verdicts, w, Conflict), active := None))),
                    w.root);
  }

  /** Once the walk has its verdict the rest of the budget changes nothing for the head. */
  lemma SettledTakes(s: Store, sweep: Sweep, w: Walk, verdict: Verdict, budget: nat)
    requires IsRecord(s, s.head) && FromHead(s, w)
    ensures IsRecord(SweepUnits(Settle(s, sweep, w, verdict).store, budget).store, s.head) <==> verdict != Conflict
  {
    hide Settle, SweepUnits;
    var r := Settle(s, sweep, w, verdict).store;
    if verdict == Conflict {
      SettleTakes(s, sweep, w);
      UnitsAddNothing(r, budget, s.head);
    } else {
      SettleSpares(s, sweep, w, verdict);
      UnitsSpare(r, budget);
    }
  }

  lemma {:induction false} WalkTakes(s: Store, budget: nat)
    requires s.sweep.Some? && s.sweep.value.active.Some? && FromHead(s, s.sweep.value.active.value)
    ensures IsRecord(SweepUnits(s, budget).store, s.head) <==> !SweepTakes(s, budget)
    decreases budget
  {
    hide Settle;
    if budget > 0 {
      var sweep, w := s.sweep.value.(active := None), s.sweep.value.active.value;
      if w.current in sweep.verdicts {
        SettledTakes(s, sweep, w, sweep.verdicts[w.current], budget - 1);
      } else {
        match AdvanceWalk(s, w, sweep.checkpoint)
        case Settled(verdict) => SettledTakes(s, sweep, w, verdict, budget - 1);
        case Moved(w') =>
          var r := SweepUnit(s).store;
          WalkTakes(r, budget - 1);
          SameConflict(s, r, sweep.verdicts, sweep.checkpoint, w'.current, budget - 1);
      }
    }
  }

  /** A slice removes the head exactly if the walk under way was started from the head's record and following
      stored parents from where it stands meets a conflict within the budget; otherwise the head's record is
      what it was. */
  lemma SweepTakesHeadExactly(s: Store, budget: nat)
    requires IsRecord(s, s.head)
    ensures var r := ProcessFinality(s, budget).store;
            && (IsRecord(r, s.head) <==> !SweepTakes(s, budget))
            && (Elsewhere(s) ==> SameHead(s, r))
  {
    hide SweepUnits, ConflictsWithin;
    if Elsewhere(s) {
      UnitsSpare(s, budget);
    } else {
      WalkTakes(s, budget);
    }
  }

  /** The slice that follows a new checkpoint never removes the head: its walks are all new. */
  lemma NewSweepSparesHead(s: Store, finalized: Checkpoint, budget: nat)
    requires IsRecord(s, s.head)
    ensures SameHead(s, ProcessFinality(BeginSweep(s, finalized), budget).store)
  {
    hide ProcessFinality;
    SweepTakesHeadExactly(BeginSweep(s, finalized), budget);
  }
}

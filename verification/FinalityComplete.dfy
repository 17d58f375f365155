/** What a sweep removes: once it has nothing left to do, every record other than the head whose stored ancestry
    conflicts with the checkpoint is gone. */
module FinalityComplete {
  import opened Types
  import opened Sequences
  import opened Chain
  import opened Store
  import opened StoreInvariants
  import opened StoreTrees
  import opened Finality
  import opened FinalitySound
  import opened FinalityWork
  import opened FinalityLinear
  import opened HeadLoss

  // ----- Conflicting records -----

  /** Following stored parents for at most `n` blocks meets a known conflict, the finalized height at another hash,
      or one of the tombstones that count. */
  ghost predicate ConflictsIn(s: Store, recent: nat, verdicts: map<Hash, Verdict>, f: Checkpoint, h: Hash, n: nat)
    requires recent <= |s.tombstoneOrder|
    decreases n
  {
    n > 0
    && if h in verdicts then verdicts[h] == Conflict
       else if !IsRecord(s, h) then false
       else
         var block := BlockAt(s, h);
         if block.number <= f.number then block.number == f.number && h != f.hash
         else if !IsRecord(s, block.parent) then Recent(s, recent, block.parent)
         else BlockAt(s, block.parent).number + 1 == block.number
              && ConflictsIn(s, recent, verdicts, f, block.parent, n - 1)
  }

  ghost predicate Conflicting(s: Store, recent: nat, verdicts: map<Hash, Verdict>, f: Checkpoint, h: Hash)
    requires recent <= |s.tombstoneOrder|
  {
    exists n: nat :: ConflictsIn(s, recent, verdicts, f, h, n)
  }

  // ----- One walk -----

  /** From a conflicting record a walk gets the verdict, or moves on to a conflicting record. */
  lemma AdvanceConflicts(c: Chain, s: Store, recent: nat, verdicts: map<Hash, Verdict>, f: Checkpoint, w: Walk)
    requires WellFormed(c) && Inv(c, s) && Lasting(s, recent) && w.current !in verdicts
    requires Conflicting(s, recent, verdicts, f, w.current)
    ensures match AdvanceWalk(s, w, f)
            case Settled(v) => v == Conflict
            case Moved(w') => Conflicting(s, recent, verdicts, f, w'.current)
  {
    hide Inv;
    LastingIsListed(s, recent);
    hide Lasting;
    var n: nat :| ConflictsIn(s, recent, verdicts, f, w.current, n);
    MetaIs(c, s, w.current);
    var parent := Parent(c, w.current);
    if IsRecord(s, parent) {
      MetaIs(c, s, parent);
      assert BlockAt(s, w.current).number > f.number ==> ConflictsIn(s, recent, verdicts, f, parent, n - 1);
    } else {
      RecentIsBuried(s, recent, parent);
    }
  }

  /** A walk that moved on: if a block of its path conflicts, so does the block it is at. */
  ghost predicate Bound(s: Store, recent: nat, verdicts: map<Hash, Verdict>, f: Checkpoint, w: Walk)
    requires recent <= |s.tombstoneOrder|
  {
    forall i :: 0 <= i < |w.path| && Conflicting(s, recent, verdicts, f, w.path[i]) ==>
      Conflicting(s, recent, verdicts, f, w.current)
  }

  lemma MoveBinds(c: Chain, s: Store, recent: nat, verdicts: map<Hash, Verdict>, f: Checkpoint, w: Walk)
    requires WellFormed(c) && Inv(c, s) && Lasting(s, recent)
    requires w.current !in verdicts && Bound(s, recent, verdicts, f, w) && AdvanceWalk(s, w, f).Moved?
    ensures Bound(s, recent, verdicts, f, AdvanceWalk(s, w, f).walk)
  {
    hide Inv, Conflicting;
    var w' := AdvanceWalk(s, w, f).walk;
    if Conflicting(s, recent, verdicts, f, w.current) {
      AdvanceConflicts(c, s, recent, verdicts, f, w);
    }
    forall i | 0 <= i < |w'.path| && Conflicting(s, recent, verdicts, f, w'.path[i])
      ensures Conflicting(s, recent, verdicts, f, w'.current)
    {
      assert i < |w.path| ==> w'.path[i] == w.path[i];
    }
  }

  // ----- What settling a walk leaves -----

  /** Remembering a verdict keeps every conflict. */
  lemma {:induction false} MemoKeepsConflict(s: Store, r: Store, recent: nat, verdicts: map<Hash, Verdict>,
                                             f: Checkpoint, w: Walk, verdict: Verdict, h: Hash, n: nat)
    requires recent <= |s.tombstoneOrder| && r == s.(sweep := r.sweep) && Bound(s, recent, verdicts, f, w)
    requires Conflicting(s, recent, verdicts, f, w.current) ==> verdict == Conflict
    requires ConflictsIn(s, recent, verdicts, f, h, n)
    ensures ConflictsIn(r, recent, Memoised(verdicts, w, verdict), f, h, n)
    decreases n
  {
    var known := Memoised(verdicts, w, verdict);
    assert Conflicting(s, recent, verdicts, f, h);
    if h !in known && BlockAt(s, h).number > f.number && IsRecord(s, BlockAt(s, h).parent) {
      MemoKeepsConflict(s, r, recent, verdicts, f, w, verdict, BlockAt(s, h).parent, n - 1);
    }
  }

  /** So does burying a record, for every other record. */
  lemma {:induction false} BuryKeepsConflict(s: Store, recent: nat, verdicts: map<Hash, Verdict>, f: Checkpoint,
                                             root: Hash, h: Hash, n: nat)
    requires Lasting(s, recent) && IsRecord(s, root) && h != root && ConflictsIn(s, recent, verdicts, f, h, n)
    requires Lasting(RemoveOne(s, root, true), MoreRecent(s, recent, root))
    ensures ConflictsIn(RemoveOne(s, root, true), MoreRecent(s, recent, root), verdicts, f, h, n)
    decreases n
  {
    hide Lasting, RemoveOne, Recent, IsRecord, Meta;
    BuryLasts(s, recent, root);
    SameMeta(s, root);
    if h !in verdicts && BlockAt(s, h).number > f.number && IsRecord(s, BlockAt(s, h).parent)
       && BlockAt(s, h).parent != root {
      BuryKeepsConflict(s, recent, verdicts, f, root, BlockAt(s, h).parent, n - 1);
    }
  }

  // ----- A record the sweep is after -----

  /** The record waits for its walk. */
  ghost predicate Waits(s: Store, recent: nat, sweep: Sweep, x: Hash)
    requires recent <= |s.tombstoneOrder|
  {
    Awaited(s, sweep, x) && Conflicting(s, recent, sweep.verdicts, sweep.checkpoint, x)
  }

  /** The walk was started from the record and stands at a conflicting one. */
  ghost predicate Walked(s: Store, recent: nat, sweep: Sweep, w: Walk, x: Hash)
    requires recent <= |s.tombstoneOrder|
  {
    && w.root == x && Incarnation(s, x) == Some(w.incarnation)
    && Conflicting(s, recent, sweep.verdicts, sweep.checkpoint, w.current)
  }

  ghost predicate Chased(s: Store, recent: nat, x: Hash) {
    && s.sweep.Some? && Lasting(s, recent) && IsRecord(s, x) && x != s.head
    && (s.sweep.value.active.Some? ==>
          Bound(s, recent, s.sweep.value.verdicts, s.sweep.value.checkpoint, s.sweep.value.active.value))
    && (Waits(s, recent, s.sweep.value, x)
        || (s.sweep.value.active.Some? && Walked(s, recent, s.sweep.value, s.sweep.value.active.value, x)))
  }

  /** The record is gone, and announced if it was tracked; or the sweep is still after it. */
  ghost predicate Gets(s: Store, u: Unit, recent: nat, x: Hash) {
    if IsRecord(u.store, x) then Chased(u.store, recent, x) && (Tracked(u.store, x) <==> Tracked(s, x))
    else Tracked(s, x) ==> x in u.retired
  }

  /** The store with a verdict remembered. */
  lemma NotedChases(s: Store, recent: nat, sweep: Sweep, w: Walk, verdict: Verdict, x: Hash)
    requires Lasting(s, recent) && IsRecord(s, x) && x != s.head && sweep.active.None?
    requires Bound(s, recent, sweep.verdicts, sweep.checkpoint, w) && Waits(s, recent, sweep, x)
    requires Conflicting(s, recent, sweep.verdicts, sweep.checkpoint, w.current) ==> verdict == Conflict
    ensures Chased(s.(sweep := Some(sweep.(verdicts := Memoised(sweep.verdicts, w, verdict), active := None))),
                   recent, x)
  {
    hide Memoised, Distinct, Elements;
    var r := s.(sweep := Some(sweep.(verdicts := Memoised(sweep.verdicts, w, verdict), active := None)));
    var n: nat :| ConflictsIn(s, recent, sweep.verdicts, sweep.checkpoint, x, n);
    MemoKeepsConflict(s, r, recent, sweep.verdicts, sweep.checkpoint, w, verdict, x, n);
    SameLasting(s, r, recent);
  }

  lemma SameLasting(s: Store, r: Store, recent: nat)
    requires Lasting(s, recent) && r == s.(sweep := r.sweep)
    ensures Lasting(r, recent)
  {
    hide Distinct, Elements;
    SameRecords(s, r);
    assert forall y :: IsRecord(r, y) <==> IsRecord(s, y);
    assert forall y :: Recent(r, recent, y) <==> Recent(s, recent, y);
  }

  lemma BuriedChases(s: Store, recent: nat, root: Hash, x: Hash)
    requires Chased(s, recent, x) && s.sweep.value.active.None? && IsRecord(s, root) && x != root
    ensures Chased(RemoveOne(s, root, true), MoreRecent(s, recent, root), x)
    ensures Tracked(RemoveOne(s, root, true), x) <==> Tracked(s, x)
  {
    hide Lasting, RemoveOne;
    BuryLasts(s, recent, root);
    LastingIsListed(s, recent);
    LastingIsListed(RemoveOne(s, root, true), MoreRecent(s, recent, root));
    RemoveOneFields(s, root);
    var sweep := s.sweep.value;
    var n: nat :| ConflictsIn(s, recent, sweep.verdicts, sweep.checkpoint, x, n);
    BuryKeepsConflict(s, recent, sweep.verdicts, sweep.checkpoint, root, x, n);
  }

  lemma SettleGets(s: Store, recent: nat, sweep: Sweep, w: Walk, verdict: Verdict, x: Hash) returns (recent': nat)
    requires Lasting(s, recent) && IsRecord(s, x) && x != s.head && sweep.active.None?
    requires Bound(s, recent, sweep.verdicts, sweep.checkpoint, w)
    requires Waits(s, recent, sweep, x) || Walked(s, recent, sweep, w, x)
    requires Conflicting(s, recent, sweep.verdicts, sweep.checkpoint, w.current) ==> verdict == Conflict
    ensures Gets(s, Settle(s, sweep, w, verdict), recent', x)
  {
    hide RemoveOne, Memoised, Lasting, Conflicting, Bound, Chased;
    LastingIsListed(s, recent);
    var noted := s.(sweep := Some(sweep.(verdicts := Memoised(sweep.verdicts, w, verdict), active := None)));
    recent' := recent;
    if Condemned(s, w, verdict) && w.root == x {
      RemoveOneFields(noted, x);
    } else {
      NotedChases(s, recent, sweep, w, verdict, x);
      if Condemned(s, w, verdict) {
        recent' := MoreRecent(noted, recent, w.root);
        BuriedChases(noted, recent, w.root, x);
      }
    }
  }

  lemma ExamineGets(c: Chain, s: Store, recent: nat, sweep: Sweep, w: Walk, x: Hash) returns (recent': nat)
    requires WellFormed(c) && Inv(c, s) && Lasting(s, recent) && IsRecord(s, x) && x != s.head && sweep.active.None?
    requires Bound(s, recent, sweep.verdicts, sweep.checkpoint, w)
    requires Waits(s, recent, sweep, x) || Walked(s, recent, sweep, w, x)
    ensures Gets(s, Examine(s, sweep, w), recent', x)
  {
    hide Inv, Settle, Lasting, AdvanceWalk;
    LastingIsListed(s, recent);
    if w.current in sweep.verdicts {
      recent' := SettleGets(s, recent, sweep, w, sweep.verdicts[w.current], x);
    } else {
      if Conflicting(s, recent, sweep.verdicts, sweep.checkpoint, w.current) {
        AdvanceConflicts(c, s, recent, sweep.verdicts, sweep.checkpoint, w);
      }
      match AdvanceWalk(s, w, sweep.checkpoint)
      case Settled(v) => recent' := SettleGets(s, recent, sweep, w, v, x);
      case Moved(w') =>
        recent' := recent;
        MoveBinds(c, s, recent, sweep.verdicts, sweep.checkpoint, w);
        MovedGets(c, s, recent, sweep, w, x);
    }
  }

  lemma {:induction false} SameConflictsIn(s: Store, r: Store, recent: nat, verdicts: map<Hash, Verdict>, f: Checkpoint,
                                           h: Hash, n: nat)
    requires recent <= |s.tombstoneOrder| && r == s.(sweep := r.sweep, lastFinalized := r.lastFinalized)
    ensures ConflictsIn(r, recent, verdicts, f, h, n) <==> ConflictsIn(s, recent, verdicts, f, h, n)
    decreases n
  {
    if n > 0 && h !in verdicts && IsRecord(s, h) && IsRecord(s, BlockAt(s, h).parent) {
      SameConflictsIn(s, r, recent, verdicts, f, BlockAt(s, h).parent, n - 1);
    }
  }

  lemma SameConflicting(s: Store, r: Store, recent: nat, verdicts: map<Hash, Verdict>, f: Checkpoint)
    requires recent <= |s.tombstoneOrder| && r == s.(sweep := r.sweep, lastFinalized := r.lastFinalized)
    ensures forall h :: Conflicting(r, recent, verdicts, f, h) <==> Conflicting(s, recent, verdicts, f, h)
  {
    forall h, n: nat
      ensures ConflictsIn(r, recent, verdicts, f, h, n) <==> ConflictsIn(s, recent, verdicts, f, h, n)
    {
      SameConflictsIn(s, r, recent, verdicts, f, h, n);
    }
  }

  lemma MovedGets(c: Chain, s: Store, recent: nat, sweep: Sweep, w: Walk, x: Hash)
    requires WellFormed(c) && Inv(c, s) && Lasting(s, recent) && IsRecord(s, x) && x != s.head
    requires w.current !in sweep.verdicts && AdvanceWalk(s, w, sweep.checkpoint).Moved?
    requires Bound(s, recent, sweep.verdicts, sweep.checkpoint, AdvanceWalk(s, w, sweep.checkpoint).walk)
    requires Waits(s, recent, sweep, x) || Walked(s, recent, sweep, w, x)
    ensures Gets(s, Examine(s, sweep, w), recent, x)
  {
    hide Inv, Lasting, Conflicting;
    var r, w' := Examine(s, sweep, w).store, AdvanceWalk(s, w, sweep.checkpoint).walk;
    LastingIsListed(s, recent);
    SameLasting(s, r, recent);
    SameConflicting(s, r, recent, sweep.verdicts, sweep.checkpoint);
    if Walked(s, recent, sweep, w, x) {
      AdvanceConflicts(c, s, recent, sweep.verdicts, sweep.checkpoint, w);
    }
  }

  lemma UnitGets(c: Chain, s: Store, recent: nat, x: Hash) returns (recent': nat)
    requires Ready(c, s) && Chased(s, recent, x)
    ensures Busy(s) && Gets(s, SweepUnit(s), recent', x)
  {
    hide Inv, Examine, Lasting, Conflicting;
    LastingIsListed(s, recent);
    var sweep := s.sweep.value;
    if sweep.active.Some? {
      recent' := ExamineGets(c, s, recent, sweep.(active := None), sweep.active.value, x);
    } else {
      var t, rest := sweep.pending[0], sweep.(pending := sweep.pending[1..]);
      if Skipped(s, t) {
        recent' := recent;
        var r := SweepUnit(s).store;
        SameLasting(s, r, recent);
        SameConflicting(s, r, recent, sweep.verdicts, sweep.checkpoint);
        assert t != Ticket(Incarnation(s, x).value, x);
      } else {
        recent' := ExamineGets(c, s, recent, rest, Walk(t.incarnation, t.hash, t.hash, []), x);
      }
    }
  }

  lemma {:induction false} UnitsGet(c: Chain, s: Store, recent: nat, x: Hash, budget: nat)
    requires Ready(c, s) && Chased(s, recent, x) && !Busy(SweepUnits(s, budget).store)
    ensures !IsRecord(SweepUnits(s, budget).store, x)
    ensures Tracked(s, x) ==> x in SweepUnits(s, budget).retired
    decreases budget
  {
    hide Inv, SweepUnit, SweepSound, Chased;
    var recent' := UnitGets(c, s, recent, x);
    var u := SweepUnit(s);
    UnitKeeps(c, s);
    if IsRecord(u.store, x) {
      UnitsGet(c, u.store, recent', x, budget - 1);
    } else {
      UnitsAddNothing(u.store, budget - 1, x);
    }
  }

  // ----- Theorems -----

  /** Completeness: once a slice leaves the sweep nothing to do, a record other than the head that waited for its walk,
      and whose stored ancestry meets a conflict or a tombstone that cannot age out, is gone, is terminal, and is
      announced if consumers keep it. */
  lemma SweepRemovesConflicts(c: Chain, s: Store, x: Hash, budget: nat)
    requires Ready(c, s) && s.sweep.Some? && s.sweep.value.active.None?
    requires MetadataLen(s) <= s.limits.metadata && BuriedLate(s, Spared(s))
    requires IsRecord(s, x) && x != s.head && Awaited(s, s.sweep.value, x)
    requires Conflicting(s, Spared(s), s.sweep.value.verdicts, s.sweep.value.checkpoint, x)
    requires ProcessFinality(s, budget).store.sweep.None?
    ensures var slice := ProcessFinality(s, budget);
            && !IsRecord(slice.store, x) && x in slice.store.terminal && (Tracked(s, x) ==> x in slice.retired)
  {
    BeginLasts(c, s);
    hide Inv, SweepSound, SweepUnits, Lasting, Spared, Conflicting, BuriedLate;
    UnitsGet(c, s, Spared(s), x, budget);
    FinalitySoundness(c, s, budget);
    assert Gone(s, ProcessFinality(s, budget).store, x);
  }

  lemma BeginLasts(c: Chain, s: Store)
    requires Inv(c, s) && MetadataLen(s) <= s.limits.metadata && BuriedLate(s, Spared(s))
    ensures Lasting(s, Spared(s))
  {
    hide Records;
    RecordsSize(s);
    ElementsSize(s.tombstoneOrder);
  }

  // ----- And nothing else -----

  /** Conflicting when the sweep began, by all the tombstones there were. */
  ghost predicate Conflicted(s: Store, f: Checkpoint, h: Hash) {
    Conflicting(s, |s.tombstoneOrder|, map[], f, h)
  }

  lemma ChildConflicts(s: Store, f: Checkpoint, h: Hash)
    requires IsRecord(s, h) && BlockAt(s, h).number > f.number && IsRecord(s, BlockAt(s, h).parent) && Linked(s, h)
    requires Conflicted(s, f, BlockAt(s, h).parent)
    ensures Conflicted(s, f, h)
  {
    var n: nat :| ConflictsIn(s, |s.tombstoneOrder|, map[], f, BlockAt(s, h).parent, n);
    assert ConflictsIn(s, |s.tombstoneOrder|, map[], f, h, n + 1);
  }

  /** At the checkpoint's height, or over a tombstone, one step shows it. */
  lemma ConflictsAtOnce(s: Store, f: Checkpoint, h: Hash)
    requires s.tombstones == Elements(s.tombstoneOrder) && IsRecord(s, h)
    requires var block := BlockAt(s, h);
             if block.number <= f.number then block.number == f.number && h != f.hash
             else !IsRecord(s, block.parent) && block.parent in s.tombstones
    ensures Conflicted(s, f, h)
  {
    AllAreRecent(s, BlockAt(s, h).parent);
    assert ConflictsIn(s, |s.tombstoneOrder|, map[], f, h, 1);
  }

  ghost predicate OnlyConflicted(s0: Store, f: Checkpoint, s: Store) {
    && (forall h :: IsRecord(s, h) ==> IsRecord(s0, h) && BlockAt(s, h) == BlockAt(s0, h))
    && (forall h :: Gone(s0, s, h) ==> Conflicted(s0, f, h))
    && (forall h :: h in s.tombstones ==> h in s0.tombstones || Gone(s0, s, h))
  }

  ghost predicate OnlyTrue(s0: Store, f: Checkpoint, verdicts: map<Hash, Verdict>) {
    forall h :: h in verdicts && verdicts[h] == Conflict ==> Conflicted(s0, f, h)
  }

  /** If the block a walk is at conflicts, so do its root and its path. */
  ghost predicate Tied(s0: Store, f: Checkpoint, w: Walk) {
    Conflicted(s0, f, w.current) ==>
      Conflicted(s0, f, w.root) && forall i :: 0 <= i < |w.path| ==> Conflicted(s0, f, w.path[i])
  }

  ghost predicate SoFar(s0: Store, f: Checkpoint, s: Store) {
    && OnlyConflicted(s0, f, s)
    && (s.sweep.Some? ==>
          && s.sweep.value.checkpoint == f && OnlyTrue(s0, f, s.sweep.value.verdicts)
          && (s.sweep.value.active.Some? ==> Tied(s0, f, s.sweep.value.active.value)))
  }

  lemma AdvanceExact(c: Chain, s0: Store, f: Checkpoint, s: Store, w: Walk)
    requires WellFormed(c) && Inv(c, s) && OnlyConflicted(s0, f, s) && Tied(s0, f, w)
    requires s0.tombstones == Elements(s0.tombstoneOrder) && Consecutive(s0)
    ensures match AdvanceWalk(s, w, f)
            case Settled(v) => v == Conflict ==> Conflicted(s0, f, w.current)
            case Moved(w') => Tied(s0, f, w')
  {
    hide Inv, Conflicted, Elements;
    if IsRecord(s, w.current) {
      MetaIs(c, s, w.current);
      var parent := Parent(c, w.current);
      if Number(c, w.current) > f.number && IsRecord(s0, parent) && Conflicted(s0, f, parent) {
        ChildConflicts(s0, f, w.current);
      }
      if AdvanceWalk(s, w, f) == Settled(Conflict) && !Conflicted(s0, f, w.current) {
        ConflictsAtOnce(s0, f, w.current);
      }
      if IsRecord(s, parent) {
        MetaIs(c, s, parent);
      }
    }
  }

  lemma SettleExact(s0: Store, f: Checkpoint, s: Store, sweep: Sweep, w: Walk, verdict: Verdict)
    requires OnlyConflicted(s0, f, s) && OnlyTrue(s0, f, sweep.verdicts) && sweep.checkpoint == f && Tied(s0, f, w)
    requires verdict == Conflict ==> Conflicted(s0, f, w.current)
    ensures SoFar(s0, f, Settle(s, sweep, w, verdict).store)
  {
    hide RemoveOne, Conflicted;
    var noted := s.(sweep := Some(sweep.(verdicts := Memoised(sweep.verdicts, w, verdict), active := None)));
    assert OnlyTrue(s0, f, noted.sweep.value.verdicts);
    hide Memoised;
    if Condemned(s, w, verdict) {
      RemoveOneFields(noted, w.root);
      SameMeta(noted, w.root);
      OneTombstone(noted, w.root);
      assert forall h :: IsRecord(noted, h) <==> IsRecord(s, h);
      assert forall h :: IsRecord(noted, h) ==> BlockAt(noted, h) == BlockAt(s, h);
    }
  }

  lemma ExamineExact(c: Chain, s0: Store, f: Checkpoint, s: Store, sweep: Sweep, w: Walk)
    requires WellFormed(c) && Inv(c, s) && OnlyConflicted(s0, f, s) && OnlyTrue(s0, f, sweep.verdicts)
    requires sweep.checkpoint == f && Tied(s0, f, w)
    requires s0.tombstones == Elements(s0.tombstoneOrder) && Consecutive(s0)
    ensures SoFar(s0, f, Examine(s, sweep, w).store)
  {
    hide Inv, Settle, AdvanceWalk, Conflicted, Elements, Consecutive;
    if w.current in sweep.verdicts {
      SettleExact(s0, f, s, sweep, w, sweep.verdicts[w.current]);
    } else {
      AdvanceExact(c, s0, f, s, w);
      match AdvanceWalk(s, w, f)
      case Settled(v) => SettleExact(s0, f, s, sweep, w, v);
      case Moved(w') =>
        var r := Examine(s, sweep, w).store;
        assert OnlyConflicted(s0, f, r) by { SameExact(s0, f, s, r); }
    }
  }

  lemma SameExact(s0: Store, f: Checkpoint, s: Store, r: Store)
    requires OnlyConflicted(s0, f, s) && r == s.(sweep := r.sweep)
    ensures OnlyConflicted(s0, f, r)
  {
    hide Conflicted;
    assert forall h :: IsRecord(r, h) <==> IsRecord(s, h);
    assert forall h :: IsRecord(r, h) ==> BlockAt(r, h) == BlockAt(s, h);
  }

  lemma UnitExact(c: Chain, s0: Store, f: Checkpoint, s: Store)
    requires Ready(c, s) && Busy(s) && SoFar(s0, f, s)
    requires s0.tombstones == Elements(s0.tombstoneOrder) && Consecutive(s0)
    ensures SoFar(s0, f, SweepUnit(s).store)
  {
    hide Inv, Examine, Conflicted, Elements, Consecutive, OnlyConflicted, OnlyTrue;
    var sweep := s.sweep.value;
    if sweep.active.Some? {
      ExamineExact(c, s0, f, s, sweep.(active := None), sweep.active.value);
    } else {
      var t, rest := sweep.pending[0], sweep.(pending := sweep.pending[1..]);
      if Skipped(s, t) {
        SameExact(s0, f, s, SweepUnit(s).store);
      } else {
        ExamineExact(c, s0, f, s, rest, Walk(t.incarnation, t.hash, t.hash, []));
      }
    }
  }

  lemma {:induction false} UnitsExact(c: Chain, s0: Store, f: Checkpoint, s: Store, budget: nat)
    requires Ready(c, s) && SoFar(s0, f, s)
    requires s0.tombstones == Elements(s0.tombstoneOrder) && Consecutive(s0)
    ensures SoFar(s0, f, SweepUnits(s, budget).store)
    decreases budget
  {
    hide Inv, SweepUnit, SweepSound, SoFar, Consecutive, Elements;
    if budget > 0 && Busy(s) {
      UnitExact(c, s0, f, s);
      UnitKeeps(c, s);
      UnitsExact(c, s0, f, SweepUnit(s).store, budget - 1);
    }
  }

  /** A new sweep, however far it got, has removed only conflicting records. */
  lemma OnlyConflictsGo(c: Chain, s: Store, f: Checkpoint, budget: nat, h: Hash)
    requires WellFormed(c) && Inv(c, s) && Consecutive(s)
    requires Gone(s, ProcessFinality(BeginSweep(s, f), budget).store, h)
    ensures Conflicted(s, f, h)
  {
    assert s.tombstones == Elements(s.tombstoneOrder);
    BeginReady(c, s, f);
    assert SoFar(s, f, BeginSweep(s, f)) by {
      var begun := BeginSweep(s, f);
      assert forall x :: IsRecord(begun, x) ==> BlockAt(begun, x) == BlockAt(s, x);
    }
    hide Inv, SweepUnits, Elements, BeginSweep, Consecutive, Conflicted;
    UnitsExact(c, s, f, BeginSweep(s, f), budget);
  }

  /** There is room to tombstone every record without a tombstone ageing out. */
  predicate Roomy(s: Store) { |s.tombstoneOrder| + MetadataLen(s) <= s.limits.metadata }

  lemma RoomyLasts(c: Chain, s: Store)
    requires Inv(c, s) && Roomy(s)
    ensures Spared(s) == |s.tombstoneOrder| && BuriedLate(s, Spared(s))
  {
    assert s.tombstones == Elements(s.tombstoneOrder);
    hide Elements, Records;
    RecordsSize(s);
    forall h | IsRecord(s, h) && h in s.tombstones
      ensures Recent(s, |s.tombstoneOrder|, h)
    {
      AllAreRecent(s, h);
    }
  }

  /** The sweep of a new checkpoint is exact: once it has nothing left to do, the records that are gone are those
      other than the head whose stored ancestry reaches the finalized height at another hash, or ends under a
      tombstone. They are terminal, and those consumers keep are announced. */
  lemma SweepIsExact(c: Chain, s: Store, f: Checkpoint, budget: nat)
    requires WellFormed(c) && Inv(c, s) && Roomy(s) && Consecutive(s) && IsRecord(s, s.head)
    requires ProcessFinality(BeginSweep(s, f), budget).store.sweep.None?
    ensures var slice := ProcessFinality(BeginSweep(s, f), budget);
            forall h :: IsRecord(s, h) ==>
              && (IsRecord(slice.store, h) <==> h == s.head || !Conflicted(s, f, h))
              && (!IsRecord(slice.store, h) ==> h in slice.store.terminal && (Tracked(s, h) ==> h in slice.retired))
  {
    var begun, slice := BeginSweep(s, f), ProcessFinality(BeginSweep(s, f), budget);
    NewSweepSparesHead(s, f, budget);
    forall h | IsRecord(s, h)
      ensures IsRecord(slice.store, h) <==> h == s.head || !Conflicted(s, f, h)
      ensures !IsRecord(slice.store, h) ==> h in slice.store.terminal && (Tracked(s, h) ==> h in slice.retired)
    {
      if h != s.head && Conflicted(s, f, h) {
        ConflictGoes(c, s, f, budget, h);
      }
      if !IsRecord(slice.store, h) {
        OnlyConflictsGo(c, s, f, budget, h);
      }
    }
  }

  lemma ConflictGoes(c: Chain, s: Store, f: Checkpoint, budget: nat, h: Hash)
    requires WellFormed(c) && Inv(c, s) && Roomy(s) && IsRecord(s, h) && h != s.head && Conflicted(s, f, h)
    requires ProcessFinality(BeginSweep(s, f), budget).store.sweep.None?
    ensures var slice := ProcessFinality(BeginSweep(s, f), budget);
            && !IsRecord(slice.store, h) && h in slice.store.terminal && (Tracked(s, h) ==> h in slice.retired)
  {
    hide Inv, ProcessFinality, Conflicting, BuriedLate, Spared, SweepSound;
    var begun := BeginSweep(s, f);
    BeginReady(c, s, f);
    assert Awaited(begun, begun.sweep.value, h) by { EveryRecordWaits(c, s, f, h); }
    RoomyLasts(c, begun);
    assert Conflicting(begun, |s.tombstoneOrder|, map[], f, h)
    by { SameConflicting(s, begun, |s.tombstoneOrder|, map[], f); }
    SweepRemovesConflicts(c, begun, h, budget);
  }
}

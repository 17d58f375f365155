/** When the sweep's work is linear, as a condition on the store it starts from. */
module FinalityLinear {
  import opened Types
  import opened Sequences
  import opened Chain
  import opened Store
  import opened StoreInvariants
  import opened Finality
  import opened FinalitySound
  import opened FinalityWork

  // ----- The condition -----

  function BlockAt(s: Store, h: Hash): BlockMeta
    requires IsRecord(s, h)
  {
    Meta(s, h).value
  }

  predicate Above(s: Store, finalized: Checkpoint, h: Hash) {
    IsRecord(s, h) && BlockAt(s, h).number > finalized.number
  }

  /** Its parent is a record, one block lower. */
  predicate Linked(s: Store, h: Hash)
    requires IsRecord(s, h)
  {
    IsRecord(s, BlockAt(s, h).parent) && BlockAt(s, BlockAt(s, h).parent).number + 1 == BlockAt(s, h).number
  }

  ghost predicate Childless(s: Store, h: Hash) {
    forall x :: IsRecord(s, x) ==> BlockAt(s, x).parent != h
  }

  /** The head, when no walk can come to it from a child. */
  ghost predicate Bare(s: Store, h: Hash) { h == s.head && Childless(s, h) }

  /** Among the newest `recent` tombstones. */
  ghost predicate Recent(s: Store, recent: nat, h: Hash)
    requires recent <= |s.tombstoneOrder|
  {
    h in s.tombstoneOrder[|s.tombstoneOrder| - recent..]
  }

  /** A walk at the record ends with a verdict or goes on to a record. */
  ghost predicate Onward(s: Store, recent: nat, h: Hash)
    requires IsRecord(s, h) && recent <= |s.tombstoneOrder|
  {
    Linked(s, h) || (!IsRecord(s, BlockAt(s, h).parent) && Recent(s, recent, BlockAt(s, h).parent))
  }

  /** A record that was tombstoned before, as a rejected block that became the head was, is among the newest
      tombstones. Its removal does not renew its tombstone. */
  ghost predicate BuriedLate(s: Store, recent: nat)
    requires recent <= |s.tombstoneOrder|
  {
    forall h :: IsRecord(s, h) && h in s.tombstones ==> Recent(s, recent, h)
  }

  /** How many of the newest tombstones are sure to outlast the removal of every record. */
  ghost function Spared(s: Store): (n: nat)
    ensures n <= |s.tombstoneOrder|
  {
    if |s.tombstoneOrder| + |Records(s)| <= s.limits.metadata then |s.tombstoneOrder|
    else if |Records(s)| <= s.limits.metadata then s.limits.metadata - |Records(s)|
    else 0
  }

  /** A walk from any record above the checkpoint goes on to a record or to a tombstone, but for a bare head. */
  ghost predicate Traceable(s: Store, recent: nat, finalized: Checkpoint)
    requires recent <= |s.tombstoneOrder|
  {
    forall h :: Above(s, finalized, h) ==> Onward(s, recent, h) || Bare(s, h)
  }

  ghost predicate ClearAt(s: Store, recent: nat, finalized: Checkpoint, h: Hash)
    requires recent <= |s.tombstoneOrder|
  {
    IsRecord(s, h) && (Above(s, finalized, h) ==> Onward(s, recent, h))
  }

  /** A sweep that will classify every record it looks at. */
  ghost predicate Classifiable(s: Store) {
    && s.sweep.Some? && MetadataLen(s) <= s.limits.metadata && BuriedLate(s, Spared(s))
    && Traceable(s, Spared(s), s.sweep.value.checkpoint)
    && (s.sweep.value.active.Some? ==>
          ClearAt(s, Spared(s), s.sweep.value.checkpoint, s.sweep.value.active.value.current))
  }

  // ----- What stays true while the sweep removes records -----

  /** The newest tombstones are those that count, and there is room for one more for each record. */
  ghost predicate Lasting(s: Store, recent: nat) {
    && recent <= |s.tombstoneOrder| <= s.limits.metadata && recent + |Records(s)| <= s.limits.metadata
    && Distinct(s.tombstoneOrder) && s.tombstones == Elements(s.tombstoneOrder) && BuriedLate(s, recent)
  }

  ghost predicate Clear(s: Store, recent: nat) {
    s.sweep.Some? && Lasting(s, recent) && Traceable(s, recent, s.sweep.value.checkpoint)
  }

  ghost predicate ClearSweep(s: Store, recent: nat) {
    && Clear(s, recent)
    && (s.sweep.value.active.Some? ==> ClearAt(s, recent, s.sweep.value.checkpoint, s.sweep.value.active.value.current))
  }

  lemma MetaIs(c: Chain, s: Store, h: Hash)
    requires WellFormed(c) && Inv(c, s) && IsRecord(s, h)
    ensures Meta(s, h) == Some(c.meta(h)) && c.meta(h).hash == h
  {
  }

  /** From a clear record a walk gets a verdict, or moves to a clear record. */
  lemma AdvanceClear(c: Chain, s: Store, recent: nat, w: Walk)
    requires WellFormed(c) && Inv(c, s) && Clear(s, recent) && ClearAt(s, recent, s.sweep.value.checkpoint, w.current)
    ensures match AdvanceWalk(s, w, s.sweep.value.checkpoint)
            case Settled(v) => v != Unknown
            case Moved(w') => ClearAt(s, recent, s.sweep.value.checkpoint, w'.current)
  {
    hide Inv, Distinct;
    var f := s.sweep.value.checkpoint;
    MetaIs(c, s, w.current);
    var parent := Parent(c, w.current);
    if Above(s, f, w.current) {
      if IsRecord(s, parent) {
        MetaIs(c, s, parent);
        assert !Childless(s, parent);
      } else {
        assert Recent(s, recent, parent);
        RecentIsBuried(s, recent, parent);
      }
    }
  }

  lemma RecentIsBuried(s: Store, recent: nat, h: Hash)
    requires recent <= |s.tombstoneOrder| && s.tombstones == Elements(s.tombstoneOrder)
    ensures Recent(s, recent, h) ==> h in s.tombstones
  {
    var tail := s.tombstoneOrder[|s.tombstoneOrder| - recent..];
    if h in tail {
      var i :| 0 <= i < |tail| && tail[i] == h;
      assert s.tombstoneOrder[|s.tombstoneOrder| - recent + i] == h;
    }
  }

  // ----- Removing a record -----

  lemma BuryFields(s: Store, h: Hash)
    requires h in s.tombstones ==> |s.tombstones| <= s.limits.metadata
    ensures var r := RemoveOne(s, h, true);
            && r.limits == s.limits
            && (if h in s.tombstones then r.tombstoneOrder == s.tombstoneOrder && r.tombstones == s.tombstones
                else if |s.tombstones + {h}| > s.limits.metadata
                then r.tombstoneOrder == (s.tombstoneOrder + [h])[1..]
                     && r.tombstones == s.tombstones + {h} - {(s.tombstoneOrder + [h])[0]}
                else r.tombstoneOrder == s.tombstoneOrder + [h] && r.tombstones == s.tombstones + {h})
  {
    assert h in s.tombstones ==> s.tombstones + {h} == s.tombstones;
  }

  lemma AppendElements(q: seq<Hash>, h: Hash)
    ensures Elements(q + [h]) == Elements(q) + {h}
  {
  }

  /** The end of a queue after one more entry, whether or not the first entry goes. */
  lemma TailAppended(q: seq<Hash>, h: Hash, r: seq<Hash>, recent: nat)
    requires recent <= |q| && (r == q + [h] || (r == (q + [h])[1..] && recent < |q|))
    ensures recent + 1 <= |r| && r[|r| - (recent + 1)..] == q[|q| - recent..] + [h]
  {
    assert (q + [h])[|q| - recent..] == q[|q| - recent..] + [h];
  }

  /** How many tombstones count after one more record is buried. */
  function MoreRecent(s: Store, recent: nat, h: Hash): nat { if h in s.tombstones then recent else recent + 1 }

  lemma BuryNew(s: Store, recent: nat, h: Hash)
    requires Lasting(s, recent) && IsRecord(s, h) && h !in s.tombstones
    ensures var r := RemoveOne(s, h, true);
            && recent + 1 <= |r.tombstoneOrder| <= r.limits.metadata && Distinct(r.tombstoneOrder)
            && r.tombstones == Elements(r.tombstoneOrder) <= s.tombstones + {h}
            && r.tombstoneOrder[|r.tombstoneOrder| - (recent + 1)..]
               == s.tombstoneOrder[|s.tombstoneOrder| - recent..] + [h]
  {
    hide Distinct, Elements, RemoveOne, Records, Recent, Onward, Bare, Above, BuriedLate;
    BuryFields(s, h);
    var order, all := s.tombstoneOrder, s.tombstoneOrder + [h];
    AppendElements(order, h);
    assert h !in order by { assert h in Elements(order) <==> h in order by { InElements(order, h); } }
    AppendDistinct(order, h);
    ElementsSize(order);
    ElementsSize(all);
    RestElements(all);
    assert |Records(s)| > 0 by { RecordCounts(s, h); }
    TailAppended(order, h, RemoveOne(s, h, true).tombstoneOrder, recent);
  }

  /** The buried record's tombstone and those that counted before are kept. */
  lemma BuryAgain(s: Store, recent: nat, h: Hash)
    requires Lasting(s, recent) && IsRecord(s, h) && h in s.tombstones
    ensures var r := RemoveOne(s, h, true);
            && r.tombstoneOrder == s.tombstoneOrder && r.tombstones == s.tombstones && r.limits == s.limits
            && Recent(s, recent, h)
  {
    hide Distinct, Elements, RemoveOne, Records;
    ElementsSize(s.tombstoneOrder);
    BuryFields(s, h);
  }

  lemma BuryOrder(s: Store, recent: nat, h: Hash)
    requires Lasting(s, recent) && IsRecord(s, h)
    ensures var r, recent' := RemoveOne(s, h, true), MoreRecent(s, recent, h);
            && recent' <= |r.tombstoneOrder| <= r.limits.metadata && Distinct(r.tombstoneOrder)
            && r.tombstones == Elements(r.tombstoneOrder) && r.tombstones <= s.tombstones + {h}
            && (forall x :: Recent(s, recent, x) || x == h ==> Recent(r, recent', x))
  {
    hide Distinct, Elements, RemoveOne, Records, Onward, Bare, Above, IsRecord;
    if h in s.tombstones {
      BuryAgain(s, recent, h);
    } else {
      hide BuriedLate;
      BuryNew(s, recent, h);
    }
  }

  lemma RecordCounts(s: Store, h: Hash)
    requires IsRecord(s, h)
    ensures |Records(s)| > 0
  {
    assert h in Records(s);
  }

  lemma OneFewer(a: set<Hash>, h: Hash)
    requires h in a
    ensures |a - {h}| + 1 == |a|
  {
  }

  lemma KeysWithout(a: map<Hash, Entry>, b: map<Hash, Deferred>, h: Hash)
    ensures (a - {h}).Keys + (b - {h}).Keys == a.Keys + b.Keys - {h}
  {
  }

  lemma FewerRecords(s: Store, h: Hash)
    requires IsRecord(s, h)
    ensures |Records(RemoveOne(s, h, true))| + 1 == |Records(s)|
  {
    hide RemoveOne;
    RemoveOneFields(s, h);
    KeysWithout(s.candidates, s.deferred, h);
    OneFewer(s.candidates.Keys + s.deferred.Keys, h);
  }

  lemma SameMeta(s: Store, h: Hash)
    ensures var r := RemoveOne(s, h, true);
            && (forall x :: IsRecord(r, x) <==> IsRecord(s, x) && x != h)
            && (forall x :: IsRecord(r, x) ==> Meta(r, x) == Meta(s, x))
  {
    hide RemoveOne;
    RemoveOneFields(s, h);
  }

  /** Burying a record leaves the tombstones that count, and its own counts too. */
  lemma BuryLasts(s: Store, recent: nat, h: Hash)
    requires Lasting(s, recent) && IsRecord(s, h)
    ensures var r, recent' := RemoveOne(s, h, true), MoreRecent(s, recent, h);
            Lasting(r, recent') && (forall x :: Recent(s, recent, x) || x == h ==> Recent(r, recent', x))
  {
    hide Distinct, Elements, RemoveOne, Records, IsRecord, Recent;
    BuryOrder(s, recent, h);
    FewerRecords(s, h);
    SameMeta(s, h);
    RemoveOneFields(s, h);
  }

  /** Children of the removed record have a recent tombstone for a parent; all others are as before. */
  lemma RemovalClear(s: Store, recent: nat, h: Hash)
    requires Clear(s, recent) && IsRecord(s, h)
    ensures Clear(RemoveOne(s, h, true), MoreRecent(s, recent, h))
  {
    hide Lasting, RemoveOne, IsRecord, Meta, Recent;
    BuryLasts(s, recent, h);
    LastingIsListed(s, recent);
    SameMeta(s, h);
    RemoveOneFields(s, h);
    var r, f, recent' := RemoveOne(s, h, true), s.sweep.value.checkpoint, MoreRecent(s, recent, h);
    LastingIsListed(r, recent');
    forall x | IsRecord(r, x) && Bare(s, x)
      ensures Bare(r, x)
    {
      assert forall y :: IsRecord(r, y) ==> IsRecord(s, y) && BlockAt(r, y) == BlockAt(s, y);
    }
    assert forall x :: Above(r, f, x) ==> Above(s, f, x);
  }

  lemma LastingIsListed(s: Store, recent: nat)
    requires Lasting(s, recent)
    ensures recent <= |s.tombstoneOrder| && s.tombstones == Elements(s.tombstoneOrder)
  {
  }

  // ----- One unit -----

  lemma SettleClear(s: Store, recent: nat, sweep: Sweep, w: Walk, verdict: Verdict) returns (recent': nat)
    requires Clear(s, recent) && sweep.checkpoint == s.sweep.value.checkpoint && verdict != Unknown
    ensures !Settle(s, sweep, w, verdict).unknown && ClearSweep(Settle(s, sweep, w, verdict).store, recent')
  {
    hide RemoveOne, Memoised, Distinct, Elements;
    var noted := s.(sweep := Some(sweep.(verdicts := Memoised(sweep.verdicts, w, verdict), active := None)));
    assert Clear(noted, recent) by { SameClear(s, noted, recent); }
    if Condemned(s, w, verdict) {
      RemovalClear(noted, recent, w.root);
      RemoveOneFields(noted, w.root);
      recent' := MoreRecent(noted, recent, w.root);
    } else {
      recent' := recent;
    }
  }

  /** Of the sweep, only the checkpoint matters. */
  lemma SameClear(s: Store, r: Store, recent: nat)
    requires Clear(s, recent) && r.sweep.Some? && r == s.(sweep := r.sweep)
    requires r.sweep.value.checkpoint == s.sweep.value.checkpoint
    ensures Clear(r, recent)
    ensures forall h :: IsRecord(r, h) ==> (Onward(r, recent, h) <==> Onward(s, recent, h))
  {
    hide Distinct, Elements;
    assert forall y :: IsRecord(r, y) <==> IsRecord(s, y);
    assert forall y :: Recent(r, recent, y) <==> Recent(s, recent, y);
    assert forall y :: IsRecord(r, y) ==> BlockAt(r, y) == BlockAt(s, y);
    assert forall y :: Above(r, r.sweep.value.checkpoint, y) ==> Above(s, r.sweep.value.checkpoint, y);
    SameRecords(s, r);
  }

  lemma ExamineClear(c: Chain, s: Store, recent: nat, sweep: Sweep, w: Walk) returns (recent': nat)
    requires WellFormed(c) && Inv(c, s) && Clear(s, recent)
    requires sweep.checkpoint == s.sweep.value.checkpoint && sweep.active.None?
    requires VerdictsSound(c, sweep.checkpoint, s.terminal, sweep.verdicts)
    requires ClearAt(s, recent, sweep.checkpoint, w.current)
    ensures !Examine(s, sweep, w).unknown && ClearSweep(Examine(s, sweep, w).store, recent')
  {
    hide Inv, Settle, AdvanceWalk, Clear, ClearAt;
    if w.current in sweep.verdicts {
      recent' := SettleClear(s, recent, sweep, w, sweep.verdicts[w.current]);
    } else {
      AdvanceClear(c, s, recent, w);
      match AdvanceWalk(s, w, sweep.checkpoint)
      case Settled(v) => recent' := SettleClear(s, recent, sweep, w, v);
      case Moved(w') =>
        recent' := recent;
        MovedClear(s, recent, sweep, w');
    }
  }

  lemma MovedClear(s: Store, recent: nat, sweep: Sweep, w: Walk)
    requires Clear(s, recent) && sweep.checkpoint == s.sweep.value.checkpoint
    requires ClearAt(s, recent, sweep.checkpoint, w.current)
    ensures ClearSweep(s.(sweep := Some(sweep.(active := Some(w)))), recent)
  {
    hide Clear;
    SameClear(s, s.(sweep := Some(sweep.(active := Some(w)))), recent);
  }

  lemma UnitClear(c: Chain, s: Store, recent: nat) returns (recent': nat)
    requires Ready(c, s) && Busy(s) && ClearSweep(s, recent)
    ensures !SweepUnit(s).unknown && ClearSweep(SweepUnit(s).store, recent')
  {
    hide Inv, Examine, VerdictsSound, Distinct, Elements;
    var sweep := s.sweep.value;
    if sweep.active.Some? {
      recent' := ExamineClear(c, s, recent, sweep.(active := None), sweep.active.value);
    } else {
      var t, rest := sweep.pending[0], sweep.(pending := sweep.pending[1..]);
      if Skipped(s, t) {
        SameClear(s, SweepUnit(s).store, recent);
        recent' := recent;
      } else {
        recent' := ExamineClear(c, s, recent, rest, Walk(t.incarnation, t.hash, t.hash, []));
      }
    }
  }

  lemma {:induction false} ClearRun(c: Chain, s: Store, recent: nat, budget: nat)
    requires Ready(c, s) && ClearSweep(s, recent)
    ensures NoUnknown(s, budget)
    decreases budget
  {
    hide Inv, SweepUnit, SweepSound, ClearSweep;
    if budget > 0 && Busy(s) {
      var recent' := UnitClear(c, s, recent);
      UnitKeeps(c, s);
      ClearRun(c, SweepUnit(s).store, recent', budget - 1);
    }
  }

  /** No walk of a classifiable sweep ends unclassified. */
  lemma ClassifiesAll(c: Chain, s: Store, budget: nat)
    requires Ready(c, s) && Classifiable(s)
    ensures NoUnknown(s, budget)
  {
    hide NoUnknown, Records, SweepSound;
    RecordsSize(s);
    ElementsSize(s.tombstoneOrder);
    ClearRun(c, s, Spared(s), budget);
  }

  /** The work of a classifiable sweep is linear: one unit for each ticket, each record, and a walk under way. */
  lemma SweepDrains(c: Chain, s: Store, budget: nat)
    requires Ready(c, s) && Classifiable(s)
    requires budget >= |s.sweep.value.pending| + MetadataLen(s) + (if s.sweep.value.active.Some? then 1 else 0)
    ensures ProcessFinality(s, budget).store.sweep.None?
  {
    hide Inv, ProcessFinality, NoUnknown, SweepSound;
    ClassifiesAll(c, s, budget);
    LinearBound(c, s, budget);
  }

  // ----- The converse, for a sweep that has just begun -----

  /** A record above the checkpoint whose parent is neither a record nor a tombstone. */
  predicate Stray(s: Store, finalized: Checkpoint, h: Hash) {
    Above(s, finalized, h) && !IsRecord(s, BlockAt(s, h).parent) && BlockAt(s, h).parent !in s.tombstones
  }

  /** A record the sweep will walk from, which leads to `h` in at most one step. */
  predicate Leads(s: Store, finalized: Checkpoint, x: Hash, h: Hash) {
    && IsRecord(s, x) && x != s.head && IsRecord(s, h)
    && (x == h || (BlockAt(s, x).parent == h && Above(s, finalized, x) && Linked(s, x)))
  }

  predicate Awaited(s: Store, sweep: Sweep, x: Hash) {
    Incarnation(s, x).Some? && Ticket(Incarnation(s, x).value, x) in sweep.pending
  }

  predicate Clean(w: Walk, x: Hash, h: Hash) {
    h !in w.path && (x in w.path ==> w.current == h)
  }

  predicate Unseen(verdicts: map<Hash, Verdict>, x: Hash, h: Hash) { x !in verdicts && h !in verdicts }

  /** The walk that will find the stray is still to come, or under way. */
  ghost predicate Looming(s: Store, x: Hash, h: Hash) {
    && s.sweep.Some? && Stray(s, s.sweep.value.checkpoint, h) && Leads(s, s.sweep.value.checkpoint, x, h)
    && Unseen(s.sweep.value.verdicts, x, h)
    && (s.sweep.value.active.Some? ==> Clean(s.sweep.value.active.value, x, h))
    && (Awaited(s, s.sweep.value, x)
        || (s.sweep.value.active.Some? && s.sweep.value.active.value.current in {x, h}))
  }

  /** At the stray a walk cannot be classified, and from the record leading to it a walk moves there. */
  lemma AdvanceLooms(c: Chain, s: Store, finalized: Checkpoint, x: Hash, h: Hash, w: Walk)
    requires WellFormed(c) && Inv(c, s) && Stray(s, finalized, h) && Leads(s, finalized, x, h) && Clean(w, x, h)
    ensures match AdvanceWalk(s, w, finalized)
            case Settled(v) => v == Unknown || w.current !in {x, h}
            case Moved(w') => w.current != h && Clean(w', x, h) && (w.current == x ==> w'.current == h)
  {
    hide Inv;
    MetaIs(c, s, h);
    MetaIs(c, s, x);
  }

  lemma SettleLooms(s: Store, sweep: Sweep, x: Hash, h: Hash, w: Walk, verdict: Verdict)
    requires Stray(s, sweep.checkpoint, h) && Leads(s, sweep.checkpoint, x, h) && Unseen(sweep.verdicts, x, h)
    requires Clean(w, x, h) && w.current !in {x, h} && (w.path + [w.current])[0] == w.root
    requires Awaited(s, sweep, x) && verdict != Unknown
    ensures Looming(Settle(s, sweep, w, verdict).store, x, h)
  {
    hide RemoveOne;
    var noted := s.(sweep := Some(sweep.(verdicts := Memoised(sweep.verdicts, w, verdict), active := None)));
    assert w.root !in {x, h};
    assert Looming(noted, x, h);
    if Condemned(s, w, verdict) {
      BuryLooms(noted, x, h, w.root);
    }
  }

  lemma BuryLooms(s: Store, x: Hash, h: Hash, root: Hash)
    requires Looming(s, x, h) && s.sweep.value.active.None? && IsRecord(s, root) && root !in {x, h}
    ensures Looming(RemoveOne(s, root, true), x, h)
  {
    hide RemoveOne;
    RemoveOneFields(s, root);
    SameMeta(s, root);
    assert RemoveOne(s, root, true).tombstones <= s.tombstones + {root} by { OneTombstone(s, root); }
  }

  lemma OneTombstone(s: Store, h: Hash)
    ensures RemoveOne(s, h, true).tombstones <= s.tombstones + {h}
  {
  }

  lemma ExamineLooms(c: Chain, s: Store, sweep: Sweep, x: Hash, h: Hash, w: Walk)
    requires WellFormed(c) && Inv(c, s) && WalkSound(c, sweep.checkpoint, w) && sweep.active.None?
    requires VerdictsSound(c, sweep.checkpoint, s.terminal, sweep.verdicts)
    requires Stray(s, sweep.checkpoint, h) && Leads(s, sweep.checkpoint, x, h) && Unseen(sweep.verdicts, x, h)
    requires Clean(w, x, h) && (Awaited(s, sweep, x) || w.current in {x, h})
    requires !Examine(s, sweep, w).unknown
    ensures Looming(Examine(s, sweep, w).store, x, h)
  {
    hide Inv, Settle, AdvanceWalk;
    if w.current in sweep.verdicts {
      SettleLooms(s, sweep, x, h, w, sweep.verdicts[w.current]);
    } else {
      AdvanceLooms(c, s, sweep.checkpoint, x, h, w);
      match AdvanceWalk(s, w, sweep.checkpoint)
      case Settled(v) =>
        assert v != Unknown by { UnknownIsReported(s, sweep, w, v); }
        SettleLooms(s, sweep, x, h, w, v);
      case Moved(w') =>
    }
  }

  lemma UnitLooms(c: Chain, s: Store, x: Hash, h: Hash)
    requires Ready(c, s) && Looming(s, x, h) && Busy(s) && !SweepUnit(s).unknown
    ensures Looming(SweepUnit(s).store, x, h)
  {
    hide Inv, Examine, VerdictsSound, Stray, Leads;
    var sweep := s.sweep.value;
    if sweep.active.Some? {
      ExamineLooms(c, s, sweep.(active := None), x, h, sweep.active.value);
    } else {
      var t, rest := sweep.pending[0], sweep.(pending := sweep.pending[1..]);
      if Skipped(s, t) {
        LeadsFromElsewhere(s, sweep.checkpoint, x, h);
        assert t != Ticket(Incarnation(s, x).value, x);
        assert Looming(SweepUnit(s).store, x, h) by { SameStray(s, SweepUnit(s).store, sweep.checkpoint, x, h); }
      } else {
        ExamineLooms(c, s, rest, x, h, Walk(t.incarnation, t.hash, t.hash, []));
      }
    }
  }

  lemma LeadsFromElsewhere(s: Store, finalized: Checkpoint, x: Hash, h: Hash)
    requires Leads(s, finalized, x, h)
    ensures x != s.head
  {
  }

  lemma SameStray(s: Store, r: Store, finalized: Checkpoint, x: Hash, h: Hash)
    requires r == s.(sweep := r.sweep) && Stray(s, finalized, h) && Leads(s, finalized, x, h)
    ensures Stray(r, finalized, h) && Leads(r, finalized, x, h)
  {
  }

  /** While the stray looms the sweep is busy, so it is found before the sweep runs out of work. */
  lemma {:induction false} StrayIsFound(c: Chain, s: Store, x: Hash, h: Hash, budget: nat)
    requires Ready(c, s) && Looming(s, x, h) && budget >= Toil(s)
    ensures !NoUnknown(s, budget)
    decreases budget
  {
    hide Inv, SweepUnit, SweepSound, Toil, Stray, Leads;
    assert Busy(s);
    UnitToils(c, s);
    if !SweepUnit(s).unknown {
      UnitLooms(c, s, x, h);
      UnitKeeps(c, s);
      StrayIsFound(c, SweepUnit(s).store, x, h, budget - 1);
    }
  }

  /** Numbers go up by one from a record to its children. */
  ghost predicate Consecutive(s: Store) {
    forall h :: IsRecord(s, h) && IsRecord(s, BlockAt(s, h).parent) ==> Linked(s, h)
  }

  lemma EveryRecordWaits(c: Chain, s: Store, finalized: Checkpoint, x: Hash)
    requires Inv(c, s) && IsRecord(s, x)
    ensures Awaited(s, BeginSweep(s, finalized).sweep.value, x)
  {
  }

  lemma StrayHere(c: Chain, s: Store, finalized: Checkpoint, h: Hash)
    requires Inv(c, s) && Consecutive(s) && Above(s, finalized, h) && !Onward(s, |s.tombstoneOrder|, h)
    ensures Stray(s, finalized, h)
  {
    assert s.tombstones == Elements(s.tombstoneOrder);
    hide Inv, Elements;
    AllAreRecent(s, BlockAt(s, h).parent);
  }

  lemma StrayLooms(c: Chain, s: Store, finalized: Checkpoint, h: Hash) returns (x: Hash)
    requires Inv(c, s) && Consecutive(s)
    requires Above(s, finalized, h) && !Onward(s, |s.tombstoneOrder|, h) && !Bare(s, h)
    ensures Looming(BeginSweep(s, finalized), x, h)
  {
    hide Inv, Onward;
    StrayHere(c, s, finalized, h);
    if h != s.head {
      x := h;
    } else {
      x :| IsRecord(s, x) && BlockAt(s, x).parent == h;
      assert Linked(s, x);
    }
    assert Leads(s, finalized, x, h);
    hide Stray, Leads, Consecutive, Bare, Above;
    assert Awaited(s, BeginSweep(s, finalized).sweep.value, x) by { EveryRecordWaits(c, s, finalized, x); }
    BeginStray(s, finalized, x, h);
  }

  lemma BeginStray(s: Store, finalized: Checkpoint, x: Hash, h: Hash)
    requires Stray(s, finalized, h) && Leads(s, finalized, x, h)
    ensures Stray(BeginSweep(s, finalized), finalized, h) && Leads(BeginSweep(s, finalized), finalized, x, h)
  {
  }

  lemma AllAreRecent(s: Store, h: Hash)
    requires s.tombstones == Elements(s.tombstoneOrder)
    ensures h in s.tombstones <==> Recent(s, |s.tombstoneOrder|, h)
  {
    assert s.tombstoneOrder[0..] == s.tombstoneOrder;
  }

  lemma BeginReady(c: Chain, s: Store, finalized: Checkpoint)
    requires WellFormed(c) && Inv(c, s)
    ensures Ready(c, BeginSweep(s, finalized))
  {
  }

  lemma BeginClassifiable(s: Store, finalized: Checkpoint)
    requires MetadataLen(s) <= s.limits.metadata && BuriedLate(s, Spared(s)) && Traceable(s, Spared(s), finalized)
    ensures Classifiable(BeginSweep(s, finalized))
  {
    var r := BeginSweep(s, finalized);
    SameRecords(s, r);
    assert Spared(r) == Spared(s);
    assert forall y :: IsRecord(r, y) <==> IsRecord(s, y);
    assert forall y :: IsRecord(r, y) ==> BlockAt(r, y) == BlockAt(s, y);
    assert forall y :: Recent(r, Spared(r), y) <==> Recent(s, Spared(s), y);
    assert forall y :: Above(r, finalized, y) <==> Above(s, finalized, y);
    assert forall y :: Childless(r, y) <==> Childless(s, y);
  }

  /** No walk of the sweep that begins on the store ends unclassified, however far it runs. */
  ghost predicate Classifies(s: Store, finalized: Checkpoint) {
    forall budget: nat :: NoUnknown(BeginSweep(s, finalized), budget)
  }

  lemma ClassifiesIf(c: Chain, s: Store, finalized: Checkpoint)
    requires WellFormed(c) && Inv(c, s) && MetadataLen(s) <= s.limits.metadata
    requires BuriedLate(s, Spared(s)) && Traceable(s, Spared(s), finalized)
    ensures Classifies(s, finalized)
  {
    hide Inv, NoUnknown, Classifiable, BeginSweep, Spared;
    BeginReady(c, s, finalized);
    BeginClassifiable(s, finalized);
    forall budget: nat
      ensures NoUnknown(BeginSweep(s, finalized), budget)
    {
      ClassifiesAll(c, BeginSweep(s, finalized), budget);
    }
  }

  lemma ClassifiesOnlyIf(c: Chain, s: Store, finalized: Checkpoint)
    requires WellFormed(c) && Inv(c, s) && Consecutive(s) && Classifies(s, finalized)
    ensures Traceable(s, |s.tombstoneOrder|, finalized)
  {
    hide Inv, NoUnknown, BeginSweep, Onward, Bare;
    BeginReady(c, s, finalized);
    if !Traceable(s, |s.tombstoneOrder|, finalized) {
      var h :| Above(s, finalized, h) && !Onward(s, |s.tombstoneOrder|, h) && !Bare(s, h);
      var x := StrayLooms(c, s, finalized, h);
      var begun := BeginSweep(s, finalized);
      StrayIsFound(c, begun, x, h, Toil(begun));
    }
  }

  /** A sweep classifies every record it looks at if the store it begins on is traceable by tombstones that cannot
      age out, and only if it is traceable by its tombstones. Where every record could be tombstoned without
      one ageing out the two are the same. */
  lemma ClassifiesExactly(c: Chain, s: Store, finalized: Checkpoint)
    requires WellFormed(c) && Inv(c, s) && MetadataLen(s) <= s.limits.metadata && Consecutive(s)
    ensures BuriedLate(s, Spared(s)) && Traceable(s, Spared(s), finalized) ==> Classifies(s, finalized)
    ensures Classifies(s, finalized) ==> Traceable(s, |s.tombstoneOrder|, finalized)
    ensures |s.tombstoneOrder| + MetadataLen(s) <= s.limits.metadata ==>
              (Classifies(s, finalized) <==> Traceable(s, |s.tombstoneOrder|, finalized))
  {
    hide Classifies, Traceable;
    assert s.tombstones == Elements(s.tombstoneOrder);
    hide Inv, Elements;
    if BuriedLate(s, Spared(s)) && Traceable(s, Spared(s), finalized) {
      ClassifiesIf(c, s, finalized);
    }
    if Classifies(s, finalized) {
      ClassifiesOnlyIf(c, s, finalized);
    }
    if |s.tombstoneOrder| + MetadataLen(s) <= s.limits.metadata {
      RecordsSize(s);
      forall h | IsRecord(s, h) && h in s.tombstones
        ensures Recent(s, |s.tombstoneOrder|, h)
      {
        AllAreRecent(s, h);
      }
    }
  }
}

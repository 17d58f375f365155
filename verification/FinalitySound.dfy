/** What the finality sweep may remove, and how much work it takes. */
module FinalitySound {
  import opened Types
  import opened Chain
  import opened Store
  import opened StoreInvariants
  import opened StoreTrees
  import opened Finality

  // ----- Meaning of a verdict -----

  /** The ancestor of `h` at the finalized height is another block than the finalized one. */
  predicate OffChain(c: Chain, finalized: Checkpoint, h: Hash) {
    Number(c, h) >= finalized.number
    && var a := Up(c, h, Number(c, h) - finalized.number);
       Number(c, a) == finalized.number && a != finalized.hash
  }

  /** `h` is off the finalized chain, or descends from a block that was tombstoned. */
  ghost predicate Doomed(c: Chain, finalized: Checkpoint, terminal: set<Hash>, h: Hash) {
    OffChain(c, finalized, h) || exists t :: t in terminal && Below(c, t, Parent(c, h))
  }

  /** `h` is off the finalized chain, or descends from a block that is, or from one in the set. */
  ghost predicate Cursed(c: Chain, finalized: Checkpoint, terminal: set<Hash>, h: Hash) {
    OffChain(c, finalized, h)
    || exists a :: Below(c, a, Parent(c, h)) && (OffChain(c, finalized, a) || a in terminal)
  }

  lemma DoomedIsCursed(c: Chain, finalized: Checkpoint, terminal: set<Hash>, h: Hash)
    requires Doomed(c, finalized, terminal, h)
    ensures Cursed(c, finalized, terminal, h)
  {
  }

  /** A curse that started from cursed blocks started from what those were cursed by. */
  lemma CursedBefore(c: Chain, finalized: Checkpoint, terminal: set<Hash>, more: set<Hash>, h: Hash)
    requires Cursed(c, finalized, more, h)
    requires forall t :: t in more ==> t in terminal || Cursed(c, finalized, terminal, t)
    ensures Cursed(c, finalized, terminal, h)
  {
    if !OffChain(c, finalized, h) {
      var a :| Below(c, a, Parent(c, h)) && (OffChain(c, finalized, a) || a in more);
      if !OffChain(c, finalized, a) && a !in terminal {
        var b :| Below(c, b, Parent(c, a)) && (OffChain(c, finalized, b) || b in terminal);
        BelowStep(c, b, a);
        BelowTrans(c, b, a, Parent(c, h));
      }
    }
  }

  predicate OnChain(c: Chain, finalized: Checkpoint, h: Hash) {
    Number(c, h) < finalized.number || Up(c, h, Number(c, h) - finalized.number) == finalized.hash
  }

  ghost predicate Sound(c: Chain, finalized: Checkpoint, terminal: set<Hash>, h: Hash, verdict: Verdict) {
    match verdict
    case Conflict => Doomed(c, finalized, terminal, h)
    case Compatible => OnChain(c, finalized, h)
    case Unknown => false
  }

  ghost predicate VerdictsSound(c: Chain, finalized: Checkpoint, terminal: set<Hash>, verdicts: map<Hash, Verdict>) {
    forall h :: h in verdicts ==> Sound(c, finalized, terminal, h, verdicts[h])
  }

  /** An edge a walk may cross: one block down, from above the finalized height. */
  predicate Descent(c: Chain, finalized: Checkpoint, h: Hash, parent: Hash) {
    parent == Parent(c, h) && Number(c, h) == Number(c, parent) + 1 && Number(c, h) > finalized.number
  }

  ghost predicate WalkSound(c: Chain, finalized: Checkpoint, w: Walk) {
    && (w.path + [w.current])[0] == w.root
    && forall i :: 0 <= i < |w.path| ==> Descent(c, finalized, w.path[i], (w.path + [w.current])[i + 1])
  }

  /** A live sweep is about the last finalized checkpoint, and everything it remembers is true. */
  ghost predicate SweepSound(c: Chain, s: Store) {
    s.sweep.Some? ==>
      && s.lastFinalized == Some(s.sweep.value.checkpoint)
      && VerdictsSound(c, s.sweep.value.checkpoint, s.terminal, s.sweep.value.verdicts)
      && (s.sweep.value.active.Some? ==> WalkSound(c, s.sweep.value.checkpoint, s.sweep.value.active.value))
  }

  lemma DoomedGrows(c: Chain, finalized: Checkpoint, terminal: set<Hash>, more: set<Hash>, h: Hash)
    requires Doomed(c, finalized, terminal, h) && terminal <= more
    ensures Doomed(c, finalized, more, h)
  {
  }

  lemma VerdictsGrow(c: Chain, finalized: Checkpoint, terminal: set<Hash>, more: set<Hash>,
                     verdicts: map<Hash, Verdict>)
    requires VerdictsSound(c, finalized, terminal, verdicts) && terminal <= more
    ensures VerdictsSound(c, finalized, more, verdicts)
  {
    forall h | h in verdicts
      ensures Sound(c, finalized, more, h, verdicts[h])
    {
      if verdicts[h] == Conflict {
        DoomedGrows(c, finalized, terminal, more, h);
      }
    }
  }

  /** A verdict holds one block higher as well. */
  lemma VerdictClimbs(c: Chain, finalized: Checkpoint, terminal: set<Hash>, h: Hash, parent: Hash, verdict: Verdict)
    requires Descent(c, finalized, h, parent) && Sound(c, finalized, terminal, parent, verdict)
    ensures Sound(c, finalized, terminal, h, verdict)
  {
    assert Up(c, h, Number(c, h) - finalized.number) == Up(c, parent, Number(c, parent) - finalized.number);
    if verdict == Conflict && !OffChain(c, finalized, parent) {
      var t :| t in terminal && Below(c, t, Parent(c, parent));
      BelowStep(c, t, parent);
    }
  }

  /** A verdict for the end of a walk holds on its whole path. */
  lemma {:induction false} VerdictForPath(c: Chain, finalized: Checkpoint, terminal: set<Hash>, w: Walk,
                                          verdict: Verdict, i: nat)
    requires WalkSound(c, finalized, w) && i <= |w.path|
    requires Sound(c, finalized, terminal, w.current, verdict)
    ensures Sound(c, finalized, terminal, (w.path + [w.current])[i], verdict)
    decreases |w.path| - i
  {
    hide Sound;
    if i < |w.path| {
      VerdictForPath(c, finalized, terminal, w, verdict, i + 1);
      VerdictClimbs(c, finalized, terminal, w.path[i], (w.path + [w.current])[i + 1], verdict);
    }
  }

  /** One step of a walk gives a true verdict, or extends the walk by a sound edge. */
  lemma AdvanceSound(c: Chain, s: Store, w: Walk, finalized: Checkpoint)
    requires WellFormed(c) && Named(c, s.candidates, s.deferred) && s.tombstones <= s.terminal
    requires WalkSound(c, finalized, w)
    ensures match AdvanceWalk(s, w, finalized)
            case Settled(v) => v == Unknown || Sound(c, finalized, s.terminal, w.current, v)
            case Moved(w') => WalkSound(c, finalized, w') && w'.root == w.root && w'.incarnation == w.incarnation
                              && IsRecord(s, w.current) && w'.path == w.path + [w.current]
  {
    if IsRecord(s, w.current) {
      assert Meta(s, w.current) == Some(c.meta(w.current));
      var parent := Parent(c, w.current);
      assert Up(c, w.current, 0) == w.current;
      if IsRecord(s, parent) {
        assert Meta(s, parent) == Some(c.meta(parent));
        match AdvanceWalk(s, w, finalized)
        case Settled(v) =>
        case Moved(w') =>
          assert forall i :: 0 <= i <= |w.path| ==> (w'.path + [w'.current])[i] == (w.path + [w.current])[i];
      } else {
        BelowSelf(c, parent);
      }
    }
  }

  lemma MemoisedSound(c: Chain, finalized: Checkpoint, terminal: set<Hash>, verdicts: map<Hash, Verdict>, w: Walk,
                      verdict: Verdict)
    requires VerdictsSound(c, finalized, terminal, verdicts) && WalkSound(c, finalized, w)
    requires verdict == Unknown || Sound(c, finalized, terminal, w.current, verdict)
    ensures VerdictsSound(c, finalized, terminal, Memoised(verdicts, w, verdict))
  {
    var after := Memoised(verdicts, w, verdict);
    forall h | h in after
      ensures Sound(c, finalized, terminal, h, after[h])
    {
      if verdict != Unknown && h in w.path {
        var i :| 0 <= i < |w.path| && w.path[i] == h;
        VerdictForPath(c, finalized, terminal, w, verdict, i);
      }
    }
  }

  // ----- Steps of the sweep -----

  /** The sweep took out only records that are cursed by finality or by what was terminal before, made
      exactly those terminal, and changed no other. */
  ghost predicate OnlyDoomed(c: Chain, finalized: Checkpoint, s: Store, r: Store) {
    && (forall h :: h in r.candidates ==> h in s.candidates && r.candidates[h] == s.candidates[h])
    && (forall h :: h in r.deferred ==> h in s.deferred && r.deferred[h] == s.deferred[h])
    && (forall h :: Gone(s, r, h) ==> Cursed(c, finalized, s.terminal, h))
    && s.terminal <= r.terminal
    && (forall h :: h in r.terminal ==> h in s.terminal || Gone(s, r, h))
    && (forall h :: Gone(s, r, h) ==> h in r.terminal)
    && r.limits == s.limits && r.head == s.head && r.lastFinalized == s.lastFinalized && r.anchor == s.anchor
  }

  lemma OnlyDoomedTrans(c: Chain, finalized: Checkpoint, s: Store, m: Store, r: Store)
    requires OnlyDoomed(c, finalized, s, m) && OnlyDoomed(c, finalized, m, r)
    ensures OnlyDoomed(c, finalized, s, r)
  {
    hide Cursed;
    forall h | Gone(s, r, h)
      ensures Cursed(c, finalized, s.terminal, h) && h in r.terminal
    {
      if !Gone(s, m, h) {
        assert Gone(m, r, h);
        CursedBefore(c, finalized, s.terminal, m.terminal, h);
      }
    }
    forall h | h in r.terminal
      ensures h in s.terminal || Gone(s, r, h)
    {
    }
  }

  ghost predicate Ready(c: Chain, s: Store) {
    WellFormed(c) && Inv(c, s) && SweepSound(c, s)
  }

  /** A sweep value that may be put back into the store. */
  ghost predicate Usable(c: Chain, s: Store, sweep: Sweep) {
    s.lastFinalized == Some(sweep.checkpoint) && VerdictsSound(c, sweep.checkpoint, s.terminal, sweep.verdicts)
  }

  lemma RemoveOneFields(s: Store, h: Hash)
    ensures var r := RemoveOne(s, h, true);
            && r.candidates == s.candidates - {h} && r.deferred == s.deferred - {h}
            && r.terminal == s.terminal + {h} && r.sweep == s.sweep && r.limits == s.limits && r.head == s.head
            && r.lastFinalized == s.lastFinalized && r.anchor == s.anchor && r.nextIncarnation == s.nextIncarnation
  {
  }

  lemma SettleKeeps(c: Chain, s: Store, sweep: Sweep, w: Walk, verdict: Verdict)
    requires WellFormed(c) && Inv(c, s) && Usable(c, s, sweep) && WalkSound(c, sweep.checkpoint, w)
    requires verdict == Unknown || Sound(c, sweep.checkpoint, s.terminal, w.current, verdict)
    ensures Ready(c, Settle(s, sweep, w, verdict).store)
    ensures OnlyDoomed(c, sweep.checkpoint, s, Settle(s, sweep, w, verdict).store)
  {
    hide Inv, RemoveOne, Memoised, Cursed, VerdictsSound;
    MemoisedSound(c, sweep.checkpoint, s.terminal, sweep.verdicts, w, verdict);
    var verdicts := Memoised(sweep.verdicts, w, verdict);
    var noted := s.(sweep := Some(sweep.(verdicts := verdicts, active := None)));
    assert Inv(c, noted) by { SweepUnread(c, s, noted.sweep); }
    if Condemned(s, w, verdict) {
      RemoveOneInv(c, noted, w.root);
      RemoveOneFields(noted, w.root);
      VerdictForPath(c, sweep.checkpoint, s.terminal, w, verdict, 0);
      DoomedIsCursed(c, sweep.checkpoint, s.terminal, w.root);
      VerdictsGrow(c, sweep.checkpoint, s.terminal, s.terminal + {w.root}, verdicts);
    }
  }

  lemma SweepUnread(c: Chain, s: Store, sweep: Option<Sweep>)
    requires Inv(c, s)
    ensures Inv(c, s.(sweep := sweep))
  {
  }

  lemma RemoveOneInv(c: Chain, s: Store, h: Hash)
    requires Inv(c, s)
    ensures Inv(c, RemoveOne(s, h, true))
  {
    RemoveOneKeeps(c, s, h, true, {});
  }

  lemma ExamineKeeps(c: Chain, s: Store, sweep: Sweep, w: Walk)
    requires WellFormed(c) && Inv(c, s) && Usable(c, s, sweep) && WalkSound(c, sweep.checkpoint, w)
    ensures Ready(c, Examine(s, sweep, w).store)
    ensures OnlyDoomed(c, sweep.checkpoint, s, Examine(s, sweep, w).store)
  {
    hide Inv, Settle, AdvanceWalk;
    if w.current in sweep.verdicts {
      SettleKeeps(c, s, sweep, w, sweep.verdicts[w.current]);
    } else {
      assert Named(c, s.candidates, s.deferred) && s.tombstones <= s.terminal by { InvParts(c, s); }
      AdvanceSound(c, s, w, sweep.checkpoint);
      match AdvanceWalk(s, w, sweep.checkpoint)
      case Settled(v) => SettleKeeps(c, s, sweep, w, v);
      case Moved(w') => SweepUnread(c, s, Some(sweep.(active := Some(w'))));
    }
  }

  lemma InvParts(c: Chain, s: Store)
    requires Inv(c, s)
    ensures Named(c, s.candidates, s.deferred) && s.tombstones <= s.terminal
  {
  }

  lemma UnitKeeps(c: Chain, s: Store)
    requires Ready(c, s) && Busy(s)
    ensures Ready(c, SweepUnit(s).store)
    ensures OnlyDoomed(c, s.sweep.value.checkpoint, s, SweepUnit(s).store)
  {
    hide Inv, Examine;
    var sweep := s.sweep.value;
    if sweep.active.Some? {
      ExamineKeeps(c, s, sweep.(active := None), sweep.active.value);
    } else {
      var t := sweep.pending[0];
      var rest := sweep.(pending := sweep.pending[1..]);
      if Skipped(s, t) {
        SweepUnread(c, s, Some(rest));
      } else {
        ExamineKeeps(c, s, rest, Walk(t.incarnation, t.hash, t.hash, []));
      }
    }
  }

  lemma OnlyDoomedSelf(c: Chain, finalized: Checkpoint, s: Store)
    ensures OnlyDoomed(c, finalized, s, s)
  {
  }

  lemma {:induction false} UnitsKeep(c: Chain, s: Store, finalized: Checkpoint, budget: nat)
    requires Ready(c, s) && s.lastFinalized == Some(finalized)
    ensures Ready(c, SweepUnits(s, budget).store)
    ensures OnlyDoomed(c, finalized, s, SweepUnits(s, budget).store)
    decreases budget
  {
    hide Inv, SweepUnit, OnlyDoomed;
    if budget == 0 || !Busy(s) {
      OnlyDoomedSelf(c, finalized, s);
    } else {
      UnitKeeps(c, s);
      var m := SweepUnit(s).store;
      assert m.lastFinalized == s.lastFinalized by { OnlyDoomedFinalized(c, finalized, s, m); }
      UnitsKeep(c, m, finalized, budget - 1);
      OnlyDoomedTrans(c, finalized, s, m, SweepUnits(m, budget - 1).store);
    }
  }

  lemma OnlyDoomedFinalized(c: Chain, finalized: Checkpoint, s: Store, r: Store)
    requires OnlyDoomed(c, finalized, s, r)
    ensures r.lastFinalized == s.lastFinalized
  {
  }

  /** A slice of the sweep, from any store with a sound sweep: every record it removes is off the
      finalized chain, or descends from a block that is or that was tombstoned before the slice; all
      other records stay as they were, and the sweep that is left is again about the last finalized
      checkpoint and sound. */
  lemma FinalitySoundness(c: Chain, s: Store, budget: nat)
    requires Ready(c, s)
    ensures var r := ProcessFinality(s, budget).store;
            && Ready(c, r)
            && (s.lastFinalized.Some? ==> OnlyDoomed(c, s.lastFinalized.value, s, r))
            && (s.lastFinalized.None? ==> r == s)
  {
    hide Inv, OnlyDoomed;
    var m := SweepUnits(s, budget).store;
    if s.lastFinalized.Some? {
      UnitsKeep(c, s, s.lastFinalized.value, budget);
      SweepUnread(c, m, CloseSweep(m).sweep);
      OnlyDoomedClose(c, s.lastFinalized.value, s, m);
    }
  }

  lemma OnlyDoomedClose(c: Chain, finalized: Checkpoint, s: Store, m: Store)
    requires OnlyDoomed(c, finalized, s, m)
    ensures OnlyDoomed(c, finalized, s, CloseSweep(m))
  {
    assert forall h :: Gone(s, CloseSweep(m), h) <==> Gone(s, m, h);
  }

  lemma UnitRetires(s: Store)
    requires Busy(s)
    ensures Retires(s, SweepUnit(s).store, SweepUnit(s).retired)
  {
    var sweep := s.sweep.value;
    if sweep.active.Some? {
      ExamineRetires(s, sweep.(active := None), sweep.active.value);
    } else {
      var t := sweep.pending[0];
      ExamineRetires(s, sweep.(pending := sweep.pending[1..]), Walk(t.incarnation, t.hash, t.hash, []));
    }
  }

  lemma SettleRetires(s: Store, sweep: Sweep, w: Walk, verdict: Verdict)
    ensures Retires(s, Settle(s, sweep, w, verdict).store, Settle(s, sweep, w, verdict).retired)
  {
    hide RemoveOne, Memoised;
    var noted := s.(sweep := Some(sweep.(verdicts := Memoised(sweep.verdicts, w, verdict), active := None)));
    RemoveOneFields(noted, w.root);
  }

  lemma ExamineRetires(s: Store, sweep: Sweep, w: Walk)
    ensures Retires(s, Examine(s, sweep, w).store, Examine(s, sweep, w).retired)
  {
    hide Settle, AdvanceWalk;
    if w.current in sweep.verdicts {
      SettleRetires(s, sweep, w, sweep.verdicts[w.current]);
    } else {
      match AdvanceWalk(s, w, sweep.checkpoint)
      case Settled(v) => SettleRetires(s, sweep, w, v);
      case Moved(_) =>
    }
  }

  /** The sweep retires exactly the tracked records it removes. */
  lemma {:induction false} SweepRetires(s: Store, budget: nat)
    requires s.candidates.Keys !! s.deferred.Keys
    ensures Retires(s, ProcessFinality(s, budget).store, ProcessFinality(s, budget).retired)
    decreases budget
  {
    hide SweepUnit;
    if budget > 0 && Busy(s) {
      var u := SweepUnit(s);
      UnitRetires(s);
      assert u.store.candidates.Keys <= s.candidates.Keys && u.store.deferred.Keys <= s.deferred.Keys;
      SweepRetires(u.store, budget - 1);
      var rest := ProcessFinality(u.store, budget - 1);
      RetiresTrans(s, u.store, u.retired, rest.store, rest.retired);
    }
  }

  lemma SmallerSet(a: set<Hash>, b: set<Hash>)
    requires a <= b
    ensures |a| <= |b|
  {
    assert b == a + (b - a);
  }
}

/** Cached values agree with the chain, and every store operation keeps them so. */
module StoreFaith {
  import opened Types
  import opened Chain
  import opened Forest
  import opened Projections
  import opened Store
  import opened StoreInvariants
  import opened StoreLimits
  import opened StoreTrees
  import opened Finality
  import opened FinalitySound

  /** Held projections have the chain's values under generation `g`; a deferred record has its own
      block's delta. */
  ghost predicate Agrees(c: Chain, g: Generation, es: Entries, ds: Delayed) {
    && (forall h :: h in es && es[h].projection.Some? ==>
          es[h].projection.value.generation == g && Faithful(c, es[h].projection.value))
    && (forall h :: h in ds ==> ds[h].changes == c.delta(g, h))
  }

  /** A store in which every record is sound; its limits may be overstepped. */
  ghost predicate Good(c: Chain, g: Generation, s: Store) {
    Ready(c, s) && ValidLimits(s.limits) && Agrees(c, g, s.candidates, s.deferred)
  }

  /** Overstepping by at most one record and one projection. */
  ghost predicate NearlyBounded(s: Store) {
    s.projectionCount <= s.limits.cache + 1 && MetadataLen(s) <= s.limits.metadata + 1
  }

  lemma TombstonesBounded(c: Chain, s: Store)
    requires Inv(c, s)
    ensures |s.tombstones| <= s.limits.metadata
  {
  }

  // ----- Anchoring -----

  lemma AnchoredGood(c: Chain, g: Generation, limits: Limits, p: Projection, finalized: Option<Checkpoint>,
                     incarnation: nat, now: Time)
    requires WellFormed(c) && ValidLimits(limits) && p.generation == g && Faithful(c, p)
    ensures var s := Anchored(limits, p, finalized, incarnation, now);
            Good(c, g, s) && Bounded(s) && Held(s, s.head) && s.head == p.block.hash
  {
    hide Faithful;
    assert p.block == c.meta(p.block.hash) by { FaithfulBlock(c, p); }
    AnchoredKeeps(c, limits, p, finalized, incarnation, now);
  }

  lemma FaithfulBlock(c: Chain, p: Projection)
    requires Faithful(c, p)
    ensures p.block == c.meta(p.block.hash)
  {
  }

  // ----- Insertion -----

  lemma QueuedSweepSound(c: Chain, s: Store, t: Ticket)
    requires SweepSound(c, s)
    ensures SweepSound(c, s.(sweep := QueueFinalityCheck(s, t)))
  {
  }

  lemma PutProjectionFields(s: Store, p: Projection, stage: Stage, firstSequence: nat, now: Time)
    ensures var r := PutProjection(s, p, stage, firstSequence, now);
            var h := p.block.hash;
            && r.candidates == s.candidates[h := NewEntry(s, p, stage, firstSequence, now)]
            && r.deferred == s.deferred - {h}
            && r.terminal == s.terminal && r.tombstones == s.tombstones && r.limits == s.limits && r.head == s.head
            && r.lastFinalized == s.lastFinalized && r.anchor == s.anchor
            && r.projectionCount <= s.projectionCount + 1
            && (r.sweep == s.sweep || exists m: Store, t ::
                  r.sweep == QueueFinalityCheck(m, t) && m.sweep == s.sweep && m.lastFinalized == s.lastFinalized
                  && m.terminal == s.terminal)
  {
    var h := p.block.hash;
    var filed := s.(deferred := s.deferred - {h},
                    candidates := s.candidates[h := NewEntry(s, p, stage, firstSequence, now)]);
    if !IsRecord(s, h) {
      var r := PutProjection(s, p, stage, firstSequence, now);
      assert r.sweep == QueueFinalityCheck(filed, Ticket(s.nextIncarnation, h));
    }
  }

  lemma PutCount(es: Entries, ds: Delayed, h: Hash, e: Entry)
    requires es.Keys !! ds.Keys
    ensures |es[h := e]| + |ds - {h}| == |es| + |ds| + if h in es || h in ds then 0 else 1
  {
    assert es[h := e].Keys == es.Keys + {h};
    assert (ds - {h}).Keys == ds.Keys - {h};
    if h in es {
      assert es.Keys + {h} == es.Keys;
    }
  }

  lemma PutSweepSound(c: Chain, s: Store, p: Projection, stage: Stage, firstSequence: nat, now: Time)
    requires SweepSound(c, s)
    ensures SweepSound(c, PutProjection(s, p, stage, firstSequence, now))
  {
    hide PutProjection, QueueFinalityCheck;
    PutProjectionFields(s, p, stage, firstSequence, now);
    var r := PutProjection(s, p, stage, firstSequence, now);
    if r.sweep != s.sweep {
      var m: Store, t :| r.sweep == QueueFinalityCheck(m, t) && m.sweep == s.sweep && m.lastFinalized == s.lastFinalized
          && m.terminal == s.terminal;
      QueuedSweepSound(c, m, t);
    }
  }

  lemma PutAgrees(c: Chain, g: Generation, es: Entries, ds: Delayed, h: Hash, e: Entry)
    requires Agrees(c, g, es, ds) && e.projection.Some? && e.projection.value.generation == g
             && Faithful(c, e.projection.value)
    ensures Agrees(c, g, es[h := e], ds - {h})
  {
    hide Faithful;
  }

  lemma PutGood(c: Chain, g: Generation, s: Store, p: Projection, stage: Stage, firstSequence: nat, now: Time)
    requires Good(c, g, s) && Bounded(s) && p.generation == g && Faithful(c, p)
    ensures var r := PutProjection(s, p, stage, firstSequence, now);
            Good(c, g, r) && NearlyBounded(r) && Held(r, p.block.hash)
  {
    hide PutProjection, Faithful, SweepSound, Inv;
    FaithfulBlock(c, p);
    PutProjectionKeeps(c, s, p, stage, firstSequence, now);
    PutSweepSound(c, s, p, stage, firstSequence, now);
    PutProjectionFields(s, p, stage, firstSequence, now);
    var e := NewEntry(s, p, stage, firstSequence, now);
    PutAgrees(c, g, s.candidates, s.deferred, p.block.hash, e);
    DisjointRecords(c, s);
    PutCount(s.candidates, s.deferred, p.block.hash, e);
  }

  lemma DisjointRecords(c: Chain, s: Store)
    requires Inv(c, s)
    ensures s.candidates.Keys !! s.deferred.Keys
  {
  }

  lemma PutDeferredFields(c: Chain, s: Store, block: BlockMeta, changes: seq<SlotChange>, now: Time)
    requires SweepSound(c, s)
    ensures var r := PutDeferred(s, block, changes, now);
            var h := block.hash;
            && r.candidates == s.candidates && h in r.deferred && r.deferred[h].changes == changes
            && r.deferred == s.deferred[h := r.deferred[h]]
            && r.projectionCount == s.projectionCount && r.limits == s.limits && r.head == s.head
            && r.terminal == s.terminal && r.lastFinalized == s.lastFinalized
            && SweepSound(c, r)
  {
    var h := block.hash;
    var r := PutDeferred(s, block, changes, now);
    if h !in s.deferred {
      var filed := s.(deferred := r.deferred);
      QueuedSweepSound(c, filed, Ticket(s.nextIncarnation, h));
    }
  }

  lemma PutDeferredGood(c: Chain, g: Generation, s: Store, block: BlockMeta, now: Time)
    requires Good(c, g, s) && Bounded(s) && block == c.meta(block.hash) && block.hash !in s.candidates
    ensures var r := PutDeferred(s, block, c.delta(g, block.hash), now);
            Good(c, g, r) && NearlyBounded(r) && r.candidates == s.candidates && r.projectionCount == s.projectionCount
  {
    hide PutDeferred, Faithful, Inv;
    PutDeferredKeeps(c, s, block, c.delta(g, block.hash), now);
    PutDeferredFields(c, s, block, c.delta(g, block.hash), now);
    var r := PutDeferred(s, block, c.delta(g, block.hash), now);
    assert r.deferred.Keys == s.deferred.Keys + {block.hash};
    assert Agrees(c, g, r.candidates, r.deferred);
  }

  // ----- Limits -----

  lemma FewerAgree(c: Chain, g: Generation, es: Entries, ds: Delayed, es': Entries, ds': Delayed)
    requires Agrees(c, g, es, ds)
    requires forall h :: h in es' && es'[h].projection.Some? ==> h in es && es'[h].projection == es[h].projection
    requires forall h :: h in ds' ==> h in ds && ds'[h].changes == ds[h].changes
    ensures Agrees(c, g, es', ds')
  {
    hide Faithful;
  }

  lemma TrimProjectionsOnlyDrops(s: Store)
    ensures var r := TrimProjections(s).store;
            && (forall h :: h in r.candidates && r.candidates[h].projection.Some? ==>
                  h in s.candidates && r.candidates[h].projection == s.candidates[h].projection)
            && |r.candidates| == |s.candidates|
            && r.deferred == s.deferred && r.sweep == s.sweep && r.terminal == s.terminal && r.limits == s.limits
            && r.lastFinalized == s.lastFinalized && r.head == s.head && r.metadataOrder == s.metadataOrder
  {
    hide FirstProjectionVictim, Position, Scanned, HeadTicket;
    var r := TrimProjections(s).store;
    assert r.candidates.Keys == s.candidates.Keys;
  }

  lemma TrimProjectionsGood(c: Chain, g: Generation, s: Store)
    requires Good(c, g, s) && NearlyBounded(s)
    ensures var t := TrimProjections(s);
            && Good(c, g, t.store) && NearlyBounded(t.store)
            && (t.ok ==> t.store.projectionCount <= s.limits.cache)
  {
    hide TrimProjections, Inv, Faithful;
    TrimProjectionsKeeps(c, s);
    TrimProjectionsBound(c, s);
    TrimProjectionsOnlyDrops(s);
    var r := TrimProjections(s).store;
    FewerAgree(c, g, s.candidates, s.deferred, r.candidates, r.deferred);
    assert r.projectionCount <= s.limits.cache + 1 by { TrimCountFalls(s); }
  }

  lemma TrimCountFalls(s: Store)
    ensures TrimProjections(s).store.projectionCount <= s.projectionCount
  {
    hide FirstProjectionVictim, Position, Scanned, HeadTicket;
  }

  lemma TrimMetadataOnlyRemoves(s: Store)
    ensures var r := TrimMetadata(s).store;
            && r.sweep == s.sweep && r.terminal == s.terminal && r.limits == s.limits
            && r.lastFinalized == s.lastFinalized && r.head == s.head
            && (forall h :: h in r.deferred ==> h in s.deferred && r.deferred[h] == s.deferred[h])
  {
    hide FirstMetadataVictim, Scanned, HeadTicket;
  }

  lemma TrimMetadataGood(c: Chain, g: Generation, s: Store)
    requires Good(c, g, s) && NearlyBounded(s) && s.projectionCount <= s.limits.cache
    ensures var t := TrimMetadata(s); t.ok && Good(c, g, t.store) && Bounded(t.store)
  {
    hide TrimMetadata, Inv, Faithful;
    TrimMetadataKeeps(c, s);
    InvQueue(c, s);
    TrimMetadataBound(s);
    TrimMetadataOnlyRemoves(s);
    var r := TrimMetadata(s).store;
    FewerAgree(c, g, s.candidates, s.deferred, r.candidates, r.deferred);
    TombstonesBounded(c, r);
  }

  lemma InvQueue(c: Chain, s: Store)
    requires Inv(c, s)
    ensures MetadataQueue(s.candidates, s.deferred, s.metadataOrder) && s.candidates.Keys !! s.deferred.Keys
  {
  }

  // ----- Removal -----

  /** `r` is `s` with fewer records. */
  ghost predicate Fewer(s: Store, r: Store) {
    && (forall h :: h in r.candidates ==> h in s.candidates && r.candidates[h] == s.candidates[h])
    && (forall h :: h in r.deferred ==> h in s.deferred && r.deferred[h] == s.deferred[h])
  }

  lemma FewerBounded(c: Chain, s: Store, r: Store)
    requires Inv(c, s) && Inv(c, r) && Fewer(s, r) && r.limits == s.limits && Bounded(s)
    ensures Bounded(r)
  {
    SmallerSet(r.candidates.Keys, s.candidates.Keys);
    SmallerSet(r.deferred.Keys, s.deferred.Keys);
    SmallerSet(HeldSet(r.candidates), HeldSet(s.candidates));
  }

  lemma FewerGood(c: Chain, g: Generation, s: Store, r: Store)
    requires Good(c, g, s) && Bounded(s) && Ready(c, r) && Fewer(s, r) && r.limits == s.limits
    ensures Good(c, g, r) && Bounded(r)
  {
    hide Inv, Faithful, SweepSound;
    FewerBounded(c, s, r);
    FewerAgree(c, g, s.candidates, s.deferred, r.candidates, r.deferred);
  }

  lemma RemoveTreeGood(c: Chain, g: Generation, s: Store, root: Hash)
    requires Good(c, g, s) && Bounded(s) && IsRecord(s, root) && root != s.head
    ensures var r := RemoveCandidateTree(s, root, true);
            Good(c, g, r) && Bounded(r) && Thinned(s, r)
            && (forall h :: IsRecord(r, h) <==> IsRecord(s, h) && !Under(Edges(c, s), root, h))
            && (forall h :: h in r.terminal <==> h in s.terminal || Under(Edges(c, s), root, h))
  {
    hide RemoveCandidateTree, Inv, Faithful, Under;
    RejectionExact(c, s, root);
    var r := RemoveCandidateTree(s, root, true);
    ThinnedSweepSound(c, s, r);
    FewerGood(c, g, s, r);
  }

  lemma ThinnedSweepSound(c: Chain, s: Store, r: Store)
    requires SweepSound(c, s) && r.sweep == s.sweep && r.lastFinalized == s.lastFinalized && s.terminal <= r.terminal
    ensures SweepSound(c, r)
  {
    if s.sweep.Some? {
      VerdictsGrow(c, s.sweep.value.checkpoint, s.terminal, r.terminal, s.sweep.value.verdicts);
    }
  }

  lemma SweepGood(c: Chain, g: Generation, s: Store, budget: nat)
    requires Good(c, g, s) && Bounded(s)
    ensures var r := ProcessFinality(s, budget);
            && Good(c, g, r.store) && Bounded(r.store) && Fewer(s, r.store) && r.store.head == s.head
            && r.store.lastFinalized == s.lastFinalized && r.store.limits == s.limits
            && Retires(s, r.store, r.retired)
  {
    hide Inv, Faithful, SweepSound, ProcessFinality;
    FinalitySoundness(c, s, budget);
    DisjointRecords(c, s);
    SweepRetires(s, budget);
    FewerGood(c, g, s, ProcessFinality(s, budget).store);
  }

  lemma BeginSweepGood(c: Chain, g: Generation, s: Store, finalized: Checkpoint)
    requires Good(c, g, s) && Bounded(s)
    ensures Good(c, g, BeginSweep(s, finalized)) && Bounded(BeginSweep(s, finalized))
  {
    hide Faithful;
    SweepUnread(c, s, BeginSweep(s, finalized).sweep);
  }

  lemma RemoveOneGood(c: Chain, g: Generation, s: Store, h: Hash)
    requires Good(c, g, s) && Bounded(s)
    ensures var r := RemoveOne(s, h, false);
            Good(c, g, r) && Bounded(r) && Retires(s, r, if Tracked(s, h) then [h] else [])
            && r.head == s.head && r.limits == s.limits && r.terminal == s.terminal
            && r.lastFinalized == s.lastFinalized
            && (s.head != h && Held(s, s.head) ==> Held(r, s.head))
  {
    hide RemoveOne, Agrees, Inv, SweepSound, Retires, Bounded;
    RemoveOneKeepsInv(c, s, h);
    PlainRemovalFields(s, h);
    var r := RemoveOne(s, h, false);
    ThinnedSweepSound(c, s, r);
    FewerGood(c, g, s, r);
    PlainRemovalRetires(s, h);
  }

  lemma PlainRemovalRetires(s: Store, h: Hash)
    ensures Retires(s, RemoveOne(s, h, false), if Tracked(s, h) then [h] else [])
  {
    hide RemoveOne;
    PlainRemovalFields(s, h);
  }

  lemma RemoveOneKeepsInv(c: Chain, s: Store, h: Hash)
    requires Inv(c, s)
    ensures Inv(c, RemoveOne(s, h, false))
  {
    RemoveOneKeeps(c, s, h, false, {});
  }

  lemma PlainRemovalFields(s: Store, h: Hash)
    ensures var r := RemoveOne(s, h, false);
            && r.candidates == s.candidates - {h} && r.deferred == s.deferred - {h}
            && r.terminal == s.terminal && r.sweep == s.sweep && r.limits == s.limits && r.head == s.head
            && r.lastFinalized == s.lastFinalized && r.anchor == s.anchor
  {
  }

  lemma {:induction false} RemoveAllGood(c: Chain, g: Generation, s: Store, hashes: seq<Hash>)
    requires Good(c, g, s) && Bounded(s)
    ensures var (r, retired) := RemoveAll(s, hashes);
            Good(c, g, r) && Bounded(r) && Retires(s, r, retired)
            && r.head == s.head && r.limits == s.limits && r.terminal == s.terminal
            && r.lastFinalized == s.lastFinalized
            && (s.head !in hashes && Held(s, s.head) ==> Held(r, s.head))
    decreases |hashes|
  {
    hide RemoveOne, Good, Bounded, Retires;
    if hashes == [] {
      RetiresNothing(s);
    } else {
      RemoveOneGood(c, g, s, hashes[0]);
      var m := RemoveOne(s, hashes[0], false);
      RemoveAllGood(c, g, m, hashes[1..]);
      var (r, rest) := RemoveAll(m, hashes[1..]);
      assert s.candidates.Keys !! s.deferred.Keys by { GoodDisjoint(c, g, s); }
      RetiresTrans(s, m, if Tracked(s, hashes[0]) then [hashes[0]] else [], r, rest);
      assert [hashes[0]] + rest == (RemoveAll(s, hashes)).1 || rest == [] + rest;
    }
  }

  lemma GoodDisjoint(c: Chain, g: Generation, s: Store)
    requires Good(c, g, s)
    ensures s.candidates.Keys !! s.deferred.Keys
  {
  }

  lemma RetiresNothing(s: Store)
    ensures Retires(s, s, [])
  {
  }

  // ----- Touching entries -----

  /** `r` differs from `s` in stages, expiry times, first sequences and the head only. */
  ghost predicate Touched(s: Store, r: Store) {
    && r.candidates.Keys == s.candidates.Keys && r.deferred.Keys == s.deferred.Keys
    && (forall h :: h in s.candidates ==>
          && r.candidates[h].block == s.candidates[h].block && r.candidates[h].projection == s.candidates[h].projection
          && r.candidates[h].tracked == s.candidates[h].tracked
          && r.candidates[h].incarnation == s.candidates[h].incarnation)
    && (forall h :: h in s.deferred ==>
          && r.deferred[h].block == s.deferred[h].block && r.deferred[h].changes == s.deferred[h].changes
          && r.deferred[h].incarnation == s.deferred[h].incarnation)
    && r == s.(candidates := r.candidates, deferred := r.deferred, head := r.head)
  }

  lemma TouchedFiled(c: Chain, s: Store, r: Store)
    requires Touched(s, r) && Filed(c, s)
    ensures Filed(c, r)
  {
    assert HeldSet(r.candidates) == HeldSet(s.candidates);
  }

  lemma TouchedQueued(s: Store, r: Store)
    requires Touched(s, r) && Queued(s)
    ensures Queued(r)
  {
  }

  lemma TouchedIndexed(c: Chain, s: Store, r: Store)
    requires Touched(s, r) && IndexedExcept(c, s, {})
    ensures IndexedExcept(c, r, {})
  {
    forall h
      ensures Indexed(r.candidates, r.deferred, r.anchor, h) == Indexed(s.candidates, s.deferred, s.anchor, h)
    {
    }
  }

  lemma TouchedGood(c: Chain, g: Generation, s: Store, r: Store)
    requires Good(c, g, s) && Bounded(s) && Touched(s, r)
    ensures Good(c, g, r) && Bounded(r)
  {
    hide Faithful, Filed, Queued, IndexedExcept;
    TouchedFiled(c, s, r);
    TouchedQueued(s, r);
    TouchedIndexed(c, s, r);
    FewerAgree(c, g, s.candidates, s.deferred, r.candidates, r.deferred);
    assert |r.candidates.Keys| == |s.candidates.Keys| && |r.deferred.Keys| == |s.deferred.Keys|;
  }
}

/** The canonical head keeps its record and its projection. */
module HeadSurvival {
  import opened Types
  import opened Chain
  import opened Forest
  import opened Projections
  import opened Store
  import opened StoreInvariants
  import opened StoreLimits
  import opened StoreTrees
  import opened StoreFaith
  import opened Finality
  import opened FinalitySound
  import opened HeadLoss
  import opened Wire
  import opened Publisher
  import opened PublisherInvariants

  predicate HeadHeld(s: Store) { Held(s, s.head) }

  /** Neither the head nor an ancestor of it is tombstoned or off the finalized chain. */
  ghost predicate HeadSafe(c: Chain, s: Store) {
    forall a :: Below(c, a, s.head) ==>
      a !in s.terminal && (s.lastFinalized.Some? ==> !OffChain(c, s.lastFinalized.value, a))
  }

  /** The rejection takes effect: it is of this dictionary, the block is still only executed, and the frame
      goes out. */
  predicate TakesEffect(env: Env, p: State, g: Generation, h: Hash) {
    g == Active(p) && Rejectable(p.store, h) && Send(env, p, g, BlockRejected(h), None).ok
  }

  /** The command leaves the head alone: it is not the effective rejection of a proper ancestor of the head
      in the index, and not a tick whose slice finishes a walk from the head with a conflict. */
  ghost predicate Spares(env: Env, p: State, cmd: Command) {
    match cmd
    case OnRejected(g, h) =>
      !(TakesEffect(env, p, g, h) && h != p.store.head && Under(Edges(env.chain, p.store), h, p.store.head))
    case OnTick(_) => !SweepTakes(p.store, p.store.limits.budget)
    case _ => true
  }

  // ----- Insertion -----

  lemma PutIsNewest(s: Store, p: Projection, stage: Stage, firstSequence: nat, now: Time)
    ensures var r := PutProjection(s, p, stage, firstSequence, now);
            var h := p.block.hash;
            var t := Ticket(r.candidates[h].incarnation, h);
            && (!Held(s, h) ==> r.projectionOrder != [] && r.projectionOrder[|r.projectionOrder| - 1] == t)
            && (!IsRecord(s, h) ==> r.metadataOrder != [] && r.metadataOrder[|r.metadataOrder| - 1] == t)
            && (Held(s, h) ==> r.projectionCount == s.projectionCount)
  {
  }

  /** Enough room for two: the projection just stored survives the cache trim. */
  lemma NewestCached(c: Chain, g: Generation, s: Store, p: Projection, stage: Stage, firstSequence: nat, now: Time)
    requires Good(c, g, s) && Bounded(s) && p.generation == g && Faithful(c, p)
    ensures Held(TrimProjections(PutProjection(s, p, stage, firstSequence, now)).store, p.block.hash)
  {
    hide PutProjection, TrimProjections, Faithful, SweepSound, Inv, Agrees;
    var put := PutProjection(s, p, stage, firstSequence, now);
    PutGood(c, g, s, p, stage, firstSequence, now);
    PutProjectionFields(s, p, stage, firstSequence, now);
    PutIsNewest(s, p, stage, firstSequence, now);
    if Held(s, p.block.hash) {
      NoProjectionTrim(put);
    } else {
      NewestProjectionStays(c, put, p.block.hash);
    }
  }

  lemma TrimKeepsIncarnation(s: Store, h: Hash)
    requires h in s.candidates
    ensures var r := TrimProjections(s).store;
            h in r.candidates && r.candidates[h].incarnation == s.candidates[h].incarnation
  {
    hide FirstProjectionVictim, Position, Scanned, HeadTicket;
  }

  lemma KnownRecordStays(c: Chain, s: Store, p: Projection, stage: Stage, firstSequence: nat, now: Time)
    requires Inv(c, s) && MetadataLen(s) <= s.limits.metadata && IsRecord(s, p.block.hash)
    ensures var cached := TrimProjections(PutProjection(s, p, stage, firstSequence, now)).store;
            TrimMetadata(cached).store == cached
  {
    hide PutProjection, TrimProjections, TrimMetadata, Inv, NewEntry;
    var put := PutProjection(s, p, stage, firstSequence, now);
    PutProjectionFields(s, p, stage, firstSequence, now);
    TrimProjectionsOnlyDrops(put);
    DisjointRecords(c, s);
    PutCount(s.candidates, s.deferred, p.block.hash, NewEntry(s, p, stage, firstSequence, now));
    NoMetadataTrim(TrimProjections(put).store);
  }

  lemma FreshRecordStays(s: Store, p: Projection, stage: Stage, firstSequence: nat, now: Time)
    requires var cached := TrimProjections(PutProjection(s, p, stage, firstSequence, now)).store;
             MetadataQueue(cached.candidates, cached.deferred, cached.metadataOrder)
             && cached.candidates.Keys !! cached.deferred.Keys && cached.limits.metadata >= 2
    requires !IsRecord(s, p.block.hash)
    ensures var put := PutProjection(s, p, stage, firstSequence, now);
            p.block.hash in TrimMetadata(TrimProjections(put).store).store.candidates
  {
    hide PutProjection, TrimProjections, TrimMetadata, NewEntry, MetadataQueue;
    var put := PutProjection(s, p, stage, firstSequence, now);
    PutProjectionFields(s, p, stage, firstSequence, now);
    PutIsNewest(s, p, stage, firstSequence, now);
    TrimProjectionsOnlyDrops(put);
    TrimKeepsIncarnation(put, p.block.hash);
    NewestRecordStays(TrimProjections(put).store, p.block.hash);
  }

  /** ... and so does its record survive the metadata trim. */
  lemma NewestStays(c: Chain, g: Generation, s: Store, p: Projection, stage: Stage, firstSequence: nat, now: Time)
    requires Good(c, g, s) && Bounded(s) && p.generation == g && Faithful(c, p)
    ensures var cached := TrimProjections(PutProjection(s, p, stage, firstSequence, now));
            cached.ok ==> Held(TrimMetadata(cached.store).store, p.block.hash)
  {
    hide PutProjection, TrimProjections, TrimMetadata, Faithful, SweepSound, Inv, Agrees, MetadataQueue;
    var put := PutProjection(s, p, stage, firstSequence, now);
    var cached := TrimProjections(put).store;
    NewestCached(c, g, s, p, stage, firstSequence, now);
    if IsRecord(s, p.block.hash) {
      KnownRecordStays(c, s, p, stage, firstSequence, now);
    } else {
      PutGood(c, g, s, p, stage, firstSequence, now);
      TrimProjectionsGood(c, g, put);
      InvQueue(c, cached);
      TrimMetadataBound(cached);
      FreshRecordStays(s, p, stage, firstSequence, now);
    }
  }

  lemma NoProjectionTrim(s: Store)
    requires s.projectionCount <= s.limits.cache
    ensures TrimProjections(s) == Trim(s, [], true)
  {
  }

  lemma NoMetadataTrim(s: Store)
    requires MetadataLen(s) <= s.limits.metadata
    ensures TrimMetadata(s) == Trim(s, [], true)
  {
  }

  /** Inserting evicts neither the projection inserted nor the head, which is still the previous
      head while a new one is being installed. */
  lemma InsertHolds(env: Env, p: State, projection: Projection, stage: Stage, firstSequence: nat, now: Time)
    requires Valid(env, p) && !p.broken && projection.generation == Active(p) && Faithful(env.chain, projection)
    requires InsertCandidate(env, p, projection, stage, firstSequence, now).ok
    ensures var s := InsertCandidate(env, p, projection, stage, firstSequence, now).state.store;
            && Held(s, projection.block.hash) && s.head == p.store.head && s.terminal == p.store.terminal
            && s.lastFinalized == p.store.lastFinalized
            && (HeadHeld(p.store) ==> HeadHeld(s))
  {
    hide SharedTrue, Good, PutProjection, TrimProjections, TrimMetadata, Enforce, Faithful, NearlyBounded;
    var g := projection.generation;
    var put := PutProjection(p.store, projection, stage, firstSequence, now);
    NewestStays(env.chain, g, p.store, projection, stage, firstSequence, now);
    PutGood(env.chain, g, p.store, projection, stage, firstSequence, now);
    PutProjectionFields(p.store, projection, stage, firstSequence, now);
    EnforceTrue(env, p.(store := put), g, TrimProjections(put));
    var cached := Enforce(env, p.(store := put), g, TrimProjections(put)).state;
    EnforceTrue(env, cached, g, TrimMetadata(cached.store));
    TrimProjectionsOnlyDrops(put);
    TrimMetadataOnlyRemoves(cached.store);
    if HeadHeld(p.store) {
      TrimsHoldHead(env.chain, g, put);
    }
  }

  lemma TrimsHoldHead(c: Chain, g: Generation, s: Store)
    requires Good(c, g, s) && NearlyBounded(s) && HeadHeld(s)
    ensures HeadHeld(TrimProjections(s).store)
    ensures TrimProjections(s).ok ==> HeadHeld(TrimMetadata(TrimProjections(s).store).store)
  {
    hide TrimProjections, TrimMetadata, Inv, Agrees, SweepSound;
    TrimProjectionsGood(c, g, s);
    TrimProjectionsBound(c, s);
    TrimProjectionsOnlyDrops(s);
    var t := TrimProjections(s).store;
    TrimMetadataOnlyRemoves(t);
    InvQueue(c, t);
    TrimMetadataBound(t);
  }

  // ----- Operations -----

  lemma PromoteHolds(env: Env, p: State, g: Generation, h: Hash)
    requires h in p.store.candidates && HeadHeld(p.store)
    ensures HeadHeld(PromoteKnown(env, p, g, h).state.store)
  {
  }

  lemma DeferredHolds(env: Env, p: State, block: BlockMeta, now: Time)
    requires Valid(env, p) && !p.broken && block == env.chain.meta(block.hash) && HeadHeld(p.store)
    ensures HeadHeld(InsertDeferred(env, p, block, env.chain.delta(Active(p), block.hash), now).state.store)
  {
    hide SharedTrue, PutDeferred, TrimMetadata, Enforce, Inv, Agrees, SweepSound, MetadataQueue;
    if block.hash !in p.store.tombstones && block.hash !in p.store.candidates {
      var changes := env.chain.delta(Active(p), block.hash);
      var put := PutDeferred(p.store, block, changes, now);
      PutDeferredGood(env.chain, Active(p), p.store, block, now);
      PutDeferredFields(env.chain, p.store, block, changes, now);
      EnforceTrue(env, p.(store := put), Active(p), TrimMetadata(put));
      InvQueue(env.chain, put);
      TrimMetadataBound(put);
      TrimMetadataOnlyRemoves(put);
    }
  }

  lemma PublishHolds(env: Env, p: State, block: BlockMeta, stage: Stage, now: Time)
    requires Valid(env, p) && !p.broken && block == env.chain.meta(block.hash) && HeadHeld(p.store)
    requires block.number == Number(env.chain, block.parent) + 1
    ensures var g := Active(p);
            var o := PublishCandidate(env, p, g, block, Truth(env.chain, g, block.parent),
                                      env.chain.delta(g, block.hash), stage, now);
            o.ok ==> HeadHeld(o.state.store)
  {
    hide SharedTrue, Healthy, Intact, Faithful, ApplyDelta, Exact, InsertCandidate, Send;
    var g := Active(p);
    ProjectedFaithful(env.chain, g, block.hash);
    var d := ApplyDelta(Truth(env.chain, g, block.parent), env.chain.delta(g, block.hash));
    var projection := Projection(block, g, d.values, d.bitmap);
    SendTrue(env, p, g, BlockState(projection, stage), None);
    var sent := Send(env, p, g, BlockState(projection, stage), None);
    SameHealth(env, p, sent.state);
    if sent.ok && InsertCandidate(env, sent.state, projection, stage, |sent.state.shared.calls|, now).ok {
      InsertHolds(env, sent.state, projection, stage, |sent.state.shared.calls|, now);
    }
  }

  lemma ProjectHolds(env: Env, p: State, g: Generation, block: BlockMeta, stage: Stage, loads: bool, now: Time)
    requires Valid(env, p) && !p.broken && block == env.chain.meta(block.hash) && HeadHeld(p.store)
    ensures var o := ProjectCandidate(env, p, g, block, env.chain.delta(g, block.hash), stage, loads, now);
            o.ok ==> HeadHeld(o.state.store)
  {
    hide SharedTrue, Healthy, Intact, PublishCandidate, InsertDeferred, PromoteKnown, ParentValues;
    if g == Active(p) {
      if Held(p.store, block.hash) {
        PromoteHolds(env, p, g, block.hash);
      } else {
        HealthyParts(env, p);
        ParentValuesTrue(env, p, g, block, stage, loads);
        match ParentValues(env, p, g, block, stage, loads)
        case Values(_) => PublishHolds(env, p, block, stage, now);
        case Defer => DeferredHolds(env, p, block, now);
        case Skip =>
        case Mismatch =>
      }
    }
  }

  lemma ValidatedHolds(env: Env, p: State, g: Generation, h: Hash, loads: bool, now: Time)
    requires Valid(env, p) && !p.broken && HeadHeld(p.store)
    ensures var o := PromoteValidated(env, p, g, h, loads, now); o.ok ==> HeadHeld(o.state.store)
  {
    hide SharedTrue, Healthy, Intact, ProjectCandidate, PromoteKnown;
    if g == Active(p) {
      if h in p.store.candidates {
        PromoteHolds(env, p, g, h);
      } else if h in p.store.deferred {
        DeferredTrue(env, p, h);
        ProjectHolds(env, p, g, p.store.deferred[h].block, Validated, loads, now);
      }
    }
  }

  /** A record under a rejected root descends from it. */
  lemma {:induction false} UnderIsBelow(c: Chain, s: Store, root: Hash, h: Hash, k: nat)
    requires Reaches(Edges(c, s), root, h, k)
    ensures Below(c, root, h)
    decreases k
  {
    if k == 0 {
      BelowSelf(c, root);
    } else {
      UnderIsBelow(c, s, root, Parent(c, h), k - 1);
      BelowStep(c, root, h);
    }
  }

  /** A rejection takes the canonical head along exactly when it takes effect on a proper ancestor of the head. */
  lemma RejectionTakesHeadExactly(env: Env, p: State, g: Generation, h: Hash)
    requires Valid(env, p) && !p.broken && IsRecord(p.store, p.store.head)
    ensures var head, r := p.store.head, Rejected(env, p, g, h).state.store;
            && (IsRecord(r, head) <==> Spares(env, p, OnRejected(g, h)))
            && (HeadHeld(p.store) && IsRecord(r, head) ==> Held(r, head)) && r.head == head
  {
    hide SharedTrue, Good, Bounded, Under, RemoveCandidateTree;
    if TakesEffect(env, p, g, h) {
      if h == p.store.head {
        HeadNotRemoved(p.store);
      } else {
        RemoveTreeGood(env.chain, g, p.store, h);
        GoodDisjoint(env.chain, g, p.store);
      }
    }
  }

  /** A slice leaves a held head held, or takes it. */
  lemma SliceHolds(c: Chain, g: Generation, s: Store, budget: nat)
    requires Good(c, g, s) && HeadHeld(s)
    ensures var r := ProcessFinality(s, budget).store;
            r.head == s.head && (HeadHeld(r) <==> !SweepTakes(s, budget)) && (HeadHeld(r) <==> IsRecord(r, s.head))
  {
    hide ProcessFinality, Inv, Agrees, SweepSound, ConflictsWithin, Cursed;
    FinalitySoundness(c, s, budget);
    GoodDisjoint(c, g, s);
    SweepTakesHeadExactly(s, budget);
  }

  /** A safe head is never swept, not even when a walk had started from it before it became head. */
  lemma SweepHolds(c: Chain, g: Generation, s: Store, budget: nat)
    requires Good(c, g, s) && HeadHeld(s)
    requires HeadSafe(c, s)
    ensures HeadHeld(ProcessFinality(s, budget).store) && !SweepTakes(s, budget)
  {
    hide ProcessFinality, Inv, Agrees, SweepSound, OffChain, ConflictsWithin;
    SliceHolds(c, g, s, budget);
    var r := ProcessFinality(s, budget).store;
    FinalitySoundness(c, s, budget);
    GoodDisjoint(c, g, s);
    if s.lastFinalized.Some? {
      assert !Cursed(c, s.lastFinalized.value, s.terminal, s.head) by { SafeNotCursed(c, s); }
      assert !Gone(s, r, s.head);
    }
  }

  lemma SafeNotCursed(c: Chain, s: Store)
    requires HeadSafe(c, s) && s.lastFinalized.Some?
    ensures !Cursed(c, s.lastFinalized.value, s.terminal, s.head)
  {
    BelowSelf(c, s.head);
    forall a | Below(c, a, Parent(c, s.head))
      ensures Below(c, a, s.head)
    {
      BelowStep(c, a, s.head);
    }
  }

  lemma AdvanceHolds(env: Env, p: State, projection: Projection, now: Time)
    requires Valid(env, p) && !p.broken && projection.generation == Active(p) && Faithful(env.chain, projection)
    ensures var o := AdvanceHead(env, p, projection, now); o.ok ==> HeadHeld(o.state.store)
  {
    hide SharedTrue, Good, Send, InsertCandidate, Faithful, CanonicalBitmap, Bounded;
    var inserted := InsertCandidate(env, p, projection, Validated, 0, now);
    if inserted.ok {
      InsertHolds(env, p, projection, Validated, 0, now);
    }
  }

  lemma CanonicalHolds(env: Env, p: State, g: Generation, observedAt: Time, h: Hash, loads: bool, now: Time)
    requires Valid(env, p) && !p.broken && HeadHeld(p.store)
    ensures var o := Canonical(env, p, g, observedAt, h, loads, now); o.ok ==> HeadHeld(o.state.store)
  {
    hide SharedTrue, Healthy, Intact, AdvanceHead, HeadProjection, Faithful;
    HeadProjectionTrue(env, p, g, h, loads);
    var r := HeadProjection(env, p, g, h, loads);
    if r.Some? {
      AdvanceHolds(env, p, r.value, now);
    }
  }

  lemma NoteFinalizedHolds(env: Env, p: State, finalized: Option<Checkpoint>)
    requires Valid(env, p) && !p.broken && HeadHeld(p.store)
    ensures HeadHeld(NoteFinalized(env, p, Active(p), finalized).state.store)
  {
    hide SharedTrue, Good, Bounded, ProcessFinality, SendRetired;
    if finalized.Some? && finalized != p.store.lastFinalized {
      var begun := BeginSweep(p.store, finalized.value);
      var slice := ProcessFinality(begun, p.store.limits.budget);
      SendRetiredTrue(env, p.(store := slice.store), Active(p), slice.retired, FinalizedConflict);
      NewSweepSparesHead(p.store, finalized.value, p.store.limits.budget);
    }
  }

  lemma ForkchoiceAppliedHolds(env: Env, p: State, applied: AppliedView)
    requires Valid(env, p) && !p.broken && HeadHeld(p.store)
    ensures HeadHeld(ForkchoiceAppliedTo(env, p, applied).state.store)
  {
    hide SharedTrue, Good, Bounded, NoteFinalized, Send, Faithful;
    var canonical := p.shared.published.canonical;
    assert PublishedTrue(env.chain, p.shared.published) by { SharedPublished(env.chain, p.shared); }
    var view := Resolve(applied, canonical.block.number);
    if canonical.block.hash == applied.head && ValidView(view) {
      SendTrue(env, p, canonical.generation, ForkchoiceApplied(view), Some(NextState(canonical, Some(view), false)));
      var sent := Send(env, p, canonical.generation, ForkchoiceApplied(view),
                       Some(NextState(canonical, Some(view), false)));
      if sent.ok {
        NoteFinalizedHolds(env, sent.state, view.finalized);
      }
    }
  }

  lemma ForkchoiceHolds(env: Env, p: State, g: Generation, observedAt: Time, applied: AppliedView, loads: bool,
                        now: Time)
    requires Valid(env, p) && !p.broken && HeadHeld(p.store)
    ensures var o := ForkchoiceChanged(env, p, g, observedAt, applied, loads, now); o.ok ==> HeadHeld(o.state.store)
  {
    hide SharedTrue, Healthy, Intact, Canonical, ForkchoiceAppliedTo;
    ForkchoiceAppliedHolds(env, p, applied);
    CanonicalKeeps(env, p, g, observedAt, applied.head, loads, now);
    CanonicalNotBroken(env, p, g, observedAt, applied.head, loads, now);
    CanonicalHolds(env, p, g, observedAt, applied.head, loads, now);
    var moved := Canonical(env, p, g, observedAt, applied.head, loads, now);
    if moved.ok {
      assert moved.state.(broken := false) == moved.state;
      ForkchoiceAppliedHolds(env, moved.state, applied);
    }
  }

  lemma ReanchorHolds(env: Env, p: State, load: Load, now: Time)
    requires WellFormed(env.chain) && ValidLimits(p.store.limits)
    ensures Reanchor(env, p, load, now).ok ==> HeadHeld(Reanchor(env, p, load, now).state.store)
  {
    if Coheres(env, load) {
      AnchorKeeps(env, p, Active(p), load, now);
    }
  }

  lemma ActivateHolds(env: Env, p: State, g: Generation, load: Load, now: Time)
    requires Valid(env, p) && HeadHeld(p.store)
    ensures HeadHeld(Activate(env, p, g, load, now).state.store)
  {
    hide Reset, LoadAt;
    if g > Active(p) && Coheres(env, load) {
      AnchorKeeps(env, p, g, load, now);
    }
  }

  /** A tick takes the canonical head exactly when its slice finishes a walk from the head with a conflict. */
  lemma TickTakesHeadExactly(env: Env, p: State, due: seq<Hash>, now: Time)
    requires Valid(env, p) && !p.broken && HeadHeld(p.store)
    ensures var r := Maintain(env, p, due, now).state.store;
            && r.head == p.store.head && (HeadHeld(r) <==> Spares(env, p, OnTick(due)))
            && (HeadHeld(r) <==> IsRecord(r, p.store.head))
  {
    hide SharedTrue, Good, Bounded, ProcessFinality, SendRetired, RemoveAll, Retires, Expired, SweepTakes;
    var g := Active(p);
    SweepGood(env.chain, g, p.store, p.store.limits.budget);
    SliceHolds(env.chain, g, p.store, p.store.limits.budget);
    var slice := ProcessFinality(p.store, p.store.limits.budget);
    SendRetiredTrue(env, p.(store := slice.store), g, slice.retired, FinalizedConflict);
    var swept := SendRetired(env, p.(store := slice.store), g, slice.retired, FinalizedConflict);
    RemoveAllGood(env.chain, g, slice.store, due);
    RemoveAllAddsNothing(slice.store, due, p.store.head);
    var (s, expired) := RemoveAll(slice.store, due);
    SendRetiredTrue(env, swept.state.(store := s), g, expired, RetentionExpired);
    var left := if slice.work < p.store.limits.budget then p.store.limits.budget - slice.work else 0;
    if Due(slice.store, due, now, left) {
      assert slice.store.head !in due by { DueSparesHead(slice.store, due, now, left); }
    }
  }

  lemma {:induction false} RemoveAllAddsNothing(s: Store, hashes: seq<Hash>, h: Hash)
    ensures IsRecord(RemoveAll(s, hashes).0, h) ==> IsRecord(s, h)
    decreases |hashes|
  {
    hide RemoveOne;
    if hashes != [] {
      PlainRemovalFields(s, hashes[0]);
      RemoveAllAddsNothing(RemoveOne(s, hashes[0], false), hashes[1..], h);
    }
  }

  lemma DueSparesHead(s: Store, due: seq<Hash>, now: Time, budget: nat)
    requires Due(s, due, now, budget)
    ensures s.head !in due
  {
  }

  lemma HandleHolds(env: Env, p: State, cmd: Command, now: Time)
    requires Valid(env, p) && !p.broken && CommandTrue(env, cmd) && HeadHeld(p.store) && Handle(env, p, cmd, now).ok
    ensures HeadHeld(Handle(env, p, cmd, now).state.store) <==> Spares(env, p, cmd)
  {
    hide Healthy, Intact, SharedTrue, ProjectCandidate, PromoteValidated, ForkchoiceChanged, Rejected, Activate,
         Maintain, Reanchor, AnnounceGap, SweepTakes, TakesEffect, Under, Edges;
    match cmd
    case OnExecuted(_, g, block, _) => ProjectHolds(env, p, g, block, Executed, false, now);
    case OnValidated(g, h, loads) => ValidatedHolds(env, p, g, h, loads, now);
    case OnValidatedFallback(_, g, block, _, loads) => ProjectHolds(env, p, g, block, Validated, loads, now);
    case OnStateReset(at, g, load) =>
      AnnounceGapKeeps(env, p);
      ReanchorHolds(env, AnnounceGap(env, p).state, load, now);
    case OnForkchoice(at, g, applied, loads) => ForkchoiceHolds(env, p, g, at, applied, loads, now);
    case OnRejected(g, h) => RejectionTakesHeadExactly(env, p, g, h);
    case OnActivate(g, load) => ActivateHolds(env, p, g, load, now);
    case OnTick(due) => TickTakesHeadExactly(env, p, due, now);
    case OnLoss =>
    case OnRetry(_) =>
  }

  /** A turn that succeeds keeps the head held exactly when its command spares it. */
  lemma StepHolds(env: Env, p: State, cmd: Command, now: Time)
    requires Valid(env, p) && CommandTrue(env, cmd) && (!p.broken ==> HeadHeld(p.store))
    requires !Step(env, p, cmd, now).broken
    ensures HeadHeld(Step(env, p, cmd, now).store) <==> p.broken || Spares(env, p, cmd)
  {
    hide Healthy, Intact, SharedTrue, Handle, AnnounceGap, Reanchor, Spares;
    if p.broken {
      if cmd.OnRetry? {
        AnnounceGapKeeps(env, p);
        ReanchorHolds(env, p, cmd.load, now);
        ReanchorHolds(env, AnnounceGap(env, p).state, cmd.load, now);
      }
    } else {
      HandleHolds(env, p, cmd, now);
    }
  }

  /** Every command that succeeds spares the head it meets. */
  ghost predicate SparedThroughout(env: Env, p: State, turns: seq<Turn>)
    decreases |turns|
  {
    turns == []
    || var q := Step(env, p, turns[0].command, turns[0].now);
       && (!p.broken && !q.broken ==> Spares(env, p, turns[0].command))
       && SparedThroughout(env, q, turns[1..])
  }

  /** In every state without a pending error, from this one on, the head is a record that holds its projection. */
  ghost predicate HeldThroughout(env: Env, p: State, turns: seq<Turn>)
    decreases |turns|
  {
    && (!p.broken ==> HeadHeld(p.store))
    && (turns == [] || HeldThroughout(env, Step(env, p, turns[0].command, turns[0].now), turns[1..]))
  }

  lemma {:induction false} RunHolds(env: Env, p: State, turns: seq<Turn>)
    requires Valid(env, p) && TurnsTrue(env, turns) && (!p.broken ==> HeadHeld(p.store))
    ensures HeldThroughout(env, p, turns) <==> SparedThroughout(env, p, turns)
    decreases |turns|
  {
    hide Valid, Step, CommandTrue, Spares, HeadHeld;
    if turns != [] {
      var q := Step(env, p, turns[0].command, turns[0].now);
      StepKeeps(env, p, turns[0].command, turns[0].now);
      if !q.broken {
        StepHolds(env, p, turns[0].command, turns[0].now);
      }
      if !q.broken ==> HeadHeld(q.store) {
        RunHolds(env, q, turns[1..]);
      }
    }
  }

  lemma {:induction false} HeldAtTheEnd(env: Env, p: State, turns: seq<Turn>)
    requires HeldThroughout(env, p, turns)
    ensures var q := Run(env, p, turns); !q.broken ==> HeadHeld(q.store)
    decreases |turns|
  {
    hide Step, HeadHeld;
    if turns != [] {
      HeldAtTheEnd(env, Step(env, p, turns[0].command, turns[0].now), turns[1..]);
    }
  }

  /** Head survival: along a run, whenever no error is pending, the canonical head is a record that holds its
      projection, if and only if no command that succeeds is the effective rejection of a proper ancestor of
      the head it meets, or a tick that finishes a walk from that head with a conflict. */
  lemma HeadSurvivesExactly(env: Env, limits: Limits, g: Generation, load: Load, now: Time, turns: seq<Turn>)
    requires WellFormed(env.chain) && ValidLimits(limits) && Coheres(env, load) && TurnsTrue(env, turns)
    ensures var start := Start(env, limits, g, load, now);
            HeldThroughout(env, start, turns) <==> SparedThroughout(env, start, turns)
  {
    hide HeldThroughout, SparedThroughout, Valid, HeadHeld;
    var start := Start(env, limits, g, load, now);
    StartValid(env, limits, g, load, now);
    StartHolds(env, limits, g, load, now);
    RunHolds(env, start, turns);
  }

  lemma StartHolds(env: Env, limits: Limits, g: Generation, load: Load, now: Time)
    requires load.Loaded?
    ensures HeadHeld(Start(env, limits, g, load, now).store)
  {
  }
}

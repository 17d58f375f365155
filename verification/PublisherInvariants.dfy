/** What every turn of the publisher keeps: the store's invariant, the limits, and the agreement of
    everything stored or published with the chain. */
module PublisherInvariants {
  import opened Types
  import opened Chain
  import opened Projections
  import opened Store
  import opened StoreInvariants
  import opened StoreFaith
  import opened Finality
  import opened FinalitySound
  import opened Wire
  import opened Publisher

  // ----- What was published is true -----

  /** A coherent view of which the block is the head. */
  predicate Heads(view: View, block: BlockMeta) {
    view.head == Checkpoint(block.number, block.hash) && ValidView(view)
  }

  /** Projections in a frame have the chain's values under the frame's generation. A candidate's
      bitmap is exact against its parent, a canonical head's against the previous head. Dictionaries
      have their generation's size, views are coherent and no retirement is empty. */
  ghost predicate EventTrue(c: Chain, g: Generation, event: Event) {
    match event
    case BlockState(p, _) =>
      p.generation == g && Faithful(c, p) && Exact(p.bitmap, Truth(c, g, p.block.parent), p.values)
    case CanonicalHead(previous, p, changed) =>
      p.generation == g && Faithful(c, p) && Exact(changed, Truth(c, g, previous), p.values)
    case Snapshot(p, view) => p.generation == g && Faithful(c, p) && Heads(view, p.block)
    case ConfigActivated(keys) => keys == c.keys(g)
    case ForkchoiceApplied(view) => ValidView(view)
    case CandidatesRetired(hashes, _) => hashes != []
    case _ => true
  }

  ghost predicate PublishedTrue(c: Chain, state: Published) {
    Faithful(c, state.canonical) && (state.forkchoice.Some? ==> Heads(state.forkchoice.value, state.canonical.block))
  }

  ghost predicate CallTrue(c: Chain, call: Call) {
    EventTrue(c, call.generation, call.event) && (call.next.Some? ==> PublishedTrue(c, call.next.value))
  }

  ghost predicate SharedTrue(c: Chain, sh: Shared) {
    (forall i :: 0 <= i < |sh.calls| ==> CallTrue(c, sh.calls[i])) && PublishedTrue(c, sh.published)
  }

  /** The store while no error is pending: sound, within its limits, and its head is the published
      canonical block. */
  ghost predicate Healthy(env: Env, p: State) {
    && Good(env.chain, Active(p), p.store)
    && Bounded(p.store)
    && p.store.head == p.shared.published.canonical.block.hash
    && !p.shared.published.recovering
  }

  /** The store even while an error is pending: sound, at most one record and one projection over its
      limits, and its head is the published canonical block. */
  ghost predicate Intact(c: Chain, canonical: Projection, s: Store) {
    Good(c, canonical.generation, s) && NearlyBounded(s) && s.head == canonical.block.hash
  }

  ghost predicate Valid(env: Env, p: State) {
    && WellFormed(env.chain)
    && ValidLimits(p.store.limits)
    && SharedTrue(env.chain, p.shared)
    && Intact(env.chain, p.shared.published.canonical, p.store)
    && (!p.broken ==> Healthy(env, p))
  }

  /** An outcome after which the publisher is valid, broken if the outcome is an error. */
  ghost predicate Keeps(env: Env, o: Outcome) {
    Valid(env, o.state.(broken := !o.ok))
  }

  /** Block events carry the header and the delta their hash stands for. */
  ghost predicate CommandTrue(env: Env, cmd: Command) {
    match cmd
    case OnExecuted(_, g, block, changes) =>
      block == env.chain.meta(block.hash) && changes == env.chain.delta(g, block.hash)
    case OnValidatedFallback(_, g, block, changes, _) =>
      block == env.chain.meta(block.hash) && changes == env.chain.delta(g, block.hash)
    case _ => true
  }

  // ----- Publication -----

  lemma SendTrue(env: Env, p: State, g: Generation, event: Event, next: Option<NextState>)
    requires SharedTrue(env.chain, p.shared) && EventTrue(env.chain, g, event)
    requires next.Some? ==> Faithful(env.chain, next.value.canonical)
                            && (next.value.forkchoice.Some? ==>
                                  Heads(next.value.forkchoice.value, next.value.canonical.block))
    ensures var o := Send(env, p, g, event, next);
            && SharedTrue(env.chain, o.state.shared) && o.state == p.(shared := o.state.shared)
            && |o.state.shared.calls| == |p.shared.calls| + 1
            && (next.None? || !o.ok ==> o.state.shared.published == p.shared.published)
            && (next.Some? && o.ok ==>
                  o.state.shared.published
                  == Published(next.value.canonical, next.value.forkchoice, |p.shared.calls| + 1,
                               next.value.recovering))
            && (Preflighted(event) ==> o.ok)
  {
    hide Faithful, EventTrue;
    var sh := Send(env, p, g, event, next).state.shared;
    forall i | 0 <= i < |sh.calls|
      ensures CallTrue(env.chain, sh.calls[i])
    {
      if i < |p.shared.calls| {
        assert sh.calls[i] == p.shared.calls[i];
      }
    }
  }

  lemma {:induction false} RetiredTrue(env: Env, sh: Shared, g: Generation, hashes: seq<Hash>, reason: Reason)
    requires SharedTrue(env.chain, sh)
    ensures var sent := PublishRetired(env.encodes, env.batch, sh, g, hashes, reason);
            SharedTrue(env.chain, sent.shared) && sent.shared.published == sh.published
    decreases |hashes|
  {
    hide Faithful, PublishedTrue;
    if hashes != [] {
      var n := if env.batch == 0 then 1 else if env.batch < |hashes| then env.batch else |hashes|;
      var sent := Publish(env.encodes, sh, g, CandidatesRetired(hashes[..n], reason), None);
      forall i | 0 <= i < |sent.shared.calls|
        ensures CallTrue(env.chain, sent.shared.calls[i])
      {
        if i < |sh.calls| {
          assert sent.shared.calls[i] == sh.calls[i];
        }
      }
      RetiredTrue(env, sent.shared, g, hashes[n..], reason);
    }
  }

  lemma SendRetiredTrue(env: Env, p: State, g: Generation, hashes: seq<Hash>, reason: Reason)
    requires SharedTrue(env.chain, p.shared)
    ensures var o := SendRetired(env, p, g, hashes, reason);
            && SharedTrue(env.chain, o.state.shared) && o.state == p.(shared := o.state.shared)
            && o.state.shared.published == p.shared.published
  {
    RetiredTrue(env, p.shared, g, hashes, reason);
  }

  // ----- Insertion -----

  lemma EnforceTrue(env: Env, p: State, g: Generation, trim: Trim)
    requires SharedTrue(env.chain, p.shared)
    ensures var o := Enforce(env, p, g, trim);
            && SharedTrue(env.chain, o.state.shared)
            && o.state == p.(shared := o.state.shared, store := trim.store)
            && o.state.shared.published == p.shared.published
            && (o.ok ==> trim.ok)
  {
    hide SharedTrue, SendRetired;
    SendRetiredTrue(env, p.(store := trim.store), g, trim.retired, CacheEvicted);
  }

  /** Inserting a true projection keeps the publisher valid, and on success its head unchanged. */
  lemma InsertKeeps(env: Env, p: State, projection: Projection, stage: Stage, firstSequence: nat, now: Time)
    requires Valid(env, p) && !p.broken && projection.generation == Active(p) && Faithful(env.chain, projection)
    ensures Keeps(env, InsertCandidate(env, p, projection, stage, firstSequence, now))
    ensures InsertCandidate(env, p, projection, stage, firstSequence, now).state.shared.published == p.shared.published
  {
    hide SharedTrue, Good, PutProjection, TrimProjections, TrimMetadata, Enforce, Faithful;
    var g := projection.generation;
    PutGood(env.chain, g, p.store, projection, stage, firstSequence, now);
    PutProjectionFields(p.store, projection, stage, firstSequence, now);
    var put := PutProjection(p.store, projection, stage, firstSequence, now);
    TrimProjectionsGood(env.chain, g, put);
    TrimProjectionsOnlyDrops(put);
    EnforceTrue(env, p.(store := put), g, TrimProjections(put));
    var cached := Enforce(env, p.(store := put), g, TrimProjections(put));
    if cached.ok {
      TrimMetadataGood(env.chain, g, cached.state.store);
      TrimMetadataOnlyRemoves(cached.state.store);
      EnforceTrue(env, cached.state, g, TrimMetadata(cached.state.store));
    }
  }

  lemma InsertDeferredKeeps(env: Env, p: State, block: BlockMeta, now: Time)
    requires Valid(env, p) && !p.broken && block == env.chain.meta(block.hash)
    ensures Keeps(env, InsertDeferred(env, p, block, env.chain.delta(Active(p), block.hash), now))
  {
    hide SharedTrue, Good, PutDeferred, TrimMetadata, Enforce;
    if block.hash !in p.store.tombstones && block.hash !in p.store.candidates {
      var g := Active(p);
      var changes := env.chain.delta(g, block.hash);
      PutDeferredGood(env.chain, g, p.store, block, now);
      DeferredHead(env.chain, g, p.store, block, changes, now);
      var put := PutDeferred(p.store, block, changes, now);
      TrimMetadataGood(env.chain, g, put);
      TrimMetadataOnlyRemoves(put);
      EnforceTrue(env, p.(store := put), g, TrimMetadata(put));
    }
  }

  lemma DeferredHead(c: Chain, g: Generation, s: Store, block: BlockMeta, changes: seq<SlotChange>, now: Time)
    requires Good(c, g, s)
    ensures var r := PutDeferred(s, block, changes, now); r.head == s.head && r.limits == s.limits
  {
    PutDeferredFields(c, s, block, changes, now);
  }

  // ----- Candidates -----

  /** The values a candidate is projected from are its parent's. */
  lemma ParentValuesTrue(env: Env, p: State, g: Generation, block: BlockMeta, stage: Stage, loads: bool)
    requires WellFormed(env.chain) && Agrees(env.chain, g, p.store.candidates, p.store.deferred)
    requires Named(env.chain, p.store.candidates, p.store.deferred)
    requires block == env.chain.meta(block.hash)
    ensures var base := ParentValues(env, p, g, block, stage, loads);
            base.Values? ==> base.values == Truth(env.chain, g, block.parent)
                             && block.number == Number(env.chain, block.parent) + 1
  {
  }

  /** A block's true delta over its parent's true values is its true projection. */
  lemma ProjectedFaithful(c: Chain, g: Generation, h: Hash)
    requires WellFormed(c) && Number(c, h) == Number(c, Parent(c, h)) + 1
    ensures var d := ApplyDelta(Truth(c, g, Parent(c, h)), c.delta(g, h));
            d.Delta? && var p := Projection(c.meta(h), g, d.values, d.bitmap);
                        Faithful(c, p) && Exact(p.bitmap, Truth(c, g, Parent(c, h)), p.values)
  {
    TruthSize(c, g, Parent(c, h));
    DeltaExact(Truth(c, g, Parent(c, h)), c.delta(g, h));
  }

  lemma PublishCandidateKeeps(env: Env, p: State, block: BlockMeta, stage: Stage, now: Time)
    requires Valid(env, p) && !p.broken && block == env.chain.meta(block.hash)
    requires block.number == Number(env.chain, block.parent) + 1
    ensures var g := Active(p);
            Keeps(env, PublishCandidate(env, p, g, block, Truth(env.chain, g, block.parent),
                                        env.chain.delta(g, block.hash), stage, now))
  {
    hide SharedTrue, Healthy, Intact, Faithful, ApplyDelta, Exact, InsertCandidate, Send;
    var g := Active(p);
    ProjectedFaithful(env.chain, g, block.hash);
    var d := ApplyDelta(Truth(env.chain, g, block.parent), env.chain.delta(g, block.hash));
    var projection := Projection(block, g, d.values, d.bitmap);
    SendTrue(env, p, g, BlockState(projection, stage), None);
    var sent := Send(env, p, g, BlockState(projection, stage), None);
    SameHealth(env, p, sent.state);
    if sent.ok {
      InsertKeeps(env, sent.state, projection, stage, |sent.state.shared.calls|, now);
    }
  }

  lemma SameHealth(env: Env, p: State, q: State)
    requires Healthy(env, p) && q.store == p.store && q.shared.published == p.shared.published
    ensures Healthy(env, q)
  {
  }

  lemma SetStageTouches(s: Store, h: Hash)
    requires h in s.candidates
    ensures Touched(s, SetStage(s, h))
  {
  }

  lemma PromoteKnownKeeps(env: Env, p: State, g: Generation, h: Hash)
    requires Valid(env, p) && !p.broken && h in p.store.candidates
    ensures Keeps(env, PromoteKnown(env, p, g, h))
  {
    hide SharedTrue, Good, Send, Faithful;
    SetStageTouches(p.store, h);
    TouchedGood(env.chain, Active(p), p.store, SetStage(p.store, h));
    SendTrue(env, p, g, BlockValidated(h), None);
  }

  lemma ProjectKeeps(env: Env, p: State, g: Generation, block: BlockMeta, stage: Stage, loads: bool, now: Time)
    requires Valid(env, p) && !p.broken && block == env.chain.meta(block.hash)
    ensures Keeps(env, ProjectCandidate(env, p, g, block, env.chain.delta(g, block.hash), stage, loads, now))
  {
    hide SharedTrue, Healthy, Intact, PublishCandidate, InsertDeferred, PromoteKnown, ParentValues;
    var h := block.hash;
    if g == Active(p) {
      if Held(p.store, h) {
        PromoteKnownKeeps(env, p, g, h);
      } else {
        HealthyParts(env, p);
        ParentValuesTrue(env, p, g, block, stage, loads);
        match ParentValues(env, p, g, block, stage, loads)
        case Values(_) => PublishCandidateKeeps(env, p, block, stage, now);
        case Defer => InsertDeferredKeeps(env, p, block, now);
        case Skip =>
        case Mismatch =>
      }
    }
  }

  lemma HealthyParts(env: Env, p: State)
    requires Healthy(env, p)
    ensures Agrees(env.chain, Active(p), p.store.candidates, p.store.deferred)
    ensures Named(env.chain, p.store.candidates, p.store.deferred)
  {
  }

  lemma DeferredTrue(env: Env, p: State, h: Hash)
    requires Healthy(env, p) && h in p.store.deferred && WellFormed(env.chain)
    ensures p.store.deferred[h].block == env.chain.meta(h) && p.store.deferred[h].block.hash == h
    ensures p.store.deferred[h].changes == env.chain.delta(Active(p), h)
  {
  }

  lemma PromoteKeeps(env: Env, p: State, g: Generation, h: Hash, loads: bool, now: Time)
    requires Valid(env, p) && !p.broken
    ensures Keeps(env, PromoteValidated(env, p, g, h, loads, now))
  {
    hide SharedTrue, Healthy, Intact, ProjectCandidate, PromoteKnown;
    if g == Active(p) {
      if h in p.store.candidates {
        PromoteKnownKeeps(env, p, g, h);
      } else if h in p.store.deferred {
        DeferredTrue(env, p, h);
        ProjectKeeps(env, p, g, p.store.deferred[h].block, Validated, loads, now);
      }
    }
  }

  lemma RejectedKeeps(env: Env, p: State, g: Generation, h: Hash)
    requires Valid(env, p) && !p.broken
    ensures Keeps(env, Rejected(env, p, g, h))
  {
    hide SharedTrue, Good, Send, RemoveCandidateTree;
    SendTrue(env, p, g, BlockRejected(h), None);
    if g == Active(p) && Rejectable(p.store, h) {
      if h == p.store.head {
        assert RemoveCandidateTree(p.store, h, true) == p.store by { HeadNotRemoved(p.store); }
      } else {
        RemoveTreeGood(env.chain, g, p.store, h);
      }
    }
  }

  lemma HeadNotRemoved(s: Store)
    ensures RemoveCandidateTree(s, s.head, true) == s
  {
  }

  // ----- The canonical head -----

  lemma LoadAtFaithful(env: Env, g: Generation, h: Hash)
    requires WellFormed(env.chain)
    ensures Faithful(env.chain, LoadAt(env, g, h)) && LoadAt(env, g, h).block.hash == h
  {
  }

  lemma HeadProjectionTrue(env: Env, p: State, g: Generation, h: Hash, loads: bool)
    requires Healthy(env, p) && WellFormed(env.chain)
    ensures var r := HeadProjection(env, p, g, h, loads);
            r.Some? ==> Faithful(env.chain, r.value) && r.value.generation == Active(p)
  {
  }

  lemma MovedHeadTouches(s: Store, previous: Hash, h: Hash, sequence: nat, now: Time)
    ensures Touched(s, NoteFirstSequence(ScheduleExpiry(s.(head := h), previous, now), h, sequence))
    ensures NoteFirstSequence(ScheduleExpiry(s.(head := h), previous, now), h, sequence).head == h
  {
    hide Touched, ScheduleExpiry, NoteFirstSequence;
    var moved := s.(head := h);
    ExpiryTouches(moved, previous, now);
    var aged := ScheduleExpiry(moved, previous, now);
    SequenceTouches(aged, h, sequence);
    TouchedTwice(s, moved, aged, NoteFirstSequence(aged, h, sequence));
  }

  lemma ExpiryTouches(s: Store, h: Hash, now: Time)
    ensures Touched(s, ScheduleExpiry(s, h, now)) && ScheduleExpiry(s, h, now).head == s.head
  {
    var r := ScheduleExpiry(s, h, now);
    assert r.candidates.Keys == s.candidates.Keys && r.deferred.Keys == s.deferred.Keys;
  }

  lemma SequenceTouches(s: Store, h: Hash, sequence: nat)
    ensures Touched(s, NoteFirstSequence(s, h, sequence)) && NoteFirstSequence(s, h, sequence).head == s.head
  {
    var r := NoteFirstSequence(s, h, sequence);
    assert r.candidates.Keys == s.candidates.Keys;
  }

  lemma TouchedTwice(s: Store, moved: Store, a: Store, b: Store)
    requires moved == s.(head := moved.head) && Touched(moved, a) && Touched(a, b)
    ensures Touched(s, b)
  {
  }

  lemma CanonicalEventTrue(env: Env, p: State, projection: Projection)
    requires Valid(env, p) && !p.broken && projection.generation == Active(p) && Faithful(env.chain, projection)
    ensures var changed := CanonicalBitmap(p.shared.published.canonical, projection);
            changed.Some? && EventTrue(env.chain, Active(p), CanonicalHead(p.store.head, projection, changed.value))
  {
    hide Good;
    CanonicalBitmapExact(env.chain, p.shared.published.canonical, projection);
  }

  lemma AdvanceHeadKeeps(env: Env, p: State, projection: Projection, now: Time)
    requires Valid(env, p) && !p.broken && projection.generation == Active(p) && Faithful(env.chain, projection)
    ensures Keeps(env, AdvanceHead(env, p, projection, now))
  {
    hide SharedTrue, Good, Send, InsertCandidate, Faithful, CanonicalBitmap, EventTrue;
    CanonicalEventTrue(env, p, projection);
    var changed := CanonicalBitmap(p.shared.published.canonical, projection).value;
    InsertKeeps(env, p, projection, Validated, 0, now);
    var inserted := InsertCandidate(env, p, projection, Validated, 0, now);
    if inserted.ok {
      var event := CanonicalHead(p.store.head, projection, changed);
      SendTrue(env, inserted.state, projection.generation, event, Some(NextState(projection, None, false)));
      var sent := Send(env, inserted.state, projection.generation, event, Some(NextState(projection, None, false)));
      var h := projection.block.hash;
      var sequence := |sent.state.shared.calls|;
      MovedHeadTouches(inserted.state.store, p.store.head, h, sequence, now);
      TouchedGood(env.chain, projection.generation, inserted.state.store,
                  NoteFirstSequence(ScheduleExpiry(inserted.state.store.(head := h), p.store.head, now), h, sequence));
    }
  }

  lemma CanonicalKeeps(env: Env, p: State, g: Generation, observedAt: Time, h: Hash, loads: bool, now: Time)
    requires Valid(env, p) && !p.broken
    ensures Keeps(env, Canonical(env, p, g, observedAt, h, loads, now))
  {
    hide SharedTrue, Healthy, Intact, AdvanceHead, HeadProjection, Faithful;
    HeadProjectionTrue(env, p, g, h, loads);
    var r := HeadProjection(env, p, g, h, loads);
    if r.Some? {
      AdvanceHeadKeeps(env, p, r.value, now);
    }
  }

  lemma NoteFinalizedKeeps(env: Env, p: State, finalized: Option<Checkpoint>)
    requires Valid(env, p) && !p.broken
    ensures Keeps(env, NoteFinalized(env, p, Active(p), finalized))
  {
    hide SharedTrue, Good, ProcessFinality, SendRetired;
    if finalized.Some? && finalized != p.store.lastFinalized {
      var g := Active(p);
      BeginSweepGood(env.chain, g, p.store, finalized.value);
      var begun := BeginSweep(p.store, finalized.value);
      SweepGood(env.chain, g, begun, p.store.limits.budget);
      var slice := ProcessFinality(begun, p.store.limits.budget);
      SendRetiredTrue(env, p.(store := slice.store), g, slice.retired, FinalizedConflict);
    }
  }

  lemma ForkchoiceAppliedKeeps(env: Env, p: State, applied: AppliedView)
    requires Valid(env, p) && !p.broken
    ensures Keeps(env, ForkchoiceAppliedTo(env, p, applied))
  {
    hide SharedTrue, Good, Bounded, NoteFinalized, Send, Faithful;
    var canonical := p.shared.published.canonical;
    assert PublishedTrue(env.chain, p.shared.published) by { SharedPublished(env.chain, p.shared); }
    var view := Resolve(applied, canonical.block.number);
    if canonical.block.hash == applied.head && ValidView(view) {
      SendTrue(env, p, canonical.generation, ForkchoiceApplied(view), Some(NextState(canonical, Some(view), false)));
      var sent := Send(env, p, canonical.generation, ForkchoiceApplied(view),
                       Some(NextState(canonical, Some(view), false)));
      if sent.ok {
        NoteFinalizedKeeps(env, sent.state, view.finalized);
      }
    }
  }

  lemma SharedPublished(c: Chain, sh: Shared)
    requires SharedTrue(c, sh)
    ensures PublishedTrue(c, sh.published)
  {
  }

  lemma ForkchoiceChangedKeeps(env: Env, p: State, g: Generation, observedAt: Time, applied: AppliedView, loads: bool,
                               now: Time)
    requires Valid(env, p) && !p.broken
    ensures Keeps(env, ForkchoiceChanged(env, p, g, observedAt, applied, loads, now))
  {
    hide SharedTrue, Healthy, Intact, Canonical, ForkchoiceAppliedTo;
    ForkchoiceAppliedKeeps(env, p, applied);
    CanonicalKeeps(env, p, g, observedAt, applied.head, loads, now);
    var moved := Canonical(env, p, g, observedAt, applied.head, loads, now);
    if moved.ok {
      ForkchoiceAppliedKeeps(env, moved.state.(broken := false), applied);
      assert moved.state.broken == p.broken by { CanonicalNotBroken(env, p, g, observedAt, applied.head, loads, now); }
    }
  }

  lemma CanonicalNotBroken(env: Env, p: State, g: Generation, observedAt: Time, h: Hash, loads: bool, now: Time)
    ensures Canonical(env, p, g, observedAt, h, loads, now).state.broken == p.broken
  {
    hide PutProjection, TrimProjections, TrimMetadata, PublishRetired, Publish, CanonicalBitmap, HeadProjection,
         ScheduleExpiry, NoteFirstSequence;
  }

  // ----- Anchors -----

  lemma AnchorKeeps(env: Env, p: State, g: Generation, load: Load, now: Time)
    requires WellFormed(env.chain) && ValidLimits(p.store.limits) && Coheres(env, load)
    ensures var projection := LoadAt(env, g, load.head);
            var s := Reset(p.store, projection, load.view.finalized, now);
            && Good(env.chain, g, s) && Bounded(s) && s.head == load.head && Held(s, s.head) && ValidLimits(s.limits)
            && Faithful(env.chain, projection) && projection.block.hash == load.head
            && Heads(load.view, projection.block)
  {
    hide Good, Faithful;
    LoadAtFaithful(env, g, load.head);
    AnchoredGood(env.chain, g, p.store.limits, LoadAt(env, g, load.head), load.view.finalized, p.store.nextIncarnation,
                 now);
  }

  /** A snapshot makes any publisher healthy again, whatever its store looked like. */
  lemma ReanchorKeeps(env: Env, p: State, load: Load, now: Time)
    requires Valid(env, p.(broken := true))
    ensures Keeps(env, Reanchor(env, p, load, now))
    ensures Coheres(env, load) ==> Reanchor(env, p, load, now).ok
  {
    hide SharedTrue, Good, Send, Faithful, LoadAt, Reset;
    if Coheres(env, load) {
      AnchorKeeps(env, p, Active(p), load, now);
      var projection := LoadAt(env, Active(p), load.head);
      assert projection.generation == Active(p) by { LoadAtGeneration(env, Active(p), load.head); }
      var reset := p.(store := Reset(p.store, projection, load.view.finalized, now), anchoredAt := load.anchoredAt);
      SendTrue(env, reset, projection.generation, Snapshot(projection, load.view),
               Some(NextState(projection, Some(load.view), false)));
    }
  }

  lemma LoadAtGeneration(env: Env, g: Generation, h: Hash)
    ensures LoadAt(env, g, h).generation == g
  {
  }

  lemma AnnounceGapKeeps(env: Env, p: State)
    requires Valid(env, p)
    ensures Valid(env, AnnounceGap(env, p).state.(broken := true))
  {
    hide SharedTrue, Good, Send, Faithful;
    assert PublishedTrue(env.chain, p.shared.published) by { SharedPublished(env.chain, p.shared); }
    SendTrue(env, p, Active(p), Gap(p.shared.committed), Some(NextState(p.shared.published.canonical, None, true)));
  }

  lemma StateResetKeeps(env: Env, p: State, g: Generation, observedAt: Time, load: Load, now: Time)
    requires Valid(env, p) && !p.broken
    ensures Keeps(env, ResetCanonicalState(env, p, g, observedAt, load, now))
  {
    hide Valid, AnnounceGap, Reanchor;
    AnnounceGapKeeps(env, p);
    ReanchorKeeps(env, AnnounceGap(env, p).state, load, now);
    assert Valid(env, p.(broken := true)) by { BrokenValid(env, p); }
    assert p.(broken := false) == p;
  }

  lemma BrokenValid(env: Env, p: State)
    requires Valid(env, p)
    ensures Valid(env, p.(broken := true))
  {
  }

  lemma AttemptKeeps(env: Env, p: State, load: Load, now: Time)
    requires Valid(env, p)
    ensures Keeps(env, Attempt(env, p, load, now))
  {
    hide Valid, AnnounceGap, Reanchor;
    AnnounceGapKeeps(env, p);
    BrokenValid(env, p);
    ReanchorKeeps(env, p, load, now);
    ReanchorKeeps(env, AnnounceGap(env, p).state, load, now);
  }

  lemma ActivateKeeps(env: Env, p: State, g: Generation, load: Load, now: Time)
    requires Valid(env, p) && !p.broken
    ensures Keeps(env, Activate(env, p, g, load, now))
  {
    hide SharedTrue, Good, Send, Faithful, LoadAt, Reset;
    if g > Active(p) && Coheres(env, load) {
      AnchorKeeps(env, p, g, load, now);
      LoadAtGeneration(env, g, load.head);
      var projection := LoadAt(env, g, load.head);
      var reset := p.(store := Reset(p.store, projection, load.view.finalized, now), anchoredAt := load.anchoredAt);
      var next := Some(NextState(projection, Some(load.view), false));
      SendTrue(env, reset, g, ConfigActivated(env.chain.keys(g)), next);
      var config := Send(env, reset, g, ConfigActivated(env.chain.keys(g)), next);
      SendTrue(env, config.state, g, Snapshot(projection, load.view), None);
    }
  }

  // ----- Maintenance -----

  lemma MaintainKeeps(env: Env, p: State, due: seq<Hash>, now: Time)
    requires Valid(env, p) && !p.broken
    ensures Keeps(env, Maintain(env, p, due, now))
  {
    hide SharedTrue, Good, ProcessFinality, SendRetired, RemoveAll, Retires, Due;
    var g := Active(p);
    SweepGood(env.chain, g, p.store, p.store.limits.budget);
    var slice := ProcessFinality(p.store, p.store.limits.budget);
    SendRetiredTrue(env, p.(store := slice.store), g, slice.retired, FinalizedConflict);
    var swept := SendRetired(env, p.(store := slice.store), g, slice.retired, FinalizedConflict);
    if swept.ok {
      RemoveAllGood(env.chain, g, slice.store, due);
      var (s, expired) := RemoveAll(slice.store, due);
      SendRetiredTrue(env, swept.state.(store := s), g, expired, RetentionExpired);
    }
  }

  // ----- Runs -----

  lemma HandleKeeps(env: Env, p: State, cmd: Command, now: Time)
    requires Valid(env, p) && !p.broken && CommandTrue(env, cmd)
    ensures Keeps(env, Handle(env, p, cmd, now))
  {
    hide Valid, ProjectCandidate, PromoteValidated, ResetCanonicalState, ForkchoiceChanged, Rejected, Activate,
         Maintain;
    BrokenValid(env, p);
    assert p.(broken := false) == p;
    match cmd
    case OnExecuted(_, g, block, _) => ProjectKeeps(env, p, g, block, Executed, false, now);
    case OnValidated(g, h, loads) => PromoteKeeps(env, p, g, h, loads, now);
    case OnValidatedFallback(_, g, block, _, loads) => ProjectKeeps(env, p, g, block, Validated, loads, now);
    case OnStateReset(at, g, load) => StateResetKeeps(env, p, g, at, load, now);
    case OnForkchoice(at, g, applied, loads) => ForkchoiceChangedKeeps(env, p, g, at, applied, loads, now);
    case OnRejected(g, h) => RejectedKeeps(env, p, g, h);
    case OnActivate(g, load) => ActivateKeeps(env, p, g, load, now);
    case OnTick(due) => MaintainKeeps(env, p, due, now);
    case OnLoss =>
    case OnRetry(_) =>
  }

  lemma StepKeeps(env: Env, p: State, cmd: Command, now: Time)
    requires Valid(env, p) && CommandTrue(env, cmd)
    ensures Valid(env, Step(env, p, cmd, now))
  {
    hide Valid, Handle, Attempt;
    if p.broken {
      if cmd.OnRetry? {
        AttemptKeeps(env, p, cmd.load, now);
      }
    } else {
      HandleKeeps(env, p, cmd, now);
    }
  }

  ghost predicate TurnsTrue(env: Env, turns: seq<Turn>) {
    forall i :: 0 <= i < |turns| ==> CommandTrue(env, turns[i].command)
  }

  lemma {:induction false} RunKeeps(env: Env, p: State, turns: seq<Turn>)
    requires Valid(env, p) && TurnsTrue(env, turns)
    ensures Valid(env, Run(env, p, turns))
    decreases |turns|
  {
    hide Valid, Step, CommandTrue;
    if turns != [] {
      StepKeeps(env, p, turns[0].command, turns[0].now);
      RunKeeps(env, Step(env, p, turns[0].command, turns[0].now), turns[1..]);
    }
  }

  lemma StartValid(env: Env, limits: Limits, g: Generation, load: Load, now: Time)
    requires WellFormed(env.chain) && ValidLimits(limits) && Coheres(env, load)
    ensures Valid(env, Start(env, limits, g, load, now))
  {
    LoadAtFaithful(env, g, load.head);
    AnchoredGood(env.chain, g, limits, LoadAt(env, g, load.head), load.view.finalized, 1, now);
  }

  /** Cache equals chain: in every run, over forks, deferrals, evictions, reorgs, reloads and
      recoveries, every frame ever published and the state handed to new consumers carry the
      chain's values, and so does every stored projection; every deferred delta is its own block's, the
      store invariant holds, a live sweep is about the last finalized checkpoint and all it remembers is
      true, and the head is the published canonical block. All this holds after failed turns too. The
      limits are met unless an error is pending, and then exceeded by one at most. */
  lemma CacheEqualsChain(env: Env, limits: Limits, g: Generation, load: Load, now: Time, turns: seq<Turn>)
    requires WellFormed(env.chain) && ValidLimits(limits) && Coheres(env, load) && TurnsTrue(env, turns)
    ensures var p := Run(env, Start(env, limits, g, load, now), turns);
            && SharedTrue(env.chain, p.shared)
            && Agrees(env.chain, Active(p), p.store.candidates, p.store.deferred)
            && Inv(env.chain, p.store) && SweepSound(env.chain, p.store)
            && p.store.head == p.shared.published.canonical.block.hash
            && NearlyBounded(p.store) && (!p.broken ==> Bounded(p.store))
  {
    hide Run, Start, Agrees, Inv, SweepSound, Bounded, NearlyBounded, SharedTrue;
    StartValid(env, limits, g, load, now);
    RunKeeps(env, Start(env, limits, g, load, now), turns);
  }

  lemma LogIsTrue(env: Env, limits: Limits, g: Generation, load: Load, now: Time, turns: seq<Turn>)
    requires WellFormed(env.chain) && ValidLimits(limits) && Coheres(env, load) && TurnsTrue(env, turns)
    ensures SharedTrue(env.chain, Run(env, Start(env, limits, g, load, now), turns).shared)
  {
    hide Run, Start, SharedTrue, Inv, Agrees, SweepSound, Bounded, NearlyBounded;
    CacheEqualsChain(env, limits, g, load, now, turns);
  }
}

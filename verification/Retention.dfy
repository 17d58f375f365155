/** What an unbounded consumer keeps, against what the publisher expects it to keep. */
module Retention {
  import opened Types
  import opened Sequences
  import opened Chain
  import opened Forest
  import opened Projections
  import opened Store
  import opened StoreInvariants
  import opened StoreLimits
  import opened StoreTrees
  import opened StoreFaith
  import opened Finality
  import opened FinalitySound
  import opened Wire
  import opened Publisher
  import opened PublisherInvariants
  import opened Frames
  import opened HeadSurvival

  /** A consumer's ancestry cache: each retained block with its parent. */
  type Kept = map<Hash, Hash>

  ghost function WithoutSubtree(kept: Kept, root: Hash): Kept {
    map h | h in kept && !Under(kept, root, h) :: kept[h]
  }

  /** The consumer's cache after one frame. */
  ghost function Keep(kept: Kept, event: Event): Kept {
    match event
    case Snapshot(p, _) => map[p.block.hash := p.block.parent]
    case ConfigActivated(_) => map[]
    case Gap(_) => map[]
    case BlockState(p, _) => kept[p.block.hash := p.block.parent]
    case CanonicalHead(_, p, _) => kept[p.block.hash := p.block.parent]
    case BlockRejected(h) => WithoutSubtree(kept, h)
    case CandidatesRetired(hashes, _) => kept - Elements(hashes)
    case _ => kept
  }

  /** The consumer's cache after every frame among the calls. */
  ghost function Retained(first: Kept, calls: seq<Call>): Kept
    decreases |calls|
  {
    if calls == [] then first
    else
      var last := calls[|calls| - 1];
      var before := Retained(first, calls[..|calls| - 1]);
      if last.encoded then Keep(before, last.event) else before
  }

  lemma RetainedSend(first: Kept, env: Env, p: State, g: Generation, event: Event, next: Option<NextState>)
    ensures var o := Send(env, p, g, event, next);
            Retained(first, o.state.shared.calls) == if o.ok then Keep(Retained(first, p.shared.calls), event)
                                                     else Retained(first, p.shared.calls)
  {
    hide Keep;
    var calls := Send(env, p, g, event, next).state.shared.calls;
    assert calls[..|calls| - 1] == p.shared.calls;
  }

  lemma DropInTwo(kept: Kept, a: seq<Hash>, b: seq<Hash>)
    ensures (kept - Elements(a)) - Elements(b) == kept - Elements(a + b)
  {
    assert Elements(a + b) == Elements(a) + Elements(b);
  }

  lemma {:induction false} RetainedRetired(first: Kept, env: Env, p: State, g: Generation, hashes: seq<Hash>,
                                           reason: Reason)
    requires SendRetired(env, p, g, hashes, reason).ok
    ensures Retained(first, SendRetired(env, p, g, hashes, reason).state.shared.calls)
         == Retained(first, p.shared.calls) - Elements(hashes)
    decreases |hashes|
  {
    hide Elements, Retained, Publish;
    var kept := Retained(first, p.shared.calls);
    if hashes == [] {
      assert kept - Elements<Hash>([]) == kept by { DropInTwo(kept, [], []); NoElements(); }
    } else {
      var n := if env.batch == 0 then 1 else if env.batch < |hashes| then env.batch else |hashes|;
      var event := CandidatesRetired(hashes[..n], reason);
      RetainedSend(first, env, p, g, event, None);
      var sent := Send(env, p, g, event, None);
      RetainedRetired(first, env, sent.state, g, hashes[n..], reason);
      assert hashes == hashes[..n] + hashes[n..];
      DropInTwo(kept, hashes[..n], hashes[n..]);
    }
  }

  lemma NoElements()
    ensures Elements<Hash>([]) == {}
  {
  }

  // ----- Agreement -----

  /** `h` is one of the bad blocks or descends from one. */
  ghost predicate Spoiled(c: Chain, bad: set<Hash>, h: Hash) {
    exists b :: b in bad && Below(c, b, h)
  }

  lemma SpoiledStep(c: Chain, bad: set<Hash>, h: Hash)
    requires Spoiled(c, bad, Parent(c, h))
    ensures Spoiled(c, bad, h)
  {
    var b :| b in bad && Below(c, b, Parent(c, h));
    BelowStep(c, b, h);
  }

  /** The consumer retains every tracked block. Anything else it retains is spoiled, and no tracked
      block has such a block for a parent. */
  ghost predicate Matches(c: Chain, bad: set<Hash>, kept: Kept, es: Entries) {
    && (forall h :: h in kept ==> kept[h] == Parent(c, h))
    && (forall h :: h in es && es[h].tracked ==> h in kept)
    && (forall h :: h in kept && !(h in es && es[h].tracked) ==> Spoiled(c, bad, h))
    && (forall h :: h in es && es[h].tracked && Parent(c, h) in kept ==> Parent(c, h) in es && es[Parent(c, h)].tracked)
  }

  ghost predicate AnchorClean(c: Chain, bad: set<Hash>, s: Store) {
    && !Spoiled(c, bad, s.head)
    && (forall h :: h in s.candidates && s.candidates[h].incarnation == s.anchor ==> !Spoiled(c, bad, h))
    && (forall h :: h in s.deferred && s.deferred[h].incarnation == s.anchor ==> !Spoiled(c, bad, h))
  }

  ghost predicate Agreement(env: Env, bad: set<Hash>, first: Kept, p: State) {
    !p.broken ==>
      && Matches(env.chain, bad, Retained(first, p.shared.calls), p.store.candidates)
      && AnchorClean(env.chain, bad, p.store)
  }

  ghost predicate HonestLoad(env: Env, bad: set<Hash>, load: Load) {
    load.Loaded? ==> !Spoiled(env.chain, bad, load.head)
  }

  /** Only bad blocks are rejected, and nothing spoiled is ever validated or made canonical. */
  ghost predicate Honest(env: Env, bad: set<Hash>, cmd: Command) {
    match cmd
    case OnExecuted(_, _, _, _) => true
    case OnValidated(_, h, _) => !Spoiled(env.chain, bad, h)
    case OnValidatedFallback(_, _, block, _, _) => !Spoiled(env.chain, bad, block.hash)
    case OnStateReset(_, _, load) => HonestLoad(env, bad, load)
    case OnForkchoice(_, _, applied, _) => !Spoiled(env.chain, bad, applied.head)
    case OnRejected(_, h) => h in bad
    case OnActivate(_, load) => HonestLoad(env, bad, load)
    case OnTick(_) => true
    case OnLoss => true
    case OnRetry(load) => HonestLoad(env, bad, load)
  }

  // ----- Effects on the tracked set -----

  /** Tracked afterwards: what was tracked, and `added`, but not what was `dropped`. */
  ghost predicate TrackedBecomes(es: Entries, es': Entries, added: set<Hash>, dropped: set<Hash>) {
    forall h :: h in es' && es'[h].tracked <==> ((h in es && es[h].tracked) || h in added) && h !in dropped
  }

  lemma MatchesAfter(c: Chain, bad: set<Hash>, kept: Kept, es: Entries, es': Entries, h: Hash, dropped: set<Hash>)
    requires Matches(c, bad, kept, es) && TrackedBecomes(es, es', {h}, dropped) && h !in dropped
    requires (Parent(c, h) in es && es[Parent(c, h)].tracked) || !Spoiled(c, bad, h)
    ensures Matches(c, bad, kept[h := Parent(c, h)] - dropped, es')
    ensures Matches(c, bad, (kept - dropped)[h := Parent(c, h)], es')
  {
    var kept' := kept[h := Parent(c, h)] - dropped;
    assert (kept - dropped)[h := Parent(c, h)] == kept';
    if Parent(c, h) in kept && !(Parent(c, h) in es && es[Parent(c, h)].tracked) {
      SpoiledStep(c, bad, h);
    }
  }

  lemma MatchesWithout(c: Chain, bad: set<Hash>, kept: Kept, es: Entries, es': Entries, dropped: set<Hash>)
    requires Matches(c, bad, kept, es) && TrackedBecomes(es, es', {}, dropped)
    ensures Matches(c, bad, kept - dropped, es')
  {
  }

  lemma TrackedTrans(a: Entries, b: Entries, c: Entries, added: set<Hash>, x: set<Hash>, y: set<Hash>)
    requires TrackedBecomes(a, b, added, x) && TrackedBecomes(b, c, {}, y)
    ensures TrackedBecomes(a, c, added, x + y)
  {
  }

  lemma PutTracks(s: Store, p: Projection, stage: Stage, firstSequence: nat, now: Time)
    ensures TrackedBecomes(s.candidates, PutProjection(s, p, stage, firstSequence, now).candidates, {p.block.hash}, {})
  {
    hide PutProjection;
    PutProjectionFields(s, p, stage, firstSequence, now);
  }

  lemma TrimProjectionsTracks(c: Chain, s: Store)
    requires Inv(c, s) && s.projectionCount <= s.limits.cache + 1 && s.limits.cache >= 1 && TrimProjections(s).ok
    ensures TrackedBecomes(s.candidates, TrimProjections(s).store.candidates, {}, Elements(TrimProjections(s).retired))
  {
    hide TrimProjections;
    TrimProjectionsBound(c, s);
    TrimProjectionsKeeps(c, s);
    var r := TrimProjections(s).store;
    forall h
      ensures h in r.candidates && r.candidates[h].tracked <==>
                h in s.candidates && s.candidates[h].tracked && h !in Elements(TrimProjections(s).retired)
    {
      if h in s.candidates {
        assert r.candidates[h].tracked == Held(r, h) && s.candidates[h].tracked == Held(s, h);
      }
    }
  }

  lemma TrimMetadataTracks(s: Store)
    requires MetadataQueue(s.candidates, s.deferred, s.metadataOrder) && s.candidates.Keys !! s.deferred.Keys
    requires MetadataLen(s) <= s.limits.metadata + 1 && s.limits.metadata >= 1
    ensures TrackedBecomes(s.candidates, TrimMetadata(s).store.candidates, {}, Elements(TrimMetadata(s).retired))
  {
    hide TrimMetadata, MetadataQueue, MetadataLen;
    TrimMetadataBound(s);
  }

  lemma RetiresTracks(s: Store, r: Store, retired: seq<Hash>)
    requires Retires(s, r, retired) && s.candidates.Keys !! s.deferred.Keys
    ensures TrackedBecomes(s.candidates, r.candidates, {}, Elements(retired))
  {
  }

  // ----- Operations -----

  lemma EnforceRetains(first: Kept, env: Env, p: State, g: Generation, trim: Trim)
    requires Enforce(env, p, g, trim).ok
    ensures Retained(first, Enforce(env, p, g, trim).state.shared.calls)
            == Retained(first, p.shared.calls) - Elements(trim.retired)
  {
    hide SendRetired, Retained;
    RetainedRetired(first, env, p.(store := trim.store), g, trim.retired, CacheEvicted);
  }

  /** Inserting adds the block to the tracked set and drops from it exactly what is retired. */
  lemma InsertTracks(first: Kept, env: Env, p: State, projection: Projection, stage: Stage, firstSequence: nat,
                     now: Time) returns (dropped: set<Hash>)
    requires Valid(env, p) && !p.broken && projection.generation == Active(p) && Faithful(env.chain, projection)
    requires InsertCandidate(env, p, projection, stage, firstSequence, now).ok
    ensures var q := InsertCandidate(env, p, projection, stage, firstSequence, now).state;
            && TrackedBecomes(p.store.candidates, q.store.candidates, {projection.block.hash}, dropped)
            && projection.block.hash !in dropped
            && Retained(first, q.shared.calls) == Retained(first, p.shared.calls) - dropped
  {
    hide SharedTrue, Good, PutProjection, TrimProjections, TrimMetadata, Enforce, Faithful, TrackedBecomes, Retained,
         Elements, Bounded;
    var g := projection.generation;
    var put := PutProjection(p.store, projection, stage, firstSequence, now);
    var t := TrimProjections(put);
    var m := TrimMetadata(t.store);
    EnforceTrue(env, p.(store := put), g, t);
    var cached := Enforce(env, p.(store := put), g, t);
    EnforceTrue(env, cached.state, g, m);
    InsertTracksStore(env.chain, g, p.store, projection, stage, firstSequence, now);
    EnforceRetains(first, env, p.(store := put), g, t);
    EnforceRetains(first, env, cached.state, g, m);
    dropped := Elements(t.retired) + Elements(m.retired);
    var kept := Retained(first, p.shared.calls);
    assert (kept - Elements(t.retired)) - Elements(m.retired) == kept - dropped;
    InsertHolds(env, p, projection, stage, firstSequence, now);
    NotDropped(env.chain, g, p.store, projection, stage, firstSequence, now, dropped);
  }

  lemma InsertTracksStore(c: Chain, g: Generation, s: Store, projection: Projection, stage: Stage, firstSequence: nat,
                          now: Time)
    requires Good(c, g, s) && Bounded(s) && projection.generation == g && Faithful(c, projection)
    requires TrimProjections(PutProjection(s, projection, stage, firstSequence, now)).ok
    ensures var t := TrimProjections(PutProjection(s, projection, stage, firstSequence, now));
            var m := TrimMetadata(t.store);
            TrackedBecomes(s.candidates, m.store.candidates, {projection.block.hash},
                           Elements(t.retired) + Elements(m.retired))
  {
    hide Inv, Agrees, SweepSound, PutProjection, TrimProjections, TrimMetadata, Faithful, TrackedBecomes, Elements;
    var put := PutProjection(s, projection, stage, firstSequence, now);
    PutTracks(s, projection, stage, firstSequence, now);
    PutGood(c, g, s, projection, stage, firstSequence, now);
    TrimProjectionsTracks(c, put);
    TrimProjectionsGood(c, g, put);
    var t := TrimProjections(put);
    InvQueue(c, t.store);
    TrimMetadataTracks(t.store);
    TrackedTrans(s.candidates, put.candidates, t.store.candidates, {projection.block.hash}, {}, Elements(t.retired));
    assert {} + Elements(t.retired) == Elements(t.retired);
    TrackedTrans(s.candidates, t.store.candidates, TrimMetadata(t.store).store.candidates, {projection.block.hash},
                 Elements(t.retired), Elements(TrimMetadata(t.store).retired));
  }

  lemma NotDropped(c: Chain, g: Generation, s: Store, projection: Projection, stage: Stage, firstSequence: nat,
                   now: Time, dropped: set<Hash>)
    requires Good(c, g, s) && Bounded(s) && projection.generation == g && Faithful(c, projection)
    requires var t := TrimProjections(PutProjection(s, projection, stage, firstSequence, now));
             t.ok && TrackedBecomes(s.candidates, TrimMetadata(t.store).store.candidates, {projection.block.hash},
                                    dropped)
    ensures projection.block.hash !in dropped
  {
    hide Inv, Agrees, SweepSound, PutProjection, TrimProjections, TrimMetadata, Faithful, Bounded;
    var put := PutProjection(s, projection, stage, firstSequence, now);
    var t := TrimProjections(put);
    NewestStays(c, g, s, projection, stage, firstSequence, now);
    assert Good(c, g, TrimMetadata(t.store).store) by {
      PutGood(c, g, s, projection, stage, firstSequence, now);
      TrimProjectionsGood(c, g, put);
      TrimProjectionsOnlyDrops(put);
      TrimMetadataGood(c, g, t.store);
    }
    HeldIsTracked(c, TrimMetadata(t.store).store, projection.block.hash);
  }

  lemma HeldIsTracked(c: Chain, s: Store, h: Hash)
    requires Inv(c, s)
    ensures Held(s, h) <==> Tracked(s, h)
  {
  }

  lemma InsertAnchorClean(env: Env, bad: set<Hash>, p: State, projection: Projection, stage: Stage, firstSequence: nat,
                          now: Time)
    requires Valid(env, p) && !p.broken && projection.generation == Active(p) && Faithful(env.chain, projection)
    requires AnchorClean(env.chain, bad, p.store)
    requires InsertCandidate(env, p, projection, stage, firstSequence, now).ok
    ensures AnchorClean(env.chain, bad, InsertCandidate(env, p, projection, stage, firstSequence, now).state.store)
  {
    hide SharedTrue, Good, PutProjection, TrimProjections, TrimMetadata, Enforce, Faithful, Spoiled;
    var g := projection.generation;
    var put := PutProjection(p.store, projection, stage, firstSequence, now);
    var t := TrimProjections(put);
    EnforceTrue(env, p.(store := put), g, t);
    var cached := Enforce(env, p.(store := put), g, t);
    EnforceTrue(env, cached.state, g, TrimMetadata(t.store));
    assert AnchorClean(env.chain, bad, put)
    by { PutAnchorClean(env.chain, bad, g, p.store, projection, stage, firstSequence, now); }
    TrimsAnchorClean(env.chain, bad, put);
  }

  lemma PutAnchorClean(c: Chain, bad: set<Hash>, g: Generation, s: Store, p: Projection, stage: Stage,
                       firstSequence: nat, now: Time)
    requires Good(c, g, s) && AnchorClean(c, bad, s)
    ensures AnchorClean(c, bad, PutProjection(s, p, stage, firstSequence, now))
  {
    hide PutProjection, Spoiled, Agrees, SweepSound;
    PutProjectionFields(s, p, stage, firstSequence, now);
  }

  lemma TrimsAnchorClean(c: Chain, bad: set<Hash>, s: Store)
    requires AnchorClean(c, bad, s)
    ensures AnchorClean(c, bad, TrimProjections(s).store)
    ensures AnchorClean(c, bad, TrimMetadata(TrimProjections(s).store).store)
  {
    hide Spoiled;
    TrimProjectionsIncarnations(s);
    var t := TrimProjections(s).store;
    hide TrimProjections;
    TrimMetadataEntries(t);
    hide TrimMetadata;
  }

  lemma TrimProjectionsIncarnations(s: Store)
    ensures var r := TrimProjections(s).store;
            && r.head == s.head && r.anchor == s.anchor && r.deferred == s.deferred
            && (forall h :: h in r.candidates ==>
                  h in s.candidates && r.candidates[h].incarnation == s.candidates[h].incarnation)
  {
    hide FirstProjectionVictim, Position, Scanned, HeadTicket;
  }

  lemma TrimMetadataEntries(s: Store)
    ensures var r := TrimMetadata(s).store;
            && r.head == s.head && r.anchor == s.anchor
            && (forall h :: h in r.candidates ==> h in s.candidates && r.candidates[h] == s.candidates[h])
            && (forall h :: h in r.deferred ==> h in s.deferred && r.deferred[h] == s.deferred[h])
  {
    hide FirstMetadataVictim, Scanned, HeadTicket;
  }

  /** An outcome after which publisher and consumer agree, unless it is an error. */
  ghost predicate Agreed(env: Env, bad: set<Hash>, first: Kept, o: Outcome) {
    Agreement(env, bad, first, o.state.(broken := !o.ok))
  }

  /** Publishing a block, then storing it. */
  lemma PublishAgrees(env: Env, bad: set<Hash>, first: Kept, p: State, block: BlockMeta, stage: Stage, now: Time)
    requires Valid(env, p) && !p.broken && Agreement(env, bad, first, p) && block == env.chain.meta(block.hash)
    requires block.number == Number(env.chain, block.parent) + 1
    requires Tracked(p.store, block.parent) || !Spoiled(env.chain, bad, block.hash)
    ensures var g := Active(p);
            Agreed(env, bad, first,
                   PublishCandidate(env, p, g, block, Truth(env.chain, g, block.parent), env.chain.delta(g, block.hash),
                                    stage, now))
  {
    hide SharedTrue, Healthy, Intact, Faithful, ApplyDelta, Exact, InsertCandidate, Send, Matches, AnchorClean,
         Retained, Spoiled;
    var g := Active(p);
    ProjectedFaithful(env.chain, g, block.hash);
    var d := ApplyDelta(Truth(env.chain, g, block.parent), env.chain.delta(g, block.hash));
    var projection := Projection(block, g, d.values, d.bitmap);
    var event := BlockState(projection, stage);
    SendTrue(env, p, g, event, None);
    RetainedSend(first, env, p, g, event, None);
    var sent := Send(env, p, g, event, None);
    SameHealth(env, p, sent.state);
    if sent.ok && InsertCandidate(env, sent.state, projection, stage, |sent.state.shared.calls|, now).ok {
      var dropped := InsertTracks(first, env, sent.state, projection, stage, |sent.state.shared.calls|, now);
      InsertAnchorClean(env, bad, sent.state, projection, stage, |sent.state.shared.calls|, now);
      MatchesAfter(env.chain, bad, Retained(first, p.shared.calls), p.store.candidates,
                   InsertCandidate(env, sent.state, projection, stage, |sent.state.shared.calls|,
                                   now).state.store.candidates, block.hash, dropped);
    }
  }

  /** Removing records and retiring the tracked ones among them. */
  lemma RetireAgrees(env: Env, bad: set<Hash>, first: Kept, p: State, r: Store, g: Generation, retired: seq<Hash>,
                     reason: Reason)
    requires Agreement(env, bad, first, p) && !p.broken
    requires TrackedBecomes(p.store.candidates, r.candidates, {}, Elements(retired)) && AnchorClean(env.chain, bad, r)
    ensures Agreed(env, bad, first, SendRetired(env, p.(store := r), g, retired, reason))
  {
    hide SendRetired, Matches, AnchorClean, Retained, TrackedBecomes, Elements;
    var o := SendRetired(env, p.(store := r), g, retired, reason);
    assert o.state.store == r by { SendRetiredStore(env, p.(store := r), g, retired, reason); }
    if o.ok {
      RetainedRetired(first, env, p.(store := r), g, retired, reason);
      MatchesWithout(env.chain, bad, Retained(first, p.shared.calls), p.store.candidates, r.candidates,
                     Elements(retired));
    }
  }

  lemma DeferAgrees(env: Env, bad: set<Hash>, first: Kept, p: State, block: BlockMeta, now: Time)
    requires Valid(env, p) && !p.broken && Agreement(env, bad, first, p) && block == env.chain.meta(block.hash)
    ensures Agreed(env, bad, first, InsertDeferred(env, p, block, env.chain.delta(Active(p), block.hash), now))
  {
    hide SharedTrue, PutDeferred, TrimMetadata, SendRetired, Inv, Agrees, SweepSound, MetadataQueue, TrackedBecomes,
         Matches, Retained, Spoiled, Elements;
    assert p.(broken := false) == p;
    if block.hash !in p.store.tombstones && block.hash !in p.store.candidates {
      var changes := env.chain.delta(Active(p), block.hash);
      var put := PutDeferred(p.store, block, changes, now);
      PutDeferredGood(env.chain, Active(p), p.store, block, now);
      assert AnchorClean(env.chain, bad, put)
      by { DeferAnchorClean(env.chain, bad, Active(p), p.store, block, changes, now); }
      InvQueue(env.chain, put);
      PutDeferredFields(env.chain, p.store, block, changes, now);
      TrimMetadataTracks(put);
      TrimMetadataEntries(put);
      var t := TrimMetadata(put);
      if t.ok {
        RetireAgrees(env, bad, first, p, t.store, Active(p), t.retired, CacheEvicted);
        assert p.(store := put).(store := t.store) == p.(store := t.store);
      }
    }
  }

  lemma DeferAnchorClean(c: Chain, bad: set<Hash>, g: Generation, s: Store, block: BlockMeta, changes: seq<SlotChange>,
                         now: Time)
    requires Good(c, g, s) && AnchorClean(c, bad, s)
    ensures AnchorClean(c, bad, PutDeferred(s, block, changes, now))
  {
    hide Spoiled, Agrees, SweepSound;
  }

  lemma PromoteAgrees(env: Env, bad: set<Hash>, first: Kept, p: State, g: Generation, h: Hash)
    requires Agreement(env, bad, first, p) && !p.broken && h in p.store.candidates
    ensures Agreed(env, bad, first, PromoteKnown(env, p, g, h))
  {
    hide Send, Retained, Spoiled;
    RetainedSend(first, env, p, g, BlockValidated(h), None);
    assert Send(env, p, g, BlockValidated(h), None).state.store == p.store
    by { SendStore(env, p, g, BlockValidated(h), None); }
    StageMatches(env.chain, bad, Retained(first, p.shared.calls), p.store, h);
  }

  lemma SendStore(env: Env, p: State, g: Generation, event: Event, next: Option<NextState>)
    ensures Send(env, p, g, event, next).state.store == p.store && Send(env, p, g, event, next).state.broken == p.broken
  {
  }

  lemma StageMatches(c: Chain, bad: set<Hash>, kept: Kept, s: Store, h: Hash)
    requires h in s.candidates && Matches(c, bad, kept, s.candidates) && AnchorClean(c, bad, s)
    ensures Matches(c, bad, kept, SetStage(s, h).candidates) && AnchorClean(c, bad, SetStage(s, h))
  {
    hide Spoiled;
  }

  lemma ParentTracked(env: Env, p: State, g: Generation, block: BlockMeta, loads: bool)
    requires Healthy(env, p) && ParentValues(env, p, g, block, Executed, loads).Values?
    ensures Tracked(p.store, block.parent)
  {
    HeldIsTracked(env.chain, p.store, block.parent);
  }

  lemma ProjectAgrees(env: Env, bad: set<Hash>, first: Kept, p: State, g: Generation, block: BlockMeta, stage: Stage,
                      loads: bool, now: Time)
    requires Valid(env, p) && !p.broken && Agreement(env, bad, first, p) && block == env.chain.meta(block.hash)
    requires stage == Validated ==> !Spoiled(env.chain, bad, block.hash)
    ensures Agreed(env, bad, first,
                   ProjectCandidate(env, p, g, block, env.chain.delta(g, block.hash), stage, loads, now))
  {
    hide SharedTrue, Healthy, Intact, PublishCandidate, InsertDeferred, PromoteKnown, ParentValues, Matches,
         AnchorClean, Retained, Spoiled;
    assert p.(broken := false) == p;
    if g == Active(p) {
      if Held(p.store, block.hash) {
        PromoteAgrees(env, bad, first, p, g, block.hash);
      } else {
        HealthyParts(env, p);
        ParentValuesTrue(env, p, g, block, stage, loads);
        match ParentValues(env, p, g, block, stage, loads)
        case Values(_) =>
          if stage == Executed {
            ParentTracked(env, p, g, block, loads);
          }
          PublishAgrees(env, bad, first, p, block, stage, now);
        case Defer => DeferAgrees(env, bad, first, p, block, now);
        case Skip =>
        case Mismatch =>
      }
    }
  }

  lemma ValidatedAgrees(env: Env, bad: set<Hash>, first: Kept, p: State, g: Generation, h: Hash, loads: bool, now: Time)
    requires Valid(env, p) && !p.broken && Agreement(env, bad, first, p) && !Spoiled(env.chain, bad, h)
    ensures Agreed(env, bad, first, PromoteValidated(env, p, g, h, loads, now))
  {
    hide SharedTrue, Healthy, Intact, ProjectCandidate, PromoteKnown, Matches, AnchorClean, Retained, Spoiled;
    assert p.(broken := false) == p;
    if g == Active(p) {
      if h in p.store.candidates {
        PromoteAgrees(env, bad, first, p, g, h);
      } else if h in p.store.deferred {
        DeferredTrue(env, p, h);
        ProjectAgrees(env, bad, first, p, g, p.store.deferred[h].block, Validated, loads, now);
      }
    }
  }

  // ----- Rejection -----

  /** A tracked block the consumer reaches from a bad root, the publisher reaches as well. */
  lemma {:induction false} ConsumerReachesLess(c: Chain, bad: set<Hash>, kept: Kept, s: Store, root: Hash, h: Hash,
                                               k: nat)
    requires Matches(c, bad, kept, s.candidates) && AnchorClean(c, bad, s) && root in bad
    requires Tracked(s, h) && Reaches(kept, root, h, k)
    ensures Under(Edges(c, s), root, h) && Spoiled(c, bad, h)
    decreases k
  {
    hide Under;
    if k == 0 {
      UnderSelf(Edges(c, s), root);
      BelowSelf(c, root);
    } else {
      var parent := Parent(c, h);
      if k == 1 {
        UnderSelf(Edges(c, s), root);
        BelowSelf(c, root);
        assert parent == root;
      } else {
        ConsumerReachesLess(c, bad, kept, s, root, parent, k - 1);
      }
      SpoiledStep(c, bad, h);
      assert h in Edges(c, s);
      UnderStep(Edges(c, s), root, h);
    }
  }

  lemma UnderSpoiled(c: Chain, bad: set<Hash>, s: Store, root: Hash, h: Hash)
    requires root in bad && Under(Edges(c, s), root, h)
    ensures Spoiled(c, bad, h)
  {
    var k: nat :| Reaches(Edges(c, s), root, h, k);
    UnderIsBelow(c, s, root, h, k);
  }

  /** Both sides remove a rejected subtree, each by its own ancestry. */
  lemma RejectionMatches(c: Chain, bad: set<Hash>, kept: Kept, s: Store, r: Store, root: Hash)
    requires Matches(c, bad, kept, s.candidates) && AnchorClean(c, bad, s) && root in bad
    requires Thinned(s, r) && s.candidates.Keys !! s.deferred.Keys
    requires forall h :: IsRecord(r, h) <==> IsRecord(s, h) && !Under(Edges(c, s), root, h)
    ensures Matches(c, bad, WithoutSubtree(kept, root), r.candidates)
  {
    hide Under, Spoiled;
    var edges := Edges(c, s);
    var kept' := WithoutSubtree(kept, root);
    forall h
      ensures Tracked(r, h) <==> Tracked(s, h) && !Under(edges, root, h)
    {
    }
    forall h | Tracked(r, h)
      ensures h in kept'
    {
      if Under(kept, root, h) {
        UnderConsumer(c, bad, kept, s, root, h);
      }
    }
    forall h | h in kept' && !Tracked(r, h)
      ensures Spoiled(c, bad, h)
    {
      if Tracked(s, h) {
        UnderSpoiled(c, bad, s, root, h);
      }
    }
    forall h | Tracked(r, h) && Parent(c, h) in kept'
      ensures Tracked(r, Parent(c, h))
    {
      if Under(edges, root, Parent(c, h)) {
        UnderSpoiled(c, bad, s, root, Parent(c, h));
        SpoiledStep(c, bad, h);
        UnderStep(edges, root, h);
      }
    }
  }

  lemma UnderConsumer(c: Chain, bad: set<Hash>, kept: Kept, s: Store, root: Hash, h: Hash)
    requires Matches(c, bad, kept, s.candidates) && AnchorClean(c, bad, s) && root in bad
    requires Tracked(s, h) && Under(kept, root, h)
    ensures Under(Edges(c, s), root, h)
  {
    var k: nat :| Reaches(kept, root, h, k);
    ConsumerReachesLess(c, bad, kept, s, root, h, k);
  }

  lemma RejectedStore(c: Chain, g: Generation, bad: set<Hash>, kept: Kept, s: Store, h: Hash)
    requires Good(c, g, s) && Bounded(s) && Rejectable(s, h) && h in bad
    requires Matches(c, bad, kept, s.candidates) && AnchorClean(c, bad, s)
    ensures var r := RemoveCandidateTree(s, h, true);
            Matches(c, bad, WithoutSubtree(kept, h), r.candidates) && AnchorClean(c, bad, r)
  {
    hide Good, Bounded, RemoveCandidateTree, Matches, Spoiled, Under, WithoutSubtree;
    assert h != s.head by { SelfSpoiled(c, bad, h); }
    RemoveTreeGood(c, g, s, h);
    GoodDisjoint(c, g, s);
    var r := RemoveCandidateTree(s, h, true);
    RejectionMatches(c, bad, kept, s, r, h);
    ThinnedAnchorClean(c, bad, s, r);
  }

  lemma RejectedAgrees(env: Env, bad: set<Hash>, first: Kept, p: State, g: Generation, h: Hash)
    requires Valid(env, p) && !p.broken && Agreement(env, bad, first, p) && h in bad
    ensures Agreed(env, bad, first, Rejected(env, p, g, h))
  {
    hide SharedTrue, Good, Bounded, Send, RemoveCandidateTree, Matches, Retained, AnchorClean, WithoutSubtree;
    assert p.(broken := false) == p;
    if g == Active(p) && Rejectable(p.store, h) {
      SendStore(env, p, g, BlockRejected(h), None);
      RetainedSend(first, env, p, g, BlockRejected(h), None);
      RejectedStore(env.chain, g, bad, Retained(first, p.shared.calls), p.store, h);
    }
  }

  /** Consumer and publisher have the same blocks. */
  ghost predicate Even(kept: Kept, s: Store) { forall h :: h in kept <==> Tracked(s, h) }

  lemma EvenAfter(c: Chain, bad: set<Hash>, kept: Kept, s: Store, r: Store, root: Hash)
    requires Matches(c, bad, kept, s.candidates) && AnchorClean(c, bad, s) && root in bad && Even(kept, s)
    requires Thinned(s, r) && s.candidates.Keys !! s.deferred.Keys
    requires forall h :: IsRecord(r, h) <==> IsRecord(s, h) && !Under(Edges(c, s), root, h)
    ensures Even(WithoutSubtree(kept, root), r)
            <==> forall h :: Tracked(s, h) && Under(Edges(c, s), root, h) ==> Under(kept, root, h)
  {
    hide Under, Spoiled, Matches, AnchorClean, Edges;
    var edges, kept' := Edges(c, s), WithoutSubtree(kept, root);
    forall h
      ensures Tracked(r, h) <==> Tracked(s, h) && !Under(edges, root, h)
      ensures h in kept' <==> Tracked(s, h) && !Under(kept, root, h)
    {
    }
    forall h | Tracked(s, h) && Under(kept, root, h)
      ensures Under(edges, root, h)
    {
      UnderConsumer(c, bad, kept, s, root, h);
    }
    if Even(kept', r) {
      forall h | Tracked(s, h) && Under(edges, root, h)
        ensures Under(kept, root, h)
      {
        assert h in kept' <==> Tracked(r, h);
      }
    }
  }

  /** A rejection leaves both sides with the same blocks exactly when the consumer, by its own ancestry, traces to
      the rejected block every tracked block that the publisher does. An evicted block in between cuts the
      consumer's ancestry and not the publisher's. */
  lemma RejectionEvenExactly(env: Env, bad: set<Hash>, first: Kept, p: State, g: Generation, h: Hash)
    requires Valid(env, p) && !p.broken && Agreement(env, bad, first, p) && h in bad && h != p.store.head
    requires TakesEffect(env, p, g, h) && Even(Retained(first, p.shared.calls), p.store)
    ensures var kept, r := Retained(first, p.shared.calls), Rejected(env, p, g, h).state;
            Even(Retained(first, r.shared.calls), r.store)
            <==> forall x :: Tracked(p.store, x) && Under(Edges(env.chain, p.store), h, x) ==> Under(kept, h, x)
  {
    hide SharedTrue, Good, Bounded, RemoveCandidateTree, Retained, Under, Matches, AnchorClean, Edges, Thinned, Even,
         WithoutSubtree;
    RetainedSend(first, env, p, g, BlockRejected(h), None);
    RemoveTreeGood(env.chain, g, p.store, h);
    GoodDisjoint(env.chain, g, p.store);
    EvenAfter(env.chain, bad, Retained(first, p.shared.calls), p.store, RemoveCandidateTree(p.store, h, true), h);
  }

  lemma SelfSpoiled(c: Chain, bad: set<Hash>, h: Hash)
    requires h in bad
    ensures Spoiled(c, bad, h)
  {
    BelowSelf(c, h);
  }

  lemma ThinnedAnchorClean(c: Chain, bad: set<Hash>, s: Store, r: Store)
    requires AnchorClean(c, bad, s) && Fewer(s, r) && r.anchor == s.anchor && r.head == s.head
    ensures AnchorClean(c, bad, r)
  {
    hide Spoiled;
  }

  // ----- The canonical head -----

  lemma MovedHeadMatches(c: Chain, bad: set<Hash>, kept: Kept, s: Store, r: Store)
    requires Touched(s, r) && Matches(c, bad, kept, s.candidates) && AnchorClean(c, bad, s) && !Spoiled(c, bad, r.head)
    ensures Matches(c, bad, kept, r.candidates) && AnchorClean(c, bad, r)
  {
    hide Spoiled;
  }

  lemma AdvanceAgrees(env: Env, bad: set<Hash>, first: Kept, p: State, projection: Projection, now: Time)
    requires Valid(env, p) && !p.broken && projection.generation == Active(p) && Faithful(env.chain, projection)
    requires Agreement(env, bad, first, p) && !Spoiled(env.chain, bad, projection.block.hash)
    ensures Agreed(env, bad, first, AdvanceHead(env, p, projection, now))
  {
    hide SharedTrue, Good, Send, InsertCandidate, Faithful, CanonicalBitmap, Bounded, Matches, AnchorClean, Retained,
         Spoiled, ScheduleExpiry, NoteFirstSequence;
    var h := projection.block.hash;
    FaithfulBlock(env.chain, projection);
    var inserted := InsertCandidate(env, p, projection, Validated, 0, now);
    if CanonicalBitmap(p.shared.published.canonical, projection).Some? && inserted.ok {
      var event := CanonicalHead(p.store.head, projection,
                                 CanonicalBitmap(p.shared.published.canonical, projection).value);
      var next := Some(NextState(projection, None, false));
      var sent := Send(env, inserted.state, projection.generation, event, next);
      SendStore(env, inserted.state, projection.generation, event, next);
      RetainedSend(first, env, inserted.state, projection.generation, event, next);
      var dropped := InsertTracks(first, env, p, projection, Validated, 0, now);
      InsertAnchorClean(env, bad, p, projection, Validated, 0, now);
      MatchesAfter(env.chain, bad, Retained(first, p.shared.calls), p.store.candidates, inserted.state.store.candidates,
                   h, dropped);
      var sequence := |sent.state.shared.calls|;
      MovedHeadTouches(inserted.state.store, p.store.head, h, sequence, now);
      if sent.ok {
        MovedHeadMatches(env.chain, bad, Retained(first, sent.state.shared.calls), inserted.state.store,
                         NoteFirstSequence(ScheduleExpiry(inserted.state.store.(head := h), p.store.head, now), h,
                                           sequence));
      }
    }
  }

  lemma CanonicalAgrees(env: Env, bad: set<Hash>, first: Kept, p: State, g: Generation, observedAt: Time, h: Hash,
                        loads: bool, now: Time)
    requires Valid(env, p) && !p.broken && Agreement(env, bad, first, p) && !Spoiled(env.chain, bad, h)
    ensures Agreed(env, bad, first, Canonical(env, p, g, observedAt, h, loads, now))
  {
    hide SharedTrue, Healthy, Intact, AdvanceHead, HeadProjection, Faithful, Matches, AnchorClean, Retained, Spoiled;
    assert p.(broken := false) == p;
    HeadProjectionTrue(env, p, g, h, loads);
    var r := HeadProjection(env, p, g, h, loads);
    if r.Some? && r.value.block.hash == h {
      AdvanceAgrees(env, bad, first, p, r.value, now);
    }
  }

  lemma SweepAgrees(env: Env, bad: set<Hash>, first: Kept, p: State, s: Store, budget: nat)
    requires Good(env.chain, Active(p), s) && Bounded(s)
    requires !p.broken && Agreement(env, bad, first, p.(store := s))
    ensures var slice := ProcessFinality(s, budget);
            Agreed(env, bad, first,
                   SendRetired(env, p.(store := slice.store), Active(p), slice.retired, FinalizedConflict))
  {
    hide SharedTrue, Good, Bounded, ProcessFinality, SendRetired, Matches, Retained, Retires, TrackedBecomes, Spoiled;
    var slice := ProcessFinality(s, budget);
    SweepGood(env.chain, Active(p), s, budget);
    GoodDisjoint(env.chain, Active(p), s);
    RetiresTracks(s, slice.store, slice.retired);
    assert slice.store.anchor == s.anchor by { SweepAnchor(env.chain, Active(p), s, budget); }
    ThinnedAnchorClean(env.chain, bad, s, slice.store);
    RetireAgrees(env, bad, first, p.(store := s), slice.store, Active(p), slice.retired, FinalizedConflict);
    assert p.(store := s).(store := slice.store) == p.(store := slice.store);
  }

  lemma SweepAnchor(c: Chain, g: Generation, s: Store, budget: nat)
    requires Good(c, g, s)
    ensures ProcessFinality(s, budget).store.anchor == s.anchor
  {
    hide ProcessFinality, Agrees, Inv, SweepSound;
    FinalitySoundness(c, s, budget);
  }

  lemma BegunSweepAgrees(env: Env, bad: set<Hash>, first: Kept, p: State, finalized: Checkpoint)
    requires Agreement(env, bad, first, p) && !p.broken
    ensures Agreement(env, bad, first, p.(store := BeginSweep(p.store, finalized)))
  {
    hide Spoiled, Retained, Matches;
  }

  lemma NoteFinalizedAgrees(env: Env, bad: set<Hash>, first: Kept, p: State, finalized: Option<Checkpoint>)
    requires Valid(env, p) && !p.broken && Agreement(env, bad, first, p)
    ensures Agreed(env, bad, first, NoteFinalized(env, p, Active(p), finalized))
  {
    hide SharedTrue, Good, Bounded, ProcessFinality, SendRetired, Agreement;
    assert p.(broken := false) == p;
    if finalized.Some? && finalized != p.store.lastFinalized {
      BeginSweepGood(env.chain, Active(p), p.store, finalized.value);
      BegunSweepAgrees(env, bad, first, p, finalized.value);
      SweepAgrees(env, bad, first, p, BeginSweep(p.store, finalized.value), p.store.limits.budget);
    }
  }

  lemma ForkchoiceAppliedAgrees(env: Env, bad: set<Hash>, first: Kept, p: State, applied: AppliedView)
    requires Valid(env, p) && !p.broken && Agreement(env, bad, first, p)
    ensures Agreed(env, bad, first, ForkchoiceAppliedTo(env, p, applied))
  {
    hide SharedTrue, Good, Bounded, NoteFinalized, Send, Faithful, Retained, Matches, AnchorClean;
    var canonical := p.shared.published.canonical;
    assert PublishedTrue(env.chain, p.shared.published) by { SharedPublished(env.chain, p.shared); }
    var view := Resolve(applied, canonical.block.number);
    if canonical.block.hash == applied.head && ValidView(view) {
      var next := Some(NextState(canonical, Some(view), false));
      SendTrue(env, p, canonical.generation, ForkchoiceApplied(view), next);
      RetainedSend(first, env, p, canonical.generation, ForkchoiceApplied(view), next);
      var sent := Send(env, p, canonical.generation, ForkchoiceApplied(view), next);
      if sent.ok {
        NoteFinalizedAgrees(env, bad, first, sent.state, view.finalized);
      }
    }
  }

  lemma ForkchoiceAgrees(env: Env, bad: set<Hash>, first: Kept, p: State, g: Generation, observedAt: Time,
                         applied: AppliedView, loads: bool, now: Time)
    requires Valid(env, p) && !p.broken && Agreement(env, bad, first, p) && !Spoiled(env.chain, bad, applied.head)
    ensures Agreed(env, bad, first, ForkchoiceChanged(env, p, g, observedAt, applied, loads, now))
  {
    hide SharedTrue, Healthy, Intact, Canonical, ForkchoiceAppliedTo, Agreement, Spoiled;
    assert p.(broken := false) == p;
    assert Agreement(env, bad, first, p.(broken := true)) by { BrokenAgrees(env, bad, first, p); }
    if g <= Active(p) && observedAt > p.anchoredAt {
      if p.store.head == applied.head {
        ForkchoiceAppliedAgrees(env, bad, first, p, applied);
      } else {
        CanonicalKeeps(env, p, g, observedAt, applied.head, loads, now);
        CanonicalNotBroken(env, p, g, observedAt, applied.head, loads, now);
        CanonicalAgrees(env, bad, first, p, g, observedAt, applied.head, loads, now);
        var moved := Canonical(env, p, g, observedAt, applied.head, loads, now);
        if moved.ok {
          assert moved.state.(broken := false) == moved.state;
          ForkchoiceAppliedAgrees(env, bad, first, moved.state, applied);
        }
      }
    }
  }

  lemma BrokenAgrees(env: Env, bad: set<Hash>, first: Kept, p: State)
    ensures Agreement(env, bad, first, p.(broken := true))
  {
  }

  // ----- Anchors -----

  lemma AnchorMatches(env: Env, bad: set<Hash>, g: Generation, s: Store, load: Load, now: Time)
    requires WellFormed(env.chain) && load.Loaded? && !Spoiled(env.chain, bad, load.head)
    ensures var projection := LoadAt(env, g, load.head);
            var r := Reset(s, projection, load.view.finalized, now);
            && Matches(env.chain, bad, map[projection.block.hash := projection.block.parent], r.candidates)
            && AnchorClean(env.chain, bad, r)
  {
    hide Spoiled;
  }

  lemma ReanchorAgrees(env: Env, bad: set<Hash>, first: Kept, p: State, load: Load, now: Time)
    requires WellFormed(env.chain) && HonestLoad(env, bad, load)
    ensures Agreed(env, bad, first, Reanchor(env, p, load, now))
  {
    hide Send, Matches, AnchorClean, Retained, Spoiled, LoadAt, Reset;
    if Coheres(env, load) {
      AnchorMatches(env, bad, Active(p), p.store, load, now);
      var projection := LoadAt(env, Active(p), load.head);
      var reset := p.(store := Reset(p.store, projection, load.view.finalized, now), anchoredAt := load.anchoredAt);
      var next := Some(NextState(projection, Some(load.view), false));
      SendStore(env, reset, projection.generation, Snapshot(projection, load.view), next);
      RetainedSend(first, env, reset, projection.generation, Snapshot(projection, load.view), next);
    }
  }

  lemma ActivateAgrees(env: Env, bad: set<Hash>, first: Kept, p: State, g: Generation, load: Load, now: Time)
    requires WellFormed(env.chain) && HonestLoad(env, bad, load) && !p.broken && Agreement(env, bad, first, p)
    ensures Agreed(env, bad, first, Activate(env, p, g, load, now))
  {
    hide Send, Matches, AnchorClean, Retained, Spoiled, LoadAt, Reset;
    assert p.(broken := false) == p;
    if g > Active(p) && Coheres(env, load) {
      AnchorMatches(env, bad, g, p.store, load, now);
      var projection := LoadAt(env, g, load.head);
      var reset := p.(store := Reset(p.store, projection, load.view.finalized, now), anchoredAt := load.anchoredAt);
      var next := Some(NextState(projection, Some(load.view), false));
      SendStore(env, reset, g, ConfigActivated(env.chain.keys(g)), next);
      var config := Send(env, reset, g, ConfigActivated(env.chain.keys(g)), next);
      SendStore(env, config.state, g, Snapshot(projection, load.view), None);
      RetainedSend(first, env, config.state, g, Snapshot(projection, load.view), None);
    }
  }

  lemma MaintainAgrees(env: Env, bad: set<Hash>, first: Kept, p: State, due: seq<Hash>, now: Time)
    requires Valid(env, p) && !p.broken && Agreement(env, bad, first, p)
    ensures Agreed(env, bad, first, Maintain(env, p, due, now))
  {
    hide SharedTrue, Good, Bounded, ProcessFinality, SendRetired, RemoveAll, Retires, Due, Agreement, TrackedBecomes;
    var g := Active(p);
    assert p.(store := p.store) == p;
    SweepAgrees(env, bad, first, p, p.store, p.store.limits.budget);
    SweepGood(env.chain, g, p.store, p.store.limits.budget);
    var slice := ProcessFinality(p.store, p.store.limits.budget);
    SendRetiredTrue(env, p.(store := slice.store), g, slice.retired, FinalizedConflict);
    var swept := SendRetired(env, p.(store := slice.store), g, slice.retired, FinalizedConflict);
    if swept.ok {
      assert swept.state.(broken := false) == swept.state;
      RemoveAllGood(env.chain, g, slice.store, due);
      GoodDisjoint(env.chain, g, slice.store);
      var (s, expired) := RemoveAll(slice.store, due);
      RetiresTracks(slice.store, s, expired);
      assert AnchorClean(env.chain, bad, s) by { RemovedAnchorClean(env, bad, first, swept.state, s, due, expired); }
      RetireAgrees(env, bad, first, swept.state, s, g, expired, RetentionExpired);
    }
  }

  lemma {:induction false} RemoveAllAnchor(s: Store, hashes: seq<Hash>)
    ensures RemoveAll(s, hashes).0.anchor == s.anchor
    decreases |hashes|
  {
    hide RemoveOne;
    if hashes != [] {
      PlainRemovalFields(s, hashes[0]);
      RemoveAllAnchor(RemoveOne(s, hashes[0], false), hashes[1..]);
    }
  }

  lemma RemovedAnchorClean(env: Env, bad: set<Hash>, first: Kept, p: State, s: Store, due: seq<Hash>,
                           expired: seq<Hash>)
    requires Agreement(env, bad, first, p) && !p.broken && RemoveAll(p.store, due) == (s, expired)
    requires Retires(p.store, s, expired) && s.head == p.store.head
    ensures AnchorClean(env.chain, bad, s)
  {
    hide Matches, RemoveAll;
    RemoveAllAnchor(p.store, due);
    ThinnedAnchorClean(env.chain, bad, p.store, s);
  }

  // ----- Runs -----

  lemma HandleAgrees(env: Env, bad: set<Hash>, first: Kept, p: State, cmd: Command, now: Time)
    requires Valid(env, p) && !p.broken && CommandTrue(env, cmd) && Agreement(env, bad, first, p)
             && Honest(env, bad, cmd)
    ensures Agreed(env, bad, first, Handle(env, p, cmd, now))
  {
    hide Healthy, Intact, SharedTrue, ProjectCandidate, PromoteValidated, ForkchoiceChanged, Rejected, Activate,
         Maintain, Reanchor, AnnounceGap, Agreement, Spoiled;
    assert p.(broken := false) == p;
    BrokenAgrees(env, bad, first, p);
    match cmd
    case OnExecuted(_, g, block, _) => ProjectAgrees(env, bad, first, p, g, block, Executed, false, now);
    case OnValidated(g, h, loads) => ValidatedAgrees(env, bad, first, p, g, h, loads, now);
    case OnValidatedFallback(_, g, block, _, loads) =>
      ProjectAgrees(env, bad, first, p, g, block, Validated, loads, now);
    case OnStateReset(at, g, load) =>
      ReanchorAgrees(env, bad, first, AnnounceGap(env, p).state, load, now);
      BrokenAgrees(env, bad, first, AnnounceGap(env, p).state);
    case OnForkchoice(at, g, applied, loads) => ForkchoiceAgrees(env, bad, first, p, g, at, applied, loads, now);
    case OnRejected(g, h) => RejectedAgrees(env, bad, first, p, g, h);
    case OnActivate(g, load) => ActivateAgrees(env, bad, first, p, g, load, now);
    case OnTick(due) => MaintainAgrees(env, bad, first, p, due, now);
    case OnLoss =>
    case OnRetry(_) =>
  }

  lemma StepAgrees(env: Env, bad: set<Hash>, first: Kept, p: State, cmd: Command, now: Time)
    requires Valid(env, p) && CommandTrue(env, cmd) && Agreement(env, bad, first, p) && Honest(env, bad, cmd)
    ensures Agreement(env, bad, first, Step(env, p, cmd, now))
  {
    hide Healthy, Intact, SharedTrue, Handle, AnnounceGap, Reanchor, Agreement, Spoiled;
    if p.broken {
      if cmd.OnRetry? {
        ReanchorAgrees(env, bad, first, p, cmd.load, now);
        ReanchorAgrees(env, bad, first, AnnounceGap(env, p).state, cmd.load, now);
        BrokenAgrees(env, bad, first, AnnounceGap(env, p).state);
      }
    } else {
      HandleAgrees(env, bad, first, p, cmd, now);
    }
  }

  ghost predicate HonestTurns(env: Env, bad: set<Hash>, turns: seq<Turn>) {
    forall i :: 0 <= i < |turns| ==> Honest(env, bad, turns[i].command)
  }

  lemma {:induction false} RunAgrees(env: Env, bad: set<Hash>, first: Kept, p: State, turns: seq<Turn>)
    requires Valid(env, p) && TurnsTrue(env, turns) && Agreement(env, bad, first, p) && HonestTurns(env, bad, turns)
    ensures Agreement(env, bad, first, Run(env, p, turns))
    decreases |turns|
  {
    hide Valid, Step, CommandTrue, Agreement, Honest;
    if turns != [] {
      StepKeeps(env, p, turns[0].command, turns[0].now);
      StepAgrees(env, bad, first, p, turns[0].command, turns[0].now);
      RunAgrees(env, bad, first, Step(env, p, turns[0].command, turns[0].now), turns[1..]);
    }
  }

  /** Retention agreement: an unbounded consumer that has seen every frame since the start retains
      everything the publisher tracks, in every run in which only `bad` blocks are rejected and
      nothing spoiled is validated or made canonical, whenever no error is pending. What else it retains is
      spoiled, so without rejections the two sets are equal. */
  lemma RetentionAgreement(env: Env, bad: set<Hash>, limits: Limits, g: Generation, load: Load, now: Time,
                           turns: seq<Turn>)
    requires WellFormed(env.chain) && ValidLimits(limits) && Coheres(env, load) && TurnsTrue(env, turns)
    requires HonestTurns(env, bad, turns) && HonestLoad(env, bad, load)
    ensures var first := map[load.head := Parent(env.chain, load.head)];
            var p := Run(env, Start(env, limits, g, load, now), turns);
            var kept := Retained(first, p.shared.calls);
            !p.broken ==>
              && (forall h :: Tracked(p.store, h) ==> h in kept)
              && (forall h :: h in kept && !Tracked(p.store, h) ==> Spoiled(env.chain, bad, h))
              && (bad == {} ==> kept.Keys == set h | h in p.store.candidates && Tracked(p.store, h))
  {
    hide Run, Good, SharedTrue, Spoiled, Retained, AnchorClean;
    var first := map[load.head := Parent(env.chain, load.head)];
    var start := Start(env, limits, g, load, now);
    StartValid(env, limits, g, load, now);
    assert Agreement(env, bad, first, start) by { StartAgrees(env, bad, limits, g, load, now); }
    RunAgrees(env, bad, first, start, turns);
    if bad == {} {
      forall h
        ensures !Spoiled(env.chain, bad, h)
      {
        NothingSpoiled(env.chain, h);
      }
    }
  }

  lemma NothingSpoiled(c: Chain, h: Hash)
    ensures !Spoiled(c, {}, h)
  {
  }

  lemma StartAgrees(env: Env, bad: set<Hash>, limits: Limits, g: Generation, load: Load, now: Time)
    requires WellFormed(env.chain) && load.Loaded? && !Spoiled(env.chain, bad, load.head)
    ensures Agreement(env, bad, map[load.head := Parent(env.chain, load.head)], Start(env, limits, g, load, now))
  {
    hide Spoiled;
  }
}

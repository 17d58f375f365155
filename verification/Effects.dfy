/** What the commands about blocks do: which of them file, publish, promote or remove a record, with which
    frame, and which do nothing. Everything is stated over the log and the store. */
module Effects {
  import opened Types
  import opened Sequences
  import opened Chain
  import opened Forest
  import opened Projections
  import opened Store
  import opened StoreInvariants
  import opened StoreLimits
  import opened StoreTrees
  import opened StoreFaith
  import opened FinalityLinear
  import opened Wire
  import opened Publisher
  import opened PublisherInvariants
  import opened Frames
  import opened HeadSurvival
  import opened Retention

  // ----- What is left in the store -----

  /** The record of a true projection, as it is filed after its frame went out. */
  ghost predicate FiledAs(e: Entry, projection: Projection, stage: Stage, sequence: nat, at: Time) {
    && e.block == projection.block && e.projection == Some(projection) && e.stage == stage && e.tracked
    && e.firstSequence == sequence && e.expiresAt == at
  }

  lemma TrimKeepsEntry(c: Chain, g: Generation, s: Store, h: Hash)
    requires Good(c, g, s) && NearlyBounded(s) && h in s.candidates
    requires TrimProjections(s).ok && Held(TrimProjections(s).store, h)
    ensures TrimProjections(s).store.candidates[h] == s.candidates[h]
  {
    hide TrimProjections, Inv, Agrees;
    TrimProjectionsBound(c, s);
  }

  /** What was inserted is there, just as it was filed. */
  lemma InsertedEntry(env: Env, p: State, projection: Projection, stage: Stage, firstSequence: nat, now: Time)
    requires Valid(env, p) && !p.broken && projection.generation == Active(p) && Faithful(env.chain, projection)
    requires InsertCandidate(env, p, projection, stage, firstSequence, now).ok
    ensures var r, h := InsertCandidate(env, p, projection, stage, firstSequence, now).state.store,
                        projection.block.hash;
            && h in r.candidates && r.candidates[h] == NewEntry(p.store, projection, stage, firstSequence, now)
            && Queues(p.store, r, h)
  {
    hide SharedTrue, Good, PutProjection, TrimProjections, TrimMetadata, Enforce, Faithful, NewEntry, Queues;
    var g, h := projection.generation, projection.block.hash;
    var put := PutProjection(p.store, projection, stage, firstSequence, now);
    PutProjectionFields(p.store, projection, stage, firstSequence, now);
    PutGood(env.chain, g, p.store, projection, stage, firstSequence, now);
    EnforceTrue(env, p.(store := put), g, TrimProjections(put));
    var cached := Enforce(env, p.(store := put), g, TrimProjections(put)).state;
    EnforceTrue(env, cached, g, TrimMetadata(cached.store));
    NewestCached(env.chain, g, p.store, projection, stage, firstSequence, now);
    NewestStays(env.chain, g, p.store, projection, stage, firstSequence, now);
    TrimKeepsEntry(env.chain, g, put, h);
    TrimMetadataEntries(cached.store);
    PutQueues(p.store, projection, stage, firstSequence, now);
    TrimProjectionsOnlyDrops(put);
    TrimMetadataOnlyRemoves(cached.store);
    StillQueued(p.store, put, TrimMetadata(cached.store).store, h);
  }

  // ----- New records are queued for the finality sweep -----

  /** Once there is a finalized checkpoint, a record that was not there before waits to be held against it. */
  ghost predicate Queues(s: Store, r: Store, h: Hash) {
    !IsRecord(s, h) && s.lastFinalized.Some? ==> r.sweep.Some? && Awaited(r, r.sweep.value, h)
  }

  lemma QueuedCheck(s: Store, t: Ticket)
    requires s.lastFinalized.Some? && LiveMetadata(s, t)
    ensures var r := QueueFinalityCheck(s, t); r.Some? && t in r.value.pending
  {
  }

  lemma PutQueues(s: Store, p: Projection, stage: Stage, firstSequence: nat, now: Time)
    ensures Queues(s, PutProjection(s, p, stage, firstSequence, now), p.block.hash)
  {
    hide QueueFinalityCheck, AddChild;
    var h, entry := p.block.hash, NewEntry(s, p, stage, firstSequence, now);
    if !IsRecord(s, h) && s.lastFinalized.Some? {
      QueuedCheck(s.(deferred := s.deferred - {h}, candidates := s.candidates[h := entry]),
                  Ticket(s.nextIncarnation, h));
    }
  }

  lemma PutDeferredQueues(s: Store, block: BlockMeta, changes: seq<SlotChange>, now: Time)
    ensures Queues(s, PutDeferred(s, block, changes, now), block.hash)
  {
    hide QueueFinalityCheck, AddChild;
    var h, i := block.hash, s.nextIncarnation;
    if !IsRecord(s, h) && s.lastFinalized.Some? {
      QueuedCheck(s.(deferred := s.deferred[h := Deferred(block, changes, i, now + s.limits.retention)]), Ticket(i, h));
    }
  }

  lemma StillQueued(s: Store, m: Store, r: Store, h: Hash)
    requires Queues(s, m, h) && r.sweep == m.sweep && Incarnation(r, h) == Incarnation(m, h)
    ensures Queues(s, r, h)
  {
  }

  // ----- A block is published -----

  /** The block's true projection, exact against its parent. */
  ghost predicate TrueProjection(c: Chain, g: Generation, h: Hash, projection: Projection) {
    && projection.block == c.meta(h) && projection.generation == g && projection.values == Truth(c, g, h)
    && Exact(projection.bitmap, Truth(c, g, Parent(c, h)), projection.values)
  }

  /** The next frame is the block's state under the stage. If it does not encode nothing else happens; if all
      goes well the block is held, with that projection and stage, from that frame on. */
  ghost predicate PublishesBlock(env: Env, p: State, o: Outcome, h: Hash, stage: Stage, now: Time) {
    var n, calls := |p.shared.calls|, o.state.shared.calls;
    && p.shared.calls <= calls && n < |calls|
    && calls[n].event.BlockState? && calls[n].event.stage == stage && calls[n].next.None?
    && calls[n].generation == Active(p) && calls[n].encoded == env.encodes(n + 1)
    && TrueProjection(env.chain, Active(p), h, calls[n].event.projection)
    && (!calls[n].encoded ==> !o.ok && |calls| == n + 1 && o.state.store == p.store)
    && (o.ok ==> h in o.state.store.candidates
                 && FiledAs(o.state.store.candidates[h], calls[n].event.projection, stage, n + 1,
                            now + p.store.limits.retention)
                 && Queues(p.store, o.state.store, h))
  }

  lemma SentCall(env: Env, p: State, g: Generation, event: Event)
    requires !Preflighted(event)
    ensures var o, n := Send(env, p, g, event, None), |p.shared.calls|;
            && o.state.shared.calls == p.shared.calls + [Call(g, event, None, env.encodes(n + 1))]
            && o.ok == env.encodes(n + 1) && o.state.store == p.store
  {
  }

  lemma NewEntryFiled(s: Store, projection: Projection, stage: Stage, sequence: nat, now: Time)
    requires !Tracked(s, projection.block.hash)
    ensures FiledAs(NewEntry(s, projection, stage, sequence, now), projection, stage, sequence,
                    now + s.limits.retention)
  {
  }

  lemma UnheldIsUntracked(env: Env, p: State, h: Hash)
    requires Valid(env, p) && !Held(p.store, h)
    ensures !Tracked(p.store, h)
  {
  }

  lemma BlockIsPublished(env: Env, p: State, block: BlockMeta, stage: Stage, now: Time)
    requires Valid(env, p) && !p.broken && block == env.chain.meta(block.hash) && !Held(p.store, block.hash)
    requires block.number == Number(env.chain, block.parent) + 1
    ensures var g := Active(p);
            PublishesBlock(env, p, PublishCandidate(env, p, g, block, Truth(env.chain, g, block.parent),
                                                    env.chain.delta(g, block.hash), stage, now),
                           block.hash, stage, now)
  {
    hide SharedTrue, Healthy, Intact, Faithful, ApplyDelta, Exact, InsertCandidate, Send, NewEntry, FiledAs, Queues;
    var g, h := Active(p), block.hash;
    ProjectedFaithful(env.chain, g, h);
    var d := ApplyDelta(Truth(env.chain, g, block.parent), env.chain.delta(g, h));
    var projection := Projection(block, g, d.values, d.bitmap);
    assert TrueProjection(env.chain, g, h, projection) by { FaithfulIsTrue(env.chain, projection); }
    SendTrue(env, p, g, BlockState(projection, stage), None);
    SentCall(env, p, g, BlockState(projection, stage));
    var sent := Send(env, p, g, BlockState(projection, stage), None);
    if sent.ok {
      SameHealth(env, p, sent.state);
      var n := |sent.state.shared.calls|;
      InsertLaw(env, sent.state, projection, stage, n, now);
      if InsertCandidate(env, sent.state, projection, stage, n, now).ok {
        InsertedEntry(env, sent.state, projection, stage, n, now);
        UnheldIsUntracked(env, p, h);
        NewEntryFiled(p.store, projection, stage, n, now);
      }
    }
  }

  lemma FaithfulIsTrue(c: Chain, p: Projection)
    requires Faithful(c, p)
    ensures p.block == c.meta(p.block.hash) && p.values == Truth(c, p.generation, p.block.hash)
  {
  }

  // ----- A block is deferred -----

  /** No frame about the block goes out. If all goes well it waits, with its own header and delta. */
  ghost predicate Defers(env: Env, p: State, o: Outcome, h: Hash, now: Time) {
    && p.shared.calls <= o.state.shared.calls
    && (forall i :: |p.shared.calls| <= i < |o.state.shared.calls| ==>
          o.state.shared.calls[i].event.CandidatesRetired?)
    && (o.ok ==>
          h in o.state.store.deferred
          && var d := o.state.store.deferred[h];
             && d.block == env.chain.meta(h) && d.changes == env.chain.delta(Active(p), h)
             && d.expiresAt == now + p.store.limits.retention && Queues(p.store, o.state.store, h))
  }

  lemma {:induction false} OnlyRetired(encodes: nat -> bool, batch: nat, sh: Shared, g: Generation, hashes: seq<Hash>,
                                       reason: Reason)
    ensures var calls := PublishRetired(encodes, batch, sh, g, hashes, reason).shared.calls;
            sh.calls <= calls && forall i :: |sh.calls| <= i < |calls| ==> calls[i].event.CandidatesRetired?
    decreases |hashes|
  {
    if hashes != [] {
      var n := if batch == 0 then 1 else if batch < |hashes| then batch else |hashes|;
      var first := Publish(encodes, sh, g, CandidatesRetired(hashes[..n], reason), None).shared;
      OnlyRetired(encodes, batch, first, g, hashes[n..], reason);
      RetiredGrows(encodes, batch, first, g, hashes[n..], reason);
    }
  }

  lemma PutDeferredEntry(s: Store, block: BlockMeta, changes: seq<SlotChange>, now: Time)
    requires block.hash !in s.candidates
    ensures var r, h := PutDeferred(s, block, changes, now), block.hash;
            && h in r.deferred && r.deferred[h].block == block && r.deferred[h].changes == changes
            && r.deferred[h].expiresAt == now + s.limits.retention && r.limits == s.limits && r.head == s.head
            && r.candidates == s.candidates
            && (h in s.deferred ==> MetadataLen(r) == MetadataLen(s))
            && (h !in s.deferred ==> r.metadataOrder == s.metadataOrder + [Ticket(r.deferred[h].incarnation, h)])
  {
    hide QueueFinalityCheck, AddChild;
    var r := PutDeferred(s, block, changes, now);
    if block.hash in s.deferred {
      assert r.deferred.Keys == s.deferred.Keys;
    }
  }

  lemma OtherTicket(s: Store, h: Hash, i: nat)
    requires Distinct(s.metadataOrder) && i < |s.metadataOrder| - 1 && LiveMetadata(s, s.metadataOrder[i])
    requires h in s.deferred && h !in s.candidates
    requires s.metadataOrder[|s.metadataOrder| - 1] == Ticket(s.deferred[h].incarnation, h)
    ensures s.metadataOrder[i].hash != h
  {
  }

  /** The record deferred last is not the one removed, given room for two. */
  lemma NewestDeferredStays(s: Store, h: Hash)
    requires MetadataQueue(s.candidates, s.deferred, s.metadataOrder)
    requires s.candidates.Keys !! s.deferred.Keys && h in s.deferred && s.limits.metadata >= 2
    requires s.metadataOrder != [] && s.metadataOrder[|s.metadataOrder| - 1] == Ticket(s.deferred[h].incarnation, h)
    ensures h in TrimMetadata(s).store.deferred
  {
    hide EvictRecord, FirstMetadataVictim, LiveMetadata;
    if MetadataLen(s) > s.limits.metadata {
      RecordVictimBefore(s, h);
      var i := FirstMetadataVictim(s, s.metadataOrder);
      OtherTicket(s, h, i);
      EvictRecordFields(s, i);
    }
  }

  lemma DeferredStays(c: Chain, g: Generation, s: Store, block: BlockMeta, now: Time)
    requires Good(c, g, s) && Bounded(s) && block == c.meta(block.hash) && block.hash !in s.candidates
    ensures var put := PutDeferred(s, block, c.delta(g, block.hash), now);
            block.hash in TrimMetadata(put).store.deferred
  {
    hide PutDeferred, TrimMetadata, Inv, Agrees, MetadataQueue, Faithful;
    var put := PutDeferred(s, block, c.delta(g, block.hash), now);
    PutDeferredEntry(s, block, c.delta(g, block.hash), now);
    PutDeferredGood(c, g, s, block, now);
    InvQueue(c, put);
    if block.hash in s.deferred {
      NoMetadataTrim(put);
    } else {
      NewestDeferredStays(put, block.hash);
    }
  }

  lemma BlockIsDeferred(env: Env, p: State, block: BlockMeta, now: Time)
    requires Valid(env, p) && !p.broken && block == env.chain.meta(block.hash)
    requires block.hash !in p.store.tombstones && block.hash !in p.store.candidates
    ensures Defers(env, p, InsertDeferred(env, p, block, env.chain.delta(Active(p), block.hash), now), block.hash, now)
  {
    hide SharedTrue, Good, Bounded, PutDeferred, TrimMetadata, PublishRetired, Queues;
    var g, h := Active(p), block.hash;
    var put := PutDeferred(p.store, block, env.chain.delta(g, h), now);
    PutDeferredEntry(p.store, block, env.chain.delta(g, h), now);
    DeferredStays(env.chain, g, p.store, block, now);
    TrimMetadataEntries(put);
    PutDeferredQueues(p.store, block, env.chain.delta(g, h), now);
    TrimMetadataOnlyRemoves(put);
    StillQueued(p.store, put, TrimMetadata(put).store, h);
    OnlyRetired(env.encodes, env.batch, p.shared, g, TrimMetadata(put).retired, CacheEvicted);
  }

  // ----- Commands about blocks -----

  /** The block is of this dictionary, not terminal, not at hand, and above the head or next to a known block. */
  predicate Wanted(p: State, g: Generation, block: BlockMeta) {
    && g == Active(p) && block.hash !in p.store.tombstones && !Held(p.store, block.hash)
    && (block.number > p.shared.published.canonical.block.number || block.parent in p.store.candidates)
  }

  predicate HeightFollows(c: Chain, h: Hash) { Number(c, h) == Number(c, Parent(c, h)) + 1 }

  /** A wanted block whose parent's values are at hand is published, and otherwise a block not known yet is
      deferred; a height that does not follow the parent's is an error. */
  lemma ExecutionActs(env: Env, p: State, cmd: Command, now: Time)
    requires Valid(env, p) && !p.broken && CommandTrue(env, cmd) && cmd.OnExecuted? && cmd.observedAt > p.anchoredAt
    requires Wanted(p, cmd.generation, cmd.block)
    ensures var o, h, parent := Handle(env, p, cmd, now), cmd.block.hash, cmd.block.parent;
            && (Held(p.store, parent) && HeightFollows(env.chain, h) ==> PublishesBlock(env, p, o, h, Executed, now))
            && (Held(p.store, parent) && !HeightFollows(env.chain, h) ==> o == Fail(p))
            && (!Held(p.store, parent) && h !in p.store.candidates ==> Defers(env, p, o, h, now))
            && (!Held(p.store, parent) && h in p.store.candidates ==> o == Done(p))
  {
    hide Valid, ProjectCandidate, InsertDeferred, PublishesBlock, Defers, HeightFollows;
    ProjectionActs(env, p, cmd.block, Executed, false, now);
    var block := cmd.block;
    if !Held(p.store, block.parent) {
      if block.hash in p.store.candidates {
        KnownIsNotDeferred(env, p, block, cmd.changes, now);
      } else {
        BlockIsDeferred(env, p, block, now);
      }
    }
  }

  lemma KnownIsNotDeferred(env: Env, p: State, block: BlockMeta, changes: seq<SlotChange>, now: Time)
    requires block.hash in p.store.candidates
    ensures InsertDeferred(env, p, block, changes, now) == Done(p)
  {
  }

  /** What becomes of a wanted block, by where its parent's values come from. */
  lemma ProjectionActs(env: Env, p: State, block: BlockMeta, stage: Stage, loads: bool, now: Time)
    requires Valid(env, p) && !p.broken && block == env.chain.meta(block.hash) && Wanted(p, Active(p), block)
    ensures var g, h, changes := Active(p), block.hash, env.chain.delta(Active(p), block.hash);
            var o := ProjectCandidate(env, p, g, block, changes, stage, loads, now);
            if Held(p.store, block.parent) || (stage == Validated && loads) then
              if HeightFollows(env.chain, h) then PublishesBlock(env, p, o, h, stage, now) else o == Fail(p)
            else o == if stage == Executed then InsertDeferred(env, p, block, changes, now) else Done(p)
  {
    hide SharedTrue, Healthy, Intact, PublishCandidate, InsertDeferred, PublishesBlock, PromoteKnown;
    BaseKnown(env, p, block, stage, loads);
    if HeightFollows(env.chain, block.hash) {
      BlockIsPublished(env, p, block, stage, now);
    }
  }

  lemma BaseKnown(env: Env, p: State, block: BlockMeta, stage: Stage, loads: bool)
    requires Valid(env, p) && !p.broken && block == env.chain.meta(block.hash)
    ensures var h, base := block.hash, ParentValues(env, p, Active(p), block, stage, loads);
            && (h in p.store.candidates ==> p.store.candidates[h].block == block)
            && (if Held(p.store, block.parent) || (stage == Validated && loads) then
                  base == if HeightFollows(env.chain, h) then Values(Truth(env.chain, Active(p), block.parent))
                          else Mismatch
                else base == if stage == Executed then Defer else Skip)
  {
    hide SharedTrue;
    TruthSize(env.chain, Active(p), block.parent);
  }

  lemma DeferredIsNoCandidate(env: Env, p: State, h: Hash)
    requires Valid(env, p) && h in p.store.deferred
    ensures h !in p.store.candidates
  {
  }

  /** The block a validation event is about: its own, or the one that waits under the hash. */
  function Validating(env: Env, cmd: Command): BlockMeta
    requires cmd.OnValidated? || cmd.OnValidatedFallback?
  {
    if cmd.OnValidated? then env.chain.meta(cmd.hash) else cmd.block
  }

  /** A wanted block that waits, or that comes with its own delta, is published as validated once its parent's
      values are at hand or can be read, and left alone until then. */
  lemma ValidationActs(env: Env, p: State, cmd: Command, now: Time)
    requires Valid(env, p) && !p.broken && CommandTrue(env, cmd)
    requires cmd.OnValidated? || (cmd.OnValidatedFallback? && cmd.observedAt > p.anchoredAt)
    requires Wanted(p, cmd.generation, Validating(env, cmd)) && (cmd.OnValidated? ==> cmd.hash in p.store.deferred)
    ensures var o, block := Handle(env, p, cmd, now), Validating(env, cmd);
            if Held(p.store, block.parent) || cmd.loads then
              if HeightFollows(env.chain, block.hash) then PublishesBlock(env, p, o, block.hash, Validated, now)
              else o == Fail(p)
            else o == Done(p)
  {
    hide SharedTrue, ProjectCandidate, PublishesBlock, HeightFollows, Healthy, Intact, PromoteKnown;
    ProjectionActs(env, p, Validating(env, cmd), Validated, cmd.loads, now);
    if cmd.OnValidated? {
      DeferredTrue(env, p, cmd.hash);
      DeferredIsNoCandidate(env, p, cmd.hash);
    }
  }

  // ----- A record is promoted or rejected -----

  /** Exactly one frame is attempted, and nothing else happens unless it encodes. */
  predicate OneFrame(env: Env, p: State, o: Outcome, event: Event) {
    var n, q := |p.shared.calls|, o.state.shared;
    && q.calls == p.shared.calls + [Call(Active(p), event, None, env.encodes(n + 1))]
    && q.published == p.shared.published && o.ok == env.encodes(n + 1) && (!o.ok ==> o.state.store == p.store)
  }

  /** The record is validated, and nothing else in the store is different. */
  ghost predicate OnlyStage(s: Store, r: Store, h: Hash)
    requires h in s.candidates
  {
    && r == s.(candidates := r.candidates) && r.candidates.Keys == s.candidates.Keys
    && r.candidates[h] == s.candidates[h].(stage := Validated)
    && forall x :: x in s.candidates && x != h ==> r.candidates[x] == s.candidates[x]
  }

  lemma KnownIsPromoted(env: Env, p: State, h: Hash)
    requires Valid(env, p) && h in p.store.candidates
    ensures var o := PromoteKnown(env, p, Active(p), h);
            && (Held(p.store, h) ==> OneFrame(env, p, o, BlockValidated(h)))
            && (!Held(p.store, h) ==> o.ok && o.state.shared == p.shared)
            && (o.ok ==> OnlyStage(p.store, o.state.store, h))
  {
    hide SharedTrue, Inv;
    assert SetStage(p.store, h).candidates.Keys == p.store.candidates.Keys;
  }

  lemma CandidateIsTrue(env: Env, p: State, h: Hash)
    requires Valid(env, p) && h in p.store.candidates
    ensures p.store.candidates[h].block == env.chain.meta(h) && forall x :: env.chain.meta(x).hash == x
  {
  }

  /** A validated block that is known as executed becomes validated; consumers that have it are told. */
  lemma PromotionActs(env: Env, p: State, cmd: Command, now: Time)
    requires Valid(env, p) && !p.broken && CommandTrue(env, cmd)
    requires cmd.OnValidated?
             || (cmd.OnValidatedFallback? && cmd.observedAt > p.anchoredAt && cmd.block.hash !in p.store.tombstones
                 && Held(p.store, cmd.block.hash))
    requires cmd.generation == Active(p)
    requires var h := Validating(env, cmd).hash; h in p.store.candidates && p.store.candidates[h].stage == Executed
    ensures var o, h := Handle(env, p, cmd, now), Validating(env, cmd).hash;
            && (Held(p.store, h) ==> OneFrame(env, p, o, BlockValidated(h)))
            && (!Held(p.store, h) ==> o.ok && o.state.shared == p.shared)
            && (o.ok ==> OnlyStage(p.store, o.state.store, h))
  {
    hide Valid, PromoteKnown, OneFrame, OnlyStage;
    var h := Validating(env, cmd).hash;
    KnownIsPromoted(env, p, h);
    CandidateIsTrue(env, p, h);
  }

  /** A rejected block that was never validated is announced and goes, with every record under it in the index,
      unless it is the head; every other record stays as it was. */
  lemma RejectionActs(env: Env, p: State, h: Hash, now: Time)
    requires Valid(env, p) && !p.broken && IsRecord(p.store, h)
    requires h in p.store.candidates ==> p.store.candidates[h].stage == Executed
    ensures var o, edges := Handle(env, p, OnRejected(Active(p), h), now), Edges(env.chain, p.store);
            && OneFrame(env, p, o, BlockRejected(h))
            && (o.ok && h == p.store.head ==> o.state.store == p.store)
            && (o.ok && h != p.store.head ==>
                  && Thinned(p.store, o.state.store)
                  && (forall x :: IsRecord(o.state.store, x) <==> IsRecord(p.store, x) && !Under(edges, h, x))
                  && (forall x :: x in o.state.store.terminal <==> x in p.store.terminal || Under(edges, h, x)))
  {
    hide SharedTrue, Good, Bounded, RemoveCandidateTree, Under;
    SentCall(env, p, Active(p), BlockRejected(h));
    if h == p.store.head {
      HeadNotRemoved(p.store);
    } else {
      RemoveTreeGood(env.chain, Active(p), p.store, h);
    }
  }

  // ----- Nothing happens -----

  /** A command that comes too late or is not wanted: it is no newer than the anchor, it is of an older dictionary,
      or its block is terminal, held or validated already, not known, or off to the side below the head. */
  predicate Idle(p: State, cmd: Command) {
    match cmd
    case OnExecuted(at, g, block, _) =>
      at <= p.anchoredAt || g < Active(p) || (g == Active(p) && !Wanted(p, g, block))
    case OnValidatedFallback(at, g, block, _, _) =>
      || at <= p.anchoredAt || g < Active(p)
      || (g == Active(p) && !Wanted(p, g, block)
          && (block.hash in p.store.tombstones || !Held(p.store, block.hash)
              || p.store.candidates[block.hash].stage == Validated))
    case OnValidated(g, h, _) =>
      || g < Active(p)
      || (g == Active(p)
          && if h in p.store.candidates then p.store.candidates[h].stage == Validated
             else h !in p.store.deferred || !Wanted(p, g, p.store.deferred[h].block))
    case OnRejected(g, h) =>
      || g < Active(p)
      || (g == Active(p)
          && if h in p.store.candidates then p.store.candidates[h].stage == Validated else h !in p.store.deferred)
    case OnStateReset(at, g, _) => g <= Active(p) && at <= p.anchoredAt
    case OnForkchoice(at, g, _, _) => g <= Active(p) && at <= p.anchoredAt
    case OnActivate(g, load) => g <= Active(p) || load.Failed?
    case OnRetry(_) => true
    case _ => false
  }

  lemma IdleDoesNothing(env: Env, p: State, cmd: Command, now: Time)
    requires Valid(env, p) && !p.broken && CommandTrue(env, cmd) && Idle(p, cmd)
    ensures Handle(env, p, cmd, now) == Done(p)
  {
    hide SharedTrue, Valid, PublishCandidate, InsertDeferred, PromoteKnown, ParentValues, ForkchoiceChanged, Rejected,
         ResetCanonicalState, Activate, Maintain, ProjectCandidate, PromoteValidated;
    match cmd
    case OnExecuted(at, g, block, changes) =>
      if at > p.anchoredAt {
        UnwantedRests(env, p, g, block, changes, Executed, false, now);
      }
    case OnValidatedFallback(at, g, block, changes, loads) =>
      if at > p.anchoredAt {
        UnwantedRests(env, p, g, block, changes, Validated, loads, now);
      }
    case OnValidated(g, h, loads) => UnknownRests(env, p, g, h, loads, now);
    case OnRejected(g, h) => ValidatedRests(env, p, g, h);
    case OnStateReset(_, _, _) => CoveredRests(env, p, cmd, now);
    case OnForkchoice(_, _, _, _) => CoveredRests(env, p, cmd, now);
    case OnActivate(_, _) => CoveredRests(env, p, cmd, now);
    case OnRetry(_) =>
  }

  lemma UnwantedRests(env: Env, p: State, g: Generation, block: BlockMeta, changes: seq<SlotChange>, stage: Stage,
                      loads: bool, now: Time)
    requires Valid(env, p) && block == env.chain.meta(block.hash)
    requires g < Active(p) || (g == Active(p) && !Wanted(p, g, block))
    requires g == Active(p) && stage == Validated && block.hash !in p.store.tombstones && Held(p.store, block.hash) ==>
               p.store.candidates[block.hash].stage == Validated
    ensures ProjectCandidate(env, p, g, block, changes, stage, loads, now) == Done(p)
  {
    hide SharedTrue, PublishCandidate, InsertDeferred, PromoteKnown, ParentValues;
  }

  lemma UnknownRests(env: Env, p: State, g: Generation, h: Hash, loads: bool, now: Time)
    requires Valid(env, p) && !p.broken && Idle(p, OnValidated(g, h, loads))
    ensures PromoteValidated(env, p, g, h, loads, now) == Done(p)
  {
    hide SharedTrue, ProjectCandidate, PromoteKnown, Healthy, Intact;
    if g == Active(p) && h !in p.store.candidates && h in p.store.deferred {
      DeferredTrue(env, p, h);
      var d := p.store.deferred[h];
      UnwantedRests(env, p, g, d.block, d.changes, Validated, loads, now);
    }
  }

  lemma ValidatedRests(env: Env, p: State, g: Generation, h: Hash)
    requires Valid(env, p) && Idle(p, OnRejected(g, h))
    ensures Rejected(env, p, g, h) == Done(p)
  {
    hide SharedTrue;
  }

  lemma CoveredRests(env: Env, p: State, cmd: Command, now: Time)
    requires Idle(p, cmd) && (cmd.OnStateReset? || cmd.OnForkchoice? || cmd.OnActivate?)
    ensures Handle(env, p, cmd, now) == Done(p)
  {
  }

  /** A command of a dictionary that is not active yet is an error that changes nothing, unless it is older
      than the anchor. */
  lemma TooNewFails(env: Env, p: State, cmd: Command, now: Time)
    requires cmd.OnExecuted? || cmd.OnValidated? || cmd.OnValidatedFallback? || cmd.OnRejected? || cmd.OnForkchoice?
             || cmd.OnStateReset?
    requires cmd.generation > Active(p)
    requires cmd.OnExecuted? || cmd.OnValidatedFallback? ==> cmd.observedAt > p.anchoredAt
    ensures Handle(env, p, cmd, now) == Fail(p)
  {
  }

  /** The held parent is of another dictionary, size or height, or the delta has a key outside the dictionary. */
  predicate Unfit(env: Env, g: Generation, parent: Projection, block: BlockMeta, changes: seq<SlotChange>) {
    || parent.generation != g || |parent.values| != env.chain.keys(g) || block.number != parent.block.number + 1
    || exists i :: 0 <= i < |changes| && changes[i].key >= |parent.values|
  }

  /** In any state at all, a header that is not the one known for its hash, and a parent or a delta that does not
      fit, is an error that changes nothing. */
  lemma UnfitIsRefused(env: Env, p: State, block: BlockMeta, changes: seq<SlotChange>, stage: Stage, loads: bool,
                       now: Time)
    requires block.hash !in p.store.tombstones
    requires if block.hash in p.store.candidates && p.store.candidates[block.hash].block != block then true
             else Wanted(p, Active(p), block) && Held(p.store, block.parent)
                  && Unfit(env, Active(p), p.store.candidates[block.parent].projection.value, block, changes)
    ensures ProjectCandidate(env, p, Active(p), block, changes, stage, loads, now) == Fail(p)
  {
    hide InsertCandidate, InsertDeferred, PromoteKnown;
    if Held(p.store, block.parent) {
      var parent := p.store.candidates[block.parent].projection.value;
      DeltaFailsExactly(parent.values, Zeros(BitmapSize(|parent.values|)), changes);
    }
  }
}

/** What the handlers leave alone: more is published, but nothing becomes terminal and finality does
    not move. */
module Frames {
  import opened Types
  import opened Projections
  import opened Store
  import opened StoreFaith
  import opened Wire
  import opened Publisher

  /** More was published; nothing became terminal and finality did not move. */
  ghost predicate SameLaw(p: State, q: State) {
    p.shared.calls <= q.shared.calls && q.store.terminal == p.store.terminal
    && q.store.lastFinalized == p.store.lastFinalized
  }

  lemma SendLaw(env: Env, p: State, g: Generation, event: Event, next: Option<NextState>)
    ensures SameLaw(p, Send(env, p, g, event, next).state)
  {
  }

  lemma {:induction false} RetiredGrows(encodes: nat -> bool, batch: nat, sh: Shared, g: Generation, hashes: seq<Hash>,
                                        reason: Reason)
    ensures sh.calls <= PublishRetired(encodes, batch, sh, g, hashes, reason).shared.calls
    decreases |hashes|
  {
    if hashes != [] {
      var n := if batch == 0 then 1 else if batch < |hashes| then batch else |hashes|;
      var sent := Publish(encodes, sh, g, CandidatesRetired(hashes[..n], reason), None);
      RetiredGrows(encodes, batch, sent.shared, g, hashes[n..], reason);
    }
  }

  lemma SendRetiredLaw(env: Env, p: State, g: Generation, hashes: seq<Hash>, reason: Reason)
    ensures SameLaw(p, SendRetired(env, p, g, hashes, reason).state)
  {
    hide PublishRetired;
    RetiredGrows(env.encodes, env.batch, p.shared, g, hashes, reason);
  }

  lemma EnforceLaw(env: Env, p: State, g: Generation, trim: Trim)
    requires trim.store.terminal == p.store.terminal && trim.store.lastFinalized == p.store.lastFinalized
    ensures SameLaw(p, Enforce(env, p, g, trim).state)
  {
    hide SendRetired;
    SendRetiredLaw(env, p.(store := trim.store), g, trim.retired, CacheEvicted);
  }

  lemma InsertLaw(env: Env, p: State, projection: Projection, stage: Stage, firstSequence: nat, now: Time)
    ensures SameLaw(p, InsertCandidate(env, p, projection, stage, firstSequence, now).state)
  {
    hide PutProjection, TrimProjections, TrimMetadata, Enforce;
    var g, put := projection.generation, PutProjection(p.store, projection, stage, firstSequence, now);
    PutProjectionFields(p.store, projection, stage, firstSequence, now);
    TrimProjectionsOnlyDrops(put);
    EnforceLaw(env, p.(store := put), g, TrimProjections(put));
    var cached := Enforce(env, p.(store := put), g, TrimProjections(put)).state;
    TrimMetadataOnlyRemoves(cached.store);
    EnforceLaw(env, cached, g, TrimMetadata(cached.store));
  }

  lemma DeferLaw(env: Env, p: State, block: BlockMeta, changes: seq<SlotChange>, now: Time)
    ensures SameLaw(p, InsertDeferred(env, p, block, changes, now).state)
  {
    hide TrimMetadata, Enforce, QueueFinalityCheck, AddChild;
    var put := PutDeferred(p.store, block, changes, now);
    TrimMetadataOnlyRemoves(put);
    EnforceLaw(env, p.(store := put), Active(p), TrimMetadata(put));
  }

  lemma CandidateLaw(env: Env, p: State, g: Generation, block: BlockMeta, values: seq<Word>, changes: seq<SlotChange>,
                     stage: Stage, now: Time)
    ensures SameLaw(p, PublishCandidate(env, p, g, block, values, changes, stage, now).state)
  {
    hide InsertCandidate, ApplyDelta, Send;
    var delta := ApplyDelta(values, changes);
    if delta.Delta? {
      var projection := Projection(block, g, delta.values, delta.bitmap);
      SendLaw(env, p, g, BlockState(projection, stage), None);
      var sent := Send(env, p, g, BlockState(projection, stage), None).state;
      InsertLaw(env, sent, projection, stage, |sent.shared.calls|, now);
    }
  }

  lemma PromoteLaw(env: Env, p: State, g: Generation, h: Hash)
    requires h in p.store.candidates
    ensures SameLaw(p, PromoteKnown(env, p, g, h).state)
  {
    hide Send;
    SendLaw(env, p, g, BlockValidated(h), None);
  }

  lemma ProjectLaw(env: Env, p: State, g: Generation, block: BlockMeta, changes: seq<SlotChange>, stage: Stage,
                   loads: bool, now: Time)
    ensures SameLaw(p, ProjectCandidate(env, p, g, block, changes, stage, loads, now).state)
  {
    hide PublishCandidate, InsertDeferred, PromoteKnown, ParentValues;
    if Held(p.store, block.hash) {
      PromoteLaw(env, p, g, block.hash);
    }
    DeferLaw(env, p, block, changes, now);
    var base := ParentValues(env, p, g, block, stage, loads);
    if base.Values? {
      CandidateLaw(env, p, g, block, base.values, changes, stage, now);
    }
  }

  lemma ValidatedLaw(env: Env, p: State, g: Generation, h: Hash, loads: bool, now: Time)
    ensures SameLaw(p, PromoteValidated(env, p, g, h, loads, now).state)
  {
    hide ProjectCandidate, PromoteKnown;
    if h in p.store.candidates {
      PromoteLaw(env, p, g, h);
    } else if h in p.store.deferred {
      ProjectLaw(env, p, g, p.store.deferred[h].block, p.store.deferred[h].changes, Validated, loads, now);
    }
  }

  lemma CanonicalLaw(env: Env, p: State, g: Generation, observedAt: Time, h: Hash, loads: bool, now: Time)
    ensures SameLaw(p, Canonical(env, p, g, observedAt, h, loads, now).state)
  {
    hide InsertCandidate, Send, ScheduleExpiry, NoteFirstSequence, CanonicalBitmap, HeadProjection, WellShaped;
    var head := HeadProjection(env, p, g, h, loads);
    if head.Some? {
      var changed := CanonicalBitmap(p.shared.published.canonical, head.value);
      InsertLaw(env, p, head.value, Validated, 0, now);
      var inserted := InsertCandidate(env, p, head.value, Validated, 0, now).state;
      if changed.Some? {
        var event := CanonicalHead(p.store.head, head.value, changed.value);
        SendLaw(env, inserted, head.value.generation, event, Some(NextState(head.value, None, false)));
        MoveLaw(inserted.store.(head := head.value.block.hash), p.store.head, head.value.block.hash, now,
                |Send(env, inserted, head.value.generation, event,
                      Some(NextState(head.value, None, false))).state.shared.calls|);
      }
    }
  }

  lemma MoveLaw(s: Store, previous: Hash, h: Hash, now: Time, sequence: nat)
    ensures var r := NoteFirstSequence(ScheduleExpiry(s, previous, now), h, sequence);
            r.terminal == s.terminal && r.lastFinalized == s.lastFinalized
  {
  }

  lemma SendRetiredStore(env: Env, p: State, g: Generation, hashes: seq<Hash>, reason: Reason)
    ensures SendRetired(env, p, g, hashes, reason).state.store == p.store
  {
  }
}

/** What the published state shows: which commands move it, and to what. */
module Shown {
  import opened Types
  import opened Chain
  import opened Projections
  import opened Store
  import opened Finality
  import opened Wire
  import opened Publisher

  /** The state shows this view of its canonical head. */
  predicate Shows(sh: Shared, head: Hash, view: View) {
    && sh.published.canonical.block.hash == head
    && sh.published.forkchoice == Some(view)
    && !sh.published.recovering
  }

  /** The state shows the applied view: its head, and its checkpoints at or below the head. */
  predicate ShowsApplied(sh: Shared, applied: AppliedView, headNumber: nat) {
    && sh.published.canonical.block.hash == applied.head && !sh.published.recovering
    && sh.published.forkchoice.Some? && Renders(sh.published.forkchoice.value, applied, headNumber)
  }

  predicate SameShown(p: State, q: State) { q.shared.published == p.shared.published && q.anchoredAt == p.anchoredAt }

  // ----- Frames without a state -----

  lemma SendShown(env: Env, p: State, g: Generation, event: Event)
    ensures SameShown(p, Send(env, p, g, event, None).state)
  {
  }

  lemma {:induction false} RetiredShown(encodes: nat -> bool, batch: nat, sh: Shared, g: Generation, hashes: seq<Hash>,
                                        reason: Reason)
    ensures PublishRetired(encodes, batch, sh, g, hashes, reason).shared.published == sh.published
    decreases |hashes|
  {
    if hashes != [] {
      var n := if batch == 0 then 1 else if batch < |hashes| then batch else |hashes|;
      RetiredShown(encodes, batch, Publish(encodes, sh, g, CandidatesRetired(hashes[..n], reason), None).shared, g,
                   hashes[n..], reason);
    }
  }

  lemma SendRetiredShown(env: Env, p: State, g: Generation, hashes: seq<Hash>, reason: Reason)
    ensures SameShown(p, SendRetired(env, p, g, hashes, reason).state)
  {
    hide PublishRetired;
    RetiredShown(env.encodes, env.batch, p.shared, g, hashes, reason);
  }

  lemma EnforceShown(env: Env, p: State, g: Generation, trim: Trim)
    ensures SameShown(p, Enforce(env, p, g, trim).state)
  {
    hide SendRetired;
    SendRetiredShown(env, p.(store := trim.store), g, trim.retired, CacheEvicted);
  }

  lemma InsertShown(env: Env, p: State, projection: Projection, stage: Stage, firstSequence: nat, now: Time)
    ensures SameShown(p, InsertCandidate(env, p, projection, stage, firstSequence, now).state)
  {
    hide PutProjection, TrimProjections, TrimMetadata, Enforce;
    var g, put := projection.generation, PutProjection(p.store, projection, stage, firstSequence, now);
    EnforceShown(env, p.(store := put), g, TrimProjections(put));
    var cached := Enforce(env, p.(store := put), g, TrimProjections(put)).state;
    EnforceShown(env, cached, g, TrimMetadata(cached.store));
  }

  lemma PromoteShown(env: Env, p: State, g: Generation, h: Hash)
    requires h in p.store.candidates
    ensures SameShown(p, PromoteKnown(env, p, g, h).state)
  {
    hide Send;
    SendShown(env, p, g, BlockValidated(h));
  }

  lemma ProjectShown(env: Env, p: State, g: Generation, block: BlockMeta, changes: seq<SlotChange>, stage: Stage,
                     loads: bool, now: Time)
    ensures SameShown(p, ProjectCandidate(env, p, g, block, changes, stage, loads, now).state)
  {
    hide InsertCandidate, PutDeferred, TrimMetadata, Enforce, PromoteKnown, ParentValues, ApplyDelta, Send;
    if Held(p.store, block.hash) {
      PromoteShown(env, p, g, block.hash);
    }
    var put := PutDeferred(p.store, block, changes, now);
    EnforceShown(env, p.(store := put), Active(p), TrimMetadata(put));
    var base := ParentValues(env, p, g, block, stage, loads);
    if base.Values? {
      var delta := ApplyDelta(base.values, changes);
      if delta.Delta? {
        var projection := Projection(block, g, delta.values, delta.bitmap);
        SendShown(env, p, g, BlockState(projection, stage));
        var sent := Send(env, p, g, BlockState(projection, stage), None).state;
        InsertShown(env, sent, projection, stage, |sent.shared.calls|, now);
      }
    }
  }

  lemma MaintainShown(env: Env, p: State, due: seq<Hash>, now: Time)
    ensures SameShown(p, Maintain(env, p, due, now).state)
  {
    hide ProcessFinality, SendRetired, RemoveAll, Due;
    var slice := ProcessFinality(p.store, p.store.limits.budget);
    SendRetiredShown(env, p.(store := slice.store), Active(p), slice.retired, FinalizedConflict);
    var swept := SendRetired(env, p.(store := slice.store), Active(p), slice.retired, FinalizedConflict).state;
    var (s, expired) := RemoveAll(slice.store, due);
    SendRetiredShown(env, swept.(store := s), Active(p), expired, RetentionExpired);
  }

  /** Whatever blocks are executed, validated, rejected, evicted or expired, the shown state stays. */
  lemma OtherCommandsShowNothing(env: Env, p: State, cmd: Command, now: Time)
    requires cmd.OnExecuted? || cmd.OnValidated? || cmd.OnValidatedFallback? || cmd.OnRejected? || cmd.OnTick?
             || cmd.OnLoss? || cmd.OnRetry?
    ensures SameShown(p, Handle(env, p, cmd, now).state)
  {
    hide ProjectCandidate, PromoteKnown, Send, Maintain, RemoveCandidateTree;
    match cmd
    case OnExecuted(at, g, block, changes) => ProjectShown(env, p, g, block, changes, Executed, false, now);
    case OnValidated(g, h, loads) =>
      if h in p.store.candidates {
        PromoteShown(env, p, g, h);
      } else if h in p.store.deferred {
        ProjectShown(env, p, g, p.store.deferred[h].block, p.store.deferred[h].changes, Validated, loads, now);
      }
    case OnValidatedFallback(at, g, block, changes, loads) =>
      ProjectShown(env, p, g, block, changes, Validated, loads, now);
    case OnRejected(g, h) => SendShown(env, p, g, BlockRejected(h));
    case OnTick(due) => MaintainShown(env, p, due, now);
    case _ =>
  }

  // ----- Forkchoice and anchors -----

  lemma NoteFinalizedShown(env: Env, p: State, g: Generation, finalized: Option<Checkpoint>)
    ensures SameShown(p, NoteFinalized(env, p, g, finalized).state)
  {
    hide ProcessFinality, SendRetired, BeginSweep;
    if finalized.Some? {
      var slice := ProcessFinality(BeginSweep(p.store, finalized.value), p.store.limits.budget);
      SendRetiredShown(env, p.(store := slice.store), g, slice.retired, FinalizedConflict);
    }
  }

  lemma AppliedShows(env: Env, p: State, applied: AppliedView)
    ensures ForkchoiceAppliedTo(env, p, applied).state.anchoredAt == p.anchoredAt
    ensures var o := ForkchoiceAppliedTo(env, p, applied);
            o.ok ==> && ShowsApplied(o.state.shared, applied, o.state.shared.published.canonical.block.number)
                     && o.state.shared.published.canonical == p.shared.published.canonical
  {
    hide NoteFinalized, Resolve, ValidView, Renders;
    var canonical := p.shared.published.canonical;
    var view := Resolve(applied, canonical.block.number);
    var sent := Send(env, p, canonical.generation, ForkchoiceApplied(view),
                     Some(NextState(canonical, Some(view), false)));
    NoteFinalizedShown(env, sent.state, canonical.generation, view.finalized);
  }

  lemma CanonicalAnchor(env: Env, p: State, g: Generation, observedAt: Time, h: Hash, loads: bool, now: Time)
    ensures Canonical(env, p, g, observedAt, h, loads, now).state.anchoredAt == p.anchoredAt
  {
    hide InsertCandidate, CanonicalBitmap, HeadProjection, WellShaped;
    match HeadProjection(env, p, g, h, loads)
    case None =>
    case Some(projection) => InsertShown(env, p, projection, Validated, 0, now);
  }

  /** A forkchoice event the last snapshot covers changes nothing. Any other that is handled without
      an error leaves its own head and its own view, without checkpoints ahead of the head, shown. */
  lemma ForkchoiceIsShown(env: Env, p: State, g: Generation, observedAt: Time, applied: AppliedView, loads: bool,
                          now: Time)
    ensures var o := ForkchoiceChanged(env, p, g, observedAt, applied, loads, now);
            o.ok ==>
              if observedAt <= p.anchoredAt then o.state == p
              else ShowsApplied(o.state.shared, applied, o.state.shared.published.canonical.block.number)
    ensures ForkchoiceChanged(env, p, g, observedAt, applied, loads, now).state.anchoredAt == p.anchoredAt
  {
    hide Canonical, ForkchoiceAppliedTo, ShowsApplied;
    CanonicalAnchor(env, p, g, observedAt, applied.head, loads, now);
    AppliedShows(env, p, applied);
    var moved := Canonical(env, p, g, observedAt, applied.head, loads, now);
    AppliedShows(env, moved.state, applied);
  }

  /** The store has been reset to what was read: its head is the only record, held and validated, nothing waits and
      nothing is terminal, and finality is where the view has it. */
  ghost predicate StartsAfresh(c: Chain, g: Generation, s: Store, load: Load)
    requires load.Loaded?
  {
    && s.head == load.head && s.candidates.Keys == {load.head} && s.deferred == map[] && s.children == map[]
    && s.tombstones == {} && s.terminal == {} && s.sweep.None? && s.lastFinalized == load.view.finalized
    && var e := s.candidates[load.head];
       && e.block == c.meta(load.head) && e.stage == Validated && e.tracked && e.projection.Some?
       && e.projection.value.generation == g && e.projection.value.values == Truth(c, g, load.head)
  }

  lemma ResetStartsAfresh(env: Env, g: Generation, s: Store, load: Load, now: Time)
    requires WellFormed(env.chain) && load.Loaded?
    ensures var r := Reset(s, LoadAt(env, g, load.head), load.view.finalized, now);
            StartsAfresh(env.chain, g, r, load) && r.limits == s.limits
  {
  }

  /** A re-anchor shows exactly what it read, as of the time it was read at, and starts afresh from there. */
  lemma ReanchorIsShown(env: Env, p: State, load: Load, now: Time)
    requires WellFormed(env.chain)
    ensures var o := Reanchor(env, p, load, now);
            if o.ok then load.Loaded? && Shows(o.state.shared, load.head, load.view)
               && o.state.anchoredAt == load.anchoredAt && Active(o.state) == Active(p)
               && StartsAfresh(env.chain, Active(p), o.state.store, load) && o.state.store.limits == p.store.limits
            else o.state == p
  {
    hide Reset, StartsAfresh;
    if Coheres(env, load) {
      ResetStartsAfresh(env, Active(p), p.store, load, now);
    }
  }

  /** So does an activation, under the new dictionary; one whose read fails changes nothing. */
  lemma ActivationIsShown(env: Env, p: State, g: Generation, load: Load, now: Time)
    requires WellFormed(env.chain)
    ensures var o := Activate(env, p, g, load, now);
            && o.ok
            && (if g > Active(p) && Coheres(env, load)
                then Shows(o.state.shared, load.head, load.view) && Active(o.state) == g
                     && o.state.anchoredAt == load.anchoredAt
                     && StartsAfresh(env.chain, g, o.state.store, load) && o.state.store.limits == p.store.limits
                else o.state == p)
  {
    hide Reset, StartsAfresh;
    if Coheres(env, load) {
      ResetStartsAfresh(env, g, p.store, load, now);
    }
  }
}

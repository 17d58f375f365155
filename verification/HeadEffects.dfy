/** What a forkchoice notice does to the head. */
module HeadEffects {
  import opened Types
  import opened Chain
  import opened Projections
  import opened Store
  import opened StoreFaith
  import opened Finality
  import opened Wire
  import opened Publisher
  import opened PublisherInvariants
  import opened Frames
  import opened HeadSurvival
  import opened Expiry
  import opened Effects

  /** The frame went out and moves the head from where it was to the block. */
  predicate HeadCall(p: State, call: Call, h: Hash) {
    && call.encoded && call.generation == Active(p)
    && call.event.CanonicalHead? && call.event.previous == p.store.head && call.event.projection.block.hash == h
  }

  /** The block is the head, held with its true values, validated, and known to consumers since it was first
      announced to them, which is now unless they had it before. */
  ghost predicate MovesHead(env: Env, p: State, q: State, h: Hash, now: Time) {
    && q.store.head == h && h in q.store.candidates
    && var e := q.store.candidates[h];
       && e.block == env.chain.meta(h) && e.stage == Validated && e.tracked && e.projection.Some?
       && e.projection.value.values == Truth(env.chain, Active(p), h) && e.expiresAt == now + p.store.limits.retention
       && p.shared.calls <= q.shared.calls
       && exists n :: |p.shared.calls| <= n < |q.shared.calls| && HeadCall(p, q.shared.calls[n], h)
                      && e.firstSequence == FirstKnown(p.store, h, n + 1)
  }

  function FirstKnown(s: Store, h: Hash, sequence: nat): nat {
    if Tracked(s, h) && s.candidates[h].firstSequence > 0 then s.candidates[h].firstSequence else sequence
  }

  lemma NotedEntry(s: Store, m: Store, projection: Projection, sequence: nat, now: Time)
    requires var h := projection.block.hash;
             h in m.candidates && m.candidates[h] == NewEntry(s, projection, Validated, 0, now) && h != s.head
    ensures var h := projection.block.hash;
            var r := NoteFirstSequence(ScheduleExpiry(m.(head := h), s.head, now), h, sequence);
            && r.head == h && h in r.candidates
            && r.candidates[h] == NewEntry(s, projection, Validated, 0, now)
                                  .(firstSequence := FirstKnown(s, h, sequence))
  {
  }

  lemma AdvanceActs(env: Env, p: State, projection: Projection, now: Time)
    requires Valid(env, p) && !p.broken && projection.generation == Active(p) && Faithful(env.chain, projection)
    requires projection.block.hash != p.store.head && AdvanceHead(env, p, projection, now).ok
    ensures MovesHead(env, p, AdvanceHead(env, p, projection, now).state, projection.block.hash, now)
  {
    hide Valid, InsertCandidate, CanonicalBitmap, NoteFirstSequence, ScheduleExpiry, Faithful;
    var h, changed := projection.block.hash, CanonicalBitmap(p.shared.published.canonical, projection).value;
    FaithfulIsTrue(env.chain, projection);
    InsertedEntry(env, p, projection, Validated, 0, now);
    InsertLaw(env, p, projection, Validated, 0, now);
    var inserted := InsertCandidate(env, p, projection, Validated, 0, now).state;
    var n := |inserted.shared.calls|;
    NotedEntry(p.store, inserted.store, projection, n + 1, now);
    var q := AdvanceHead(env, p, projection, now).state;
    assert HeadCall(p, q.shared.calls[n], h);
  }

  lemma CanonicalActs(env: Env, p: State, g: Generation, observedAt: Time, h: Hash, loads: bool, now: Time)
    requires Valid(env, p) && !p.broken && observedAt > p.anchoredAt && h != p.store.head
    requires Canonical(env, p, g, observedAt, h, loads, now).ok
    ensures MovesHead(env, p, Canonical(env, p, g, observedAt, h, loads, now).state, h, now)
  {
    hide SharedTrue, Good, AdvanceHead, HeadProjection, Faithful, MovesHead;
    HeadProjectionTrue(env, p, g, h, loads);
    AdvanceActs(env, p, HeadProjection(env, p, g, h, loads).value, now);
  }

  lemma AppliedGrows(env: Env, p: State, applied: AppliedView)
    ensures p.shared.calls <= ForkchoiceAppliedTo(env, p, applied).state.shared.calls
  {
    hide SendRetired;
    var canonical := p.shared.published.canonical;
    var view := Resolve(applied, canonical.block.number);
    var sent := Send(env, p, canonical.generation, ForkchoiceApplied(view),
                     Some(NextState(canonical, Some(view), false))).state;
    if view.finalized.Some? {
      var slice := ProcessFinality(BeginSweep(sent.store, view.finalized.value), sent.store.limits.budget);
      SendRetiredLaw(env, sent.(store := slice.store), canonical.generation, slice.retired, FinalizedConflict);
    }
  }

  lemma HeadStays(env: Env, p: State, m: State, q: State, h: Hash, now: Time)
    requires MovesHead(env, p, m, h, now) && m.shared.calls <= q.shared.calls
    requires Fewer(m.store, q.store) && q.store.head == h && Held(q.store, h)
    ensures MovesHead(env, p, q, h, now)
  {
    var n :| |p.shared.calls| <= n < |m.shared.calls| && HeadCall(p, m.shared.calls[n], h)
             && m.store.candidates[h].firstSequence == FirstKnown(p.store, h, n + 1);
    assert q.shared.calls[n] == m.shared.calls[n];
  }

  /** A forkchoice notice of another head, newer than the anchor, that is handled without an error moves the
      head there, and announces it. */
  lemma ForkchoiceActs(env: Env, p: State, g: Generation, observedAt: Time, applied: AppliedView, loads: bool,
                       now: Time)
    requires Valid(env, p) && !p.broken && observedAt > p.anchoredAt
    requires applied.head != p.store.head && ForkchoiceChanged(env, p, g, observedAt, applied, loads, now).ok
    ensures MovesHead(env, p, ForkchoiceChanged(env, p, g, observedAt, applied, loads, now).state, applied.head, now)
  {
    hide Valid, Canonical, ForkchoiceAppliedTo, Fewer, MovesHead;
    var h, moved := applied.head, Canonical(env, p, g, observedAt, applied.head, loads, now).state;
    CanonicalActs(env, p, g, observedAt, h, loads, now);
    CanonicalKeeps(env, p, g, observedAt, h, loads, now);
    CanonicalNotBroken(env, p, g, observedAt, h, loads, now);
    assert moved.(broken := false) == moved;
    assert moved.store.head == h && HeadHeld(moved.store) by { MovedTo(env, p, moved, h, now); }
    AppliedFewer(env, moved, applied);
    AppliedGrows(env, moved, applied);
    ForkchoiceAppliedHolds(env, moved, applied);
    HeadStays(env, p, moved, ForkchoiceAppliedTo(env, moved, applied).state, h, now);
  }

  lemma MovedTo(env: Env, p: State, q: State, h: Hash, now: Time)
    requires MovesHead(env, p, q, h, now)
    ensures q.store.head == h && HeadHeld(q.store)
  {
  }

  /** A head that is held needs no read; one that is neither held nor read is an error that changes nothing. */
  lemma HeadNeedsValues(env: Env, p: State, g: Generation, observedAt: Time, applied: AppliedView, now: Time)
    requires Valid(env, p) && !p.broken && observedAt > p.anchoredAt && g <= Active(p) && applied.head != p.store.head
    ensures g == Active(p) && Held(p.store, applied.head) ==>
              ForkchoiceChanged(env, p, g, observedAt, applied, false, now)
              == ForkchoiceChanged(env, p, g, observedAt, applied, true, now)
    ensures g < Active(p) || !Held(p.store, applied.head) ==>
              ForkchoiceChanged(env, p, g, observedAt, applied, false, now) == Fail(p)
  {
    hide SharedTrue, Good, AdvanceHead, ForkchoiceAppliedTo;
  }

  /** A head announced no later than the anchor, or already published, changes nothing. */
  lemma KnownHeadRests(env: Env, p: State, g: Generation, observedAt: Time, h: Hash, loads: bool, now: Time)
    requires g <= Active(p) && (observedAt <= p.anchoredAt || h == p.shared.published.canonical.block.hash)
    ensures Canonical(env, p, g, observedAt, h, loads, now) == Done(p)
  {
  }

  /** In any state at all, a held head of another dictionary or hash, or of the wrong size, is an error that changes
      nothing. */
  lemma MisshapenHeadIsRefused(env: Env, p: State, observedAt: Time, h: Hash, loads: bool, now: Time)
    requires observedAt > p.anchoredAt && h != p.shared.published.canonical.block.hash && Held(p.store, h)
    ensures var q, n := p.store.candidates[h].projection.value, env.chain.keys(Active(p));
            || q.generation != Active(p) || q.block.hash != h || |q.values| != n
            || (q.bitmap != [] && |q.bitmap| != (n + 7) / 8) ==>
              Canonical(env, p, Active(p), observedAt, h, loads, now) == Fail(p)
  {
    hide AdvanceHead;
  }
}

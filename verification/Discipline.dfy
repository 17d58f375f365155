/** The order of the frames a publisher emits: after a failed encode only a gap, after a gap or a
    new dictionary only a snapshot. */
module Discipline {
  import opened Types
  import opened Projections
  import opened Store
  import opened Finality
  import opened Wire
  import opened Publisher

  /** Where a log of publication attempts stands. `last` is the last sequence that was committed. */
  datatype Mood =
    | Fine(last: nat, generation: Generation)
    | Torn(last: nat, generation: Generation)
    | Await(last: nat, generation: Generation)

  /** The mood after attempt `n`, or nothing if the attempt is out of order. */
  function Follow(m: Mood, n: nat, call: Call): Option<Mood> {
    if call.event.Hello? then None
    else if m.Await? then
      if call.event.Snapshot? && call.encoded && call.generation == m.generation
      then Some(Fine(n, m.generation)) else None
    else if call.event.Snapshot? then None
    else if call.event.Gap? then
      if call.generation == m.generation && call.event.lastContiguous == m.last
      then Some(if call.encoded then Await(n, m.generation) else Torn(m.last, m.generation)) else None
    else if m.Torn? then None
    else if call.event.ConfigActivated? then
      if call.encoded && call.generation > m.generation then Some(Await(n, call.generation)) else None
    else if call.generation == m.generation then
      Some(if call.encoded then Fine(n, m.generation) else Torn(m.last, m.generation))
    else None
  }

  function After(g: Generation, calls: seq<Call>): Option<Mood>
    decreases |calls|
  {
    if calls == [] then Some(Fine(0, g))
    else
      var m := After(g, calls[..|calls| - 1]);
      if m.None? then None else Follow(m.value, |calls|, calls[|calls| - 1])
  }

  /** The handshake state the frames of a log leave: that of the last state-changing one. */
  function StateAfter(first: Published, calls: seq<Call>): Published
    decreases |calls|
  {
    if calls == [] then first
    else
      var call := calls[|calls| - 1];
      if call.encoded && call.next.Some? then call.next.value else StateAfter(first, calls[..|calls| - 1])
  }

  function CommittedAfter(calls: seq<Call>): nat
    decreases |calls|
  {
    if calls == [] then 0
    else if calls[|calls| - 1].encoded then |calls|
    else CommittedAfter(calls[..|calls| - 1])
  }

  /** A state-changing attempt tags its state with its own sequence and generation, and only a gap
      leaves the stream in recovery. A new dictionary always changes the state. */
  predicate Tagged(n: nat, call: Call) {
    && (call.next.Some? ==>
          && call.next.value.effectiveSequence == n
          && call.next.value.canonical.generation == call.generation
          && (call.next.value.recovering <==> call.event.Gap?))
    && (call.event.ConfigActivated? ==> call.next.Some?)
  }

  ghost predicate Logged(first: Published, sh: Shared) {
    && sh.published == StateAfter(first, sh.calls)
    && sh.committed == CommittedAfter(sh.calls)
    && (forall i :: 0 <= i < |sh.calls| ==> Tagged(i + 1, sh.calls[i]))
  }

  ghost predicate Standing(first: Published, sh: Shared, m: Mood) {
    && After(first.canonical.generation, sh.calls) == Some(m)
    && m.last == sh.committed
    && m.generation == sh.published.canonical.generation
  }

  /** A log in order. While no error is pending its mood is fine; the published state says that it is
      recovering exactly while a snapshot is owed. */
  ghost predicate Orderly(first: Published, sh: Shared, broken: bool) {
    && Logged(first, sh)
    && exists m :: Standing(first, sh, m) && (sh.published.recovering <==> m.Await?) && (broken || m.Fine?)
  }

  ghost predicate Ends(first: Published, o: Outcome) { Orderly(first, o.state.shared, !o.ok) }

  // ----- One attempt -----

  lemma PublishLogged(first: Published, encodes: nat -> bool, sh: Shared, g: Generation, event: Event,
                      next: Option<NextState>)
    requires Logged(first, sh)
    requires next.Some? ==> next.value.canonical.generation == g && (next.value.recovering <==> event.Gap?)
    requires event.ConfigActivated? ==> next.Some?
    ensures Logged(first, Publish(encodes, sh, g, event, next).shared)
  {
    hide StateAfter, CommittedAfter, Tagged;
    var r := Publish(encodes, sh, g, event, next).shared;
    var call := r.calls[|sh.calls|];
    assert r.calls == sh.calls + [call];
    OneCall(first, sh.calls, call);
    assert Tagged(|sh.calls| + 1, call) by { NewTag(call, |sh.calls| + 1); }
  }

  lemma NewTag(call: Call, n: nat)
    requires call.next.Some? ==>
               && call.next.value.effectiveSequence == n && call.next.value.canonical.generation == call.generation
               && (call.next.value.recovering <==> call.event.Gap?)
    requires call.event.ConfigActivated? ==> call.next.Some?
    ensures Tagged(n, call)
  {
  }

  /** What one more call does to the state and the committed sequence a log leaves. */
  lemma OneCall(first: Published, calls: seq<Call>, call: Call)
    ensures var more := calls + [call];
            && StateAfter(first, more)
               == (if call.encoded && call.next.Some? then call.next.value else StateAfter(first, calls))
            && CommittedAfter(more) == (if call.encoded then |more| else CommittedAfter(calls))
  {
    assert (calls + [call])[..|calls|] == calls;
  }

  lemma PublishFollows(first: Published, encodes: nat -> bool, sh: Shared, m: Mood, g: Generation, event: Event,
                       next: Option<NextState>)
    requires Standing(first, sh, m)
    ensures var r := Publish(encodes, sh, g, event, next).shared;
            After(first.canonical.generation, r.calls) == Follow(m, |sh.calls| + 1, r.calls[|sh.calls|])
  {
    var r := Publish(encodes, sh, g, event, next).shared;
    assert r.calls[..|r.calls| - 1] == sh.calls;
  }

  /** An ordinary frame keeps a log orderly; if it does not encode, an error is pending. */
  lemma PlainOrderly(first: Published, encodes: nat -> bool, sh: Shared, g: Generation, event: Event,
                     next: Option<NextState>)
    requires Orderly(first, sh, false) && g == sh.published.canonical.generation
    requires !event.Hello? && !event.Gap? && !Preflighted(event)
    requires next.Some? ==> next.value.canonical.generation == g && !next.value.recovering
    ensures var sent := Publish(encodes, sh, g, event, next); Orderly(first, sent.shared, !sent.ok)
  {
    hide Logged, After;
    PublishLogged(first, encodes, sh, g, event, next);
    var m :| Standing(first, sh, m) && m.Fine?;
    PublishFollows(first, encodes, sh, m, g, event, next);
    var sent := Publish(encodes, sh, g, event, next);
    assert Standing(first, sent.shared, if sent.ok then Fine(|sh.calls| + 1, g) else Torn(m.last, g));
  }

  /** A gap may follow anything that owes no snapshot, and leaves one owed. */
  lemma GapOrderly(first: Published, env: Env, p: State)
    requires Orderly(first, p.shared, true) && !p.shared.published.recovering
    ensures var o := AnnounceGap(env, p);
            Orderly(first, o.state.shared, true) && (o.state.shared.published.recovering <==> o.ok)
  {
    hide Logged, After;
    var sh, g, next := p.shared, Active(p), Some(NextState(p.shared.published.canonical, None, true));
    PublishLogged(first, env.encodes, sh, g, Gap(sh.committed), next);
    var m :| Standing(first, sh, m) && !m.Await?;
    PublishFollows(first, env.encodes, sh, m, g, Gap(sh.committed), next);
    var sent := Publish(env.encodes, sh, g, Gap(sh.committed), next);
    assert Standing(first, sent.shared, if sent.ok then Await(|sh.calls| + 1, g) else Torn(m.last, g));
  }

  /** A re-anchor, once the gap is announced, publishes the owed snapshot or nothing. */
  lemma ReanchorOrderly(first: Published, env: Env, p: State, load: Load, now: Time)
    requires Orderly(first, p.shared, true) && p.shared.published.recovering
    ensures Ends(first, Reanchor(env, p, load, now))
  {
    hide Logged, After, Reset;
    if Coheres(env, load) {
      var sh, g, projection := p.shared, Active(p), LoadAt(env, Active(p), load.head);
      var next := Some(NextState(projection, Some(load.view), false));
      PublishLogged(first, env.encodes, sh, g, Snapshot(projection, load.view), next);
      var m :| Standing(first, sh, m) && m.Await?;
      PublishFollows(first, env.encodes, sh, m, g, Snapshot(projection, load.view), next);
      assert Standing(first, Publish(env.encodes, sh, g, Snapshot(projection, load.view), next).shared,
                      Fine(|sh.calls| + 1, g));
    }
  }

  /** A dictionary is followed at once by its snapshot. */
  lemma ActivateOrderly(first: Published, env: Env, p: State, g: Generation, load: Load, now: Time)
    requires Orderly(first, p.shared, false)
    ensures Ends(first, Activate(env, p, g, load, now))
  {
    hide Logged, After, Reset;
    if g > Active(p) && Coheres(env, load) {
      var sh, projection := p.shared, LoadAt(env, g, load.head);
      var next := Some(NextState(projection, Some(load.view), false));
      var m :| Standing(first, sh, m) && m.Fine?;
      PublishLogged(first, env.encodes, sh, g, ConfigActivated(env.chain.keys(g)), next);
      PublishFollows(first, env.encodes, sh, m, g, ConfigActivated(env.chain.keys(g)), next);
      var config := Publish(env.encodes, sh, g, ConfigActivated(env.chain.keys(g)), next).shared;
      assert Standing(first, config, Await(|sh.calls| + 1, g));
      PublishLogged(first, env.encodes, config, g, Snapshot(projection, load.view), None);
      PublishFollows(first, env.encodes, config, Await(|sh.calls| + 1, g), g, Snapshot(projection, load.view), None);
      assert Standing(first, Publish(env.encodes, config, g, Snapshot(projection, load.view), None).shared,
                      Fine(|sh.calls| + 2, g));
    }
  }

  // ----- Handlers -----

  lemma BrokenOrderly(first: Published, sh: Shared)
    requires Orderly(first, sh, false)
    ensures Orderly(first, sh, true)
  {
  }

  lemma {:induction false} RetiredOrderly(first: Published, encodes: nat -> bool, batch: nat, sh: Shared, g: Generation,
                                          hashes: seq<Hash>, reason: Reason)
    requires Orderly(first, sh, false) && g == sh.published.canonical.generation
    ensures var sent := PublishRetired(encodes, batch, sh, g, hashes, reason);
            Orderly(first, sent.shared, !sent.ok) && sent.shared.published == sh.published
    decreases |hashes|
  {
    hide Orderly;
    if hashes != [] {
      var n := if batch == 0 then 1 else if batch < |hashes| then batch else |hashes|;
      PlainOrderly(first, encodes, sh, g, CandidatesRetired(hashes[..n], reason), None);
      var sent := Publish(encodes, sh, g, CandidatesRetired(hashes[..n], reason), None);
      if sent.ok {
        RetiredOrderly(first, encodes, batch, sent.shared, g, hashes[n..], reason);
      }
    }
  }

  lemma EnforceOrderly(first: Published, env: Env, p: State, g: Generation, trim: Trim)
    requires Orderly(first, p.shared, false) && g == Active(p)
    ensures var o := Enforce(env, p, g, trim);
            Ends(first, o) && o.state.shared.published == p.shared.published
  {
    hide Orderly, PublishRetired;
    BrokenOrderly(first, p.shared);
    RetiredOrderly(first, env.encodes, env.batch, p.shared, g, trim.retired, CacheEvicted);
  }

  lemma InsertOrderly(first: Published, env: Env, p: State, projection: Projection, stage: Stage, firstSequence: nat,
                      now: Time)
    requires Orderly(first, p.shared, false) && projection.generation == Active(p)
    ensures var o := InsertCandidate(env, p, projection, stage, firstSequence, now);
            Ends(first, o) && o.state.shared.published == p.shared.published
  {
    hide Orderly, Enforce, PutProjection, TrimProjections, TrimMetadata;
    var put := PutProjection(p.store, projection, stage, firstSequence, now);
    EnforceOrderly(first, env, p.(store := put), projection.generation, TrimProjections(put));
    var cached := Enforce(env, p.(store := put), projection.generation, TrimProjections(put));
    if cached.ok {
      EnforceOrderly(first, env, cached.state, projection.generation, TrimMetadata(cached.state.store));
    }
  }

  lemma DeferOrderly(first: Published, env: Env, p: State, block: BlockMeta, changes: seq<SlotChange>, now: Time)
    requires Orderly(first, p.shared, false)
    ensures Ends(first, InsertDeferred(env, p, block, changes, now))
  {
    hide Orderly, Enforce, PutDeferred, TrimMetadata;
    var put := PutDeferred(p.store, block, changes, now);
    EnforceOrderly(first, env, p.(store := put), Active(p), TrimMetadata(put));
  }

  lemma CandidateOrderly(first: Published, env: Env, p: State, g: Generation, block: BlockMeta, values: seq<Word>,
                         changes: seq<SlotChange>, stage: Stage, now: Time)
    requires Orderly(first, p.shared, false) && g == Active(p)
    ensures Ends(first, PublishCandidate(env, p, g, block, values, changes, stage, now))
  {
    hide Orderly, InsertCandidate, ApplyDelta;
    BrokenOrderly(first, p.shared);
    var delta := ApplyDelta(values, changes);
    if delta.Delta? {
      var projection := Projection(block, g, delta.values, delta.bitmap);
      PlainOrderly(first, env.encodes, p.shared, g, BlockState(projection, stage), None);
      var sent := Send(env, p, g, BlockState(projection, stage), None);
      if sent.ok {
        InsertOrderly(first, env, sent.state, projection, stage, |sent.state.shared.calls|, now);
      }
    }
  }

  lemma PromoteOrderly(first: Published, env: Env, p: State, g: Generation, h: Hash)
    requires Orderly(first, p.shared, false) && g == Active(p) && h in p.store.candidates
    ensures Ends(first, PromoteKnown(env, p, g, h))
  {
    hide Orderly, Publish;
    PlainOrderly(first, env.encodes, p.shared, g, BlockValidated(h), None);
  }

  lemma ProjectOrderly(first: Published, env: Env, p: State, g: Generation, block: BlockMeta, changes: seq<SlotChange>,
                       stage: Stage, loads: bool, now: Time)
    requires Orderly(first, p.shared, false)
    ensures Ends(first, ProjectCandidate(env, p, g, block, changes, stage, loads, now))
  {
    hide Orderly, PublishCandidate, InsertDeferred, PromoteKnown, ParentValues;
    BrokenOrderly(first, p.shared);
    if g == Active(p) {
      if Held(p.store, block.hash) {
        PromoteOrderly(first, env, p, g, block.hash);
      }
      DeferOrderly(first, env, p, block, changes, now);
      var base := ParentValues(env, p, g, block, stage, loads);
      if base.Values? {
        CandidateOrderly(first, env, p, g, block, base.values, changes, stage, now);
      }
    }
  }

  lemma ValidatedOrderly(first: Published, env: Env, p: State, g: Generation, h: Hash, loads: bool, now: Time)
    requires Orderly(first, p.shared, false)
    ensures Ends(first, PromoteValidated(env, p, g, h, loads, now))
  {
    hide Orderly, ProjectCandidate, PromoteKnown;
    BrokenOrderly(first, p.shared);
    if g == Active(p) {
      if h in p.store.candidates {
        PromoteOrderly(first, env, p, g, h);
      } else if h in p.store.deferred {
        ProjectOrderly(first, env, p, g, p.store.deferred[h].block, p.store.deferred[h].changes, Validated, loads, now);
      }
    }
  }

  lemma RejectedOrderly(first: Published, env: Env, p: State, g: Generation, h: Hash)
    requires Orderly(first, p.shared, false)
    ensures Ends(first, Rejected(env, p, g, h))
  {
    hide Orderly, Publish, RemoveCandidateTree;
    BrokenOrderly(first, p.shared);
    if g == Active(p) {
      PlainOrderly(first, env.encodes, p.shared, g, BlockRejected(h), None);
    }
  }

  lemma CanonicalOrderly(first: Published, env: Env, p: State, g: Generation, observedAt: Time, h: Hash, loads: bool,
                         now: Time)
    requires Orderly(first, p.shared, false)
    ensures Ends(first, Canonical(env, p, g, observedAt, h, loads, now))
  {
    hide Orderly, InsertCandidate, Publish, ScheduleExpiry, NoteFirstSequence, CanonicalBitmap, HeadProjection,
         WellShaped;
    BrokenOrderly(first, p.shared);
    var head := HeadProjection(env, p, g, h, loads);
    if head.Some? && head.value.generation == Active(p) {
      var changed := CanonicalBitmap(p.shared.published.canonical, head.value);
      InsertOrderly(first, env, p, head.value, Validated, 0, now);
      var inserted := InsertCandidate(env, p, head.value, Validated, 0, now);
      if inserted.ok && changed.Some? {
        PlainOrderly(first, env.encodes, inserted.state.shared, head.value.generation,
                     CanonicalHead(p.store.head, head.value, changed.value), Some(NextState(head.value, None, false)));
      }
    }
  }

  lemma FinalizedOrderly(first: Published, env: Env, p: State, finalized: Option<Checkpoint>)
    requires Orderly(first, p.shared, false)
    ensures Ends(first, NoteFinalized(env, p, Active(p), finalized))
  {
    hide Orderly, ProcessFinality, BeginSweep, PublishRetired;
    if finalized.Some? {
      var slice := ProcessFinality(BeginSweep(p.store, finalized.value), p.store.limits.budget);
      RetiredOrderly(first, env.encodes, env.batch, p.shared, Active(p), slice.retired, FinalizedConflict);
    }
  }

  lemma AppliedOrderly(first: Published, env: Env, p: State, applied: AppliedView)
    requires Orderly(first, p.shared, false)
    ensures Ends(first, ForkchoiceAppliedTo(env, p, applied))
  {
    hide Orderly, NoteFinalized, Resolve;
    BrokenOrderly(first, p.shared);
    var canonical := p.shared.published.canonical;
    var view := Resolve(applied, canonical.block.number);
    var next := Some(NextState(canonical, Some(view), false));
    PlainOrderly(first, env.encodes, p.shared, canonical.generation, ForkchoiceApplied(view), next);
    var sent := Send(env, p, canonical.generation, ForkchoiceApplied(view), next);
    if sent.ok {
      FinalizedOrderly(first, env, sent.state, view.finalized);
    }
  }

  lemma ForkchoiceOrderly(first: Published, env: Env, p: State, g: Generation, observedAt: Time, applied: AppliedView,
                          loads: bool, now: Time)
    requires Orderly(first, p.shared, false)
    ensures Ends(first, ForkchoiceChanged(env, p, g, observedAt, applied, loads, now))
  {
    hide Orderly, Canonical, ForkchoiceAppliedTo;
    BrokenOrderly(first, p.shared);
    AppliedOrderly(first, env, p, applied);
    CanonicalOrderly(first, env, p, g, observedAt, applied.head, loads, now);
    var moved := Canonical(env, p, g, observedAt, applied.head, loads, now);
    if moved.ok {
      AppliedOrderly(first, env, moved.state, applied);
    }
  }

  lemma AttemptOrderly(first: Published, env: Env, p: State, load: Load, now: Time)
    requires Orderly(first, p.shared, true)
    ensures Ends(first, Attempt(env, p, load, now))
  {
    hide Orderly, AnnounceGap, Reanchor;
    if p.shared.published.recovering {
      ReanchorOrderly(first, env, p, load, now);
    } else {
      GapOrderly(first, env, p);
      var gap := AnnounceGap(env, p);
      if gap.ok {
        ReanchorOrderly(first, env, gap.state, load, now);
      }
    }
  }

  lemma StateResetOrderly(first: Published, env: Env, p: State, g: Generation, observedAt: Time, load: Load, now: Time)
    requires Orderly(first, p.shared, false)
    ensures Ends(first, ResetCanonicalState(env, p, g, observedAt, load, now))
  {
    hide AnnounceGap, Reanchor, Logged;
    BrokenOrderly(first, p.shared);
    AttemptOrderly(first, env, p, load, now);
  }

  lemma MaintainOrderly(first: Published, env: Env, p: State, due: seq<Hash>, now: Time)
    requires Orderly(first, p.shared, false)
    ensures Ends(first, Maintain(env, p, due, now))
  {
    hide Orderly, ProcessFinality, PublishRetired, RemoveAll, Due;
    var slice := ProcessFinality(p.store, p.store.limits.budget);
    RetiredOrderly(first, env.encodes, env.batch, p.shared, Active(p), slice.retired, FinalizedConflict);
    var swept := SendRetired(env, p.(store := slice.store), Active(p), slice.retired, FinalizedConflict);
    if swept.ok {
      var expired := RemoveAll(slice.store, due).1;
      RetiredOrderly(first, env.encodes, env.batch, swept.state.shared, Active(p), expired, RetentionExpired);
    }
  }

  // ----- Runs -----

  lemma HandleOrderly(first: Published, env: Env, p: State, cmd: Command, now: Time)
    requires Orderly(first, p.shared, false)
    ensures Ends(first, Handle(env, p, cmd, now))
  {
    hide Orderly, ProjectCandidate, PromoteValidated, ForkchoiceChanged, Rejected, Activate, Maintain,
         ResetCanonicalState;
    BrokenOrderly(first, p.shared);
    match cmd
    case OnExecuted(at, g, block, changes) => ProjectOrderly(first, env, p, g, block, changes, Executed, false, now);
    case OnValidated(g, h, loads) => ValidatedOrderly(first, env, p, g, h, loads, now);
    case OnValidatedFallback(at, g, block, changes, loads) =>
      ProjectOrderly(first, env, p, g, block, changes, Validated, loads, now);
    case OnStateReset(at, g, load) => StateResetOrderly(first, env, p, g, at, load, now);
    case OnForkchoice(at, g, applied, loads) => ForkchoiceOrderly(first, env, p, g, at, applied, loads, now);
    case OnRejected(g, h) => RejectedOrderly(first, env, p, g, h);
    case OnActivate(g, load) => ActivateOrderly(first, env, p, g, load, now);
    case OnTick(due) => MaintainOrderly(first, env, p, due, now);
    case OnLoss =>
    case OnRetry(_) =>
  }

  lemma {:induction false} RunOrderly(first: Published, env: Env, p: State, turns: seq<Turn>)
    requires Orderly(first, p.shared, p.broken)
    ensures var r := Run(env, p, turns); Orderly(first, r.shared, r.broken)
    decreases |turns|
  {
    hide Orderly, Handle, Attempt;
    if turns != [] {
      if p.broken {
        if turns[0].command.OnRetry? {
          AttemptOrderly(first, env, p, turns[0].command.load, turns[0].now);
        }
      } else {
        HandleOrderly(first, env, p, turns[0].command, turns[0].now);
      }
      RunOrderly(first, env, Step(env, p, turns[0].command, turns[0].now), turns[1..]);
    }
  }

  /** Every run's log is in order: a hole left by a failed encode is followed by a gap that names the
      last committed sequence, every gap and every dictionary is followed at once by its snapshot,
      and the state handed to new consumers is the one the committed frames leave. */
  lemma EveryRunIsOrderly(env: Env, limits: Limits, g: Generation, load: Load, now: Time, turns: seq<Turn>)
    requires load.Loaded?
    ensures var start := Start(env, limits, g, load, now);
            var p := Run(env, start, turns);
            Orderly(start.shared.published, p.shared, p.broken)
  {
    hide Run, Anchored;
    var start := Start(env, limits, g, load, now);
    assert Standing(start.shared.published, start.shared, Fine(0, g));
    RunOrderly(start.shared.published, env, start, turns);
  }
}

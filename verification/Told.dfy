/** What live frames tell is what a new consumer is handed. */
module Told {
  import opened Types
  import opened Chain
  import opened Projections
  import opened Store
  import opened StoreInvariants
  import opened Finality
  import opened Wire
  import opened Publisher
  import opened PublisherInvariants
  import opened Discipline
  import opened Stream
  import opened Handshake

  /** What a consumer that has been told `t` makes of the next frame: its contents, unless they do not fit what
      came before. A dictionary says nothing yet; its snapshot follows. */
  function Tell(t: NextState, event: Event): Option<NextState> {
    match event
    case Snapshot(projection, view) => Some(NextState(projection, Some(view), false))
    case CanonicalHead(previous, projection, _) =>
      if previous == t.canonical.block.hash && !t.recovering then Some(NextState(projection, None, false)) else None
    case ForkchoiceApplied(view) =>
      if view.head == Checkpoint(t.canonical.block.number, t.canonical.block.hash) && !t.recovering
      then Some(t.(forkchoice := Some(view))) else None
    case Gap(_) => Some(NextState(t.canonical, None, true))
    case _ => Some(t)
  }

  function TellAll(t: NextState, frames: seq<Frame>): Option<NextState>
    decreases |frames|
  {
    if frames == [] then Some(t)
    else
      var before := TellAll(t, frames[..|frames| - 1]);
      if before.None? then None else Tell(before.value, frames[|frames| - 1].event)
  }

  function Handed(state: Published): NextState { NextState(state.canonical, state.forkchoice, state.recovering) }

  /** The attempt, if it encoded and is not a dictionary, tells the state after it to whoever knew the one before. */
  ghost predicate CallTells(first: Published, calls: seq<Call>, k: nat)
    requires k < |calls|
  {
    calls[k].encoded && !calls[k].event.ConfigActivated? ==>
      Tell(Handed(StateAfter(first, calls[..k])), calls[k].event) == Some(Handed(StateAfter(first, calls[..k + 1])))
  }

  ghost predicate UpToDate(first: Published, sh: Shared) {
    sh.published == StateAfter(first, sh.calls) && forall k: nat :: k < |sh.calls| ==> CallTells(first, sh.calls, k)
  }

  // ----- Frames -----

  /** A frame that tells what it installs keeps consumers up to date. */
  lemma SendTold(first: Published, env: Env, p: State, g: Generation, event: Event, next: Option<NextState>)
    requires UpToDate(first, p.shared)
    requires var t := Handed(p.shared.published);
             event.ConfigActivated? || Tell(t, event) == Some(if next.Some? then next.value else t)
    ensures UpToDate(first, Send(env, p, g, event, next).state.shared)
  {
    hide StateAfter;
    var sh := p.shared;
    var r := Send(env, p, g, event, next).state.shared;
    var n := |sh.calls|;
    OneCall(first, sh.calls, r.calls[n]);
    assert r.calls == sh.calls + [r.calls[n]] && r.calls[..n] == sh.calls && r.calls[..n + 1] == r.calls;
    forall k: nat | k < |r.calls|
      ensures CallTells(first, r.calls, k)
    {
      if k < n {
        assert CallTells(first, sh.calls, k);
        assert r.calls[..k] == sh.calls[..k] && r.calls[..k + 1] == sh.calls[..k + 1];
      }
    }
  }

  lemma {:induction false} RetiredTold(first: Published, env: Env, p: State, g: Generation, hashes: seq<Hash>,
                                       reason: Reason)
    requires UpToDate(first, p.shared)
    ensures UpToDate(first, SendRetired(env, p, g, hashes, reason).state.shared)
    ensures SendRetired(env, p, g, hashes, reason).state.shared.published == p.shared.published
    decreases |hashes|
  {
    hide UpToDate;
    if hashes != [] {
      var n := if env.batch == 0 then 1 else if env.batch < |hashes| then env.batch else |hashes|;
      SendTold(first, env, p, g, CandidatesRetired(hashes[..n], reason), None);
      RetiredTold(first, env, Send(env, p, g, CandidatesRetired(hashes[..n], reason), None).state, g, hashes[n..],
                  reason);
    }
  }

  lemma InsertTold(first: Published, env: Env, p: State, projection: Projection, stage: Stage, firstSequence: nat,
                   now: Time)
    requires UpToDate(first, p.shared)
    ensures var sh := InsertCandidate(env, p, projection, stage, firstSequence, now).state.shared;
            UpToDate(first, sh) && sh.published == p.shared.published
  {
    hide UpToDate, PutProjection, TrimProjections, TrimMetadata, SendRetired;
    var g, put := projection.generation, PutProjection(p.store, projection, stage, firstSequence, now);
    var trim := TrimProjections(put);
    RetiredTold(first, env, p.(store := put).(store := trim.store), g, trim.retired, CacheEvicted);
    var cached := Enforce(env, p.(store := put), g, trim).state;
    var more := TrimMetadata(cached.store);
    RetiredTold(first, env, cached.(store := more.store), g, more.retired, CacheEvicted);
  }

  // ----- Handlers -----

  lemma ProjectTold(first: Published, env: Env, p: State, g: Generation, block: BlockMeta, changes: seq<SlotChange>,
                    stage: Stage, loads: bool, now: Time)
    requires UpToDate(first, p.shared)
    ensures UpToDate(first, ProjectCandidate(env, p, g, block, changes, stage, loads, now).state.shared)
  {
    hide UpToDate, InsertCandidate, ParentValues, ApplyDelta, Send, SendRetired, PutDeferred, TrimMetadata;
    SendTold(first, env, p, g, BlockValidated(block.hash), None);
    var put := PutDeferred(p.store, block, changes, now);
    var trim := TrimMetadata(put);
    RetiredTold(first, env, p.(store := put).(store := trim.store), Active(p), trim.retired, CacheEvicted);
    var base := ParentValues(env, p, g, block, stage, loads);
    if base.Values? {
      var delta := ApplyDelta(base.values, changes);
      if delta.Delta? {
        var projection := Projection(block, g, delta.values, delta.bitmap);
        SendTold(first, env, p, g, BlockState(projection, stage), None);
        var sent := Send(env, p, g, BlockState(projection, stage), None).state;
        InsertTold(first, env, sent, projection, stage, |sent.shared.calls|, now);
      }
    }
  }

  lemma ValidatedTold(first: Published, env: Env, p: State, g: Generation, h: Hash, loads: bool, now: Time)
    requires UpToDate(first, p.shared)
    ensures UpToDate(first, PromoteValidated(env, p, g, h, loads, now).state.shared)
  {
    hide UpToDate, ProjectCandidate, Send;
    SendTold(first, env, p, g, BlockValidated(h), None);
    if h in p.store.deferred {
      ProjectTold(first, env, p, g, p.store.deferred[h].block, p.store.deferred[h].changes, Validated, loads, now);
    }
  }

  lemma RejectedTold(first: Published, env: Env, p: State, g: Generation, h: Hash)
    requires UpToDate(first, p.shared)
    ensures UpToDate(first, Rejected(env, p, g, h).state.shared)
  {
    hide UpToDate, RemoveCandidateTree;
    SendTold(first, env, p, g, BlockRejected(h), None);
  }

  lemma CanonicalTold(first: Published, env: Env, p: State, g: Generation, observedAt: Time, h: Hash, loads: bool,
                      now: Time)
    requires UpToDate(first, p.shared) && p.store.head == p.shared.published.canonical.block.hash
    requires !p.shared.published.recovering
    ensures var o := Canonical(env, p, g, observedAt, h, loads, now);
            UpToDate(first, o.state.shared) && !o.state.shared.published.recovering
  {
    hide UpToDate, InsertCandidate, ScheduleExpiry, NoteFirstSequence, CanonicalBitmap, HeadProjection, WellShaped;
    var head := HeadProjection(env, p, g, h, loads);
    if head.Some? {
      InsertTold(first, env, p, head.value, Validated, 0, now);
      var inserted := InsertCandidate(env, p, head.value, Validated, 0, now).state;
      var changed := CanonicalBitmap(p.shared.published.canonical, head.value);
      if changed.Some? {
        SendTold(first, env, inserted, head.value.generation, CanonicalHead(p.store.head, head.value, changed.value),
                 Some(NextState(head.value, None, false)));
      }
    }
  }

  lemma AppliedTold(first: Published, env: Env, p: State, applied: AppliedView)
    requires UpToDate(first, p.shared) && !p.shared.published.recovering
    ensures UpToDate(first, ForkchoiceAppliedTo(env, p, applied).state.shared)
  {
    hide UpToDate, ProcessFinality, SendRetired, BeginSweep;
    var canonical := p.shared.published.canonical;
    var view := Resolve(applied, canonical.block.number);
    if canonical.block.hash == applied.head {
      SendTold(first, env, p, canonical.generation, ForkchoiceApplied(view),
               Some(NextState(canonical, Some(view), false)));
      var sent := Send(env, p, canonical.generation, ForkchoiceApplied(view),
                       Some(NextState(canonical, Some(view), false))).state;
      if view.finalized.Some? {
        var slice := ProcessFinality(BeginSweep(sent.store, view.finalized.value), sent.store.limits.budget);
        RetiredTold(first, env, sent.(store := slice.store), canonical.generation, slice.retired, FinalizedConflict);
      }
    }
  }

  lemma ForkchoiceTold(first: Published, env: Env, p: State, g: Generation, observedAt: Time, applied: AppliedView,
                       loads: bool, now: Time)
    requires UpToDate(first, p.shared) && p.store.head == p.shared.published.canonical.block.hash
    requires !p.shared.published.recovering
    ensures UpToDate(first, ForkchoiceChanged(env, p, g, observedAt, applied, loads, now).state.shared)
  {
    hide UpToDate, Canonical, ForkchoiceAppliedTo;
    AppliedTold(first, env, p, applied);
    CanonicalTold(first, env, p, g, observedAt, applied.head, loads, now);
    AppliedTold(first, env, Canonical(env, p, g, observedAt, applied.head, loads, now).state, applied);
  }

  lemma AttemptTold(first: Published, env: Env, p: State, load: Load, now: Time)
    requires UpToDate(first, p.shared)
    ensures UpToDate(first, Attempt(env, p, load, now).state.shared)
    ensures var gap := AnnounceGap(env, p);
            UpToDate(first, gap.state.shared) && UpToDate(first, Reanchor(env, gap.state, load, now).state.shared)
  {
    hide UpToDate, AnnounceGap, Reanchor;
    GapTold(first, env, p);
    ReanchorTold(first, env, p, load, now);
    ReanchorTold(first, env, AnnounceGap(env, p).state, load, now);
  }

  lemma GapTold(first: Published, env: Env, p: State)
    requires UpToDate(first, p.shared)
    ensures UpToDate(first, AnnounceGap(env, p).state.shared)
  {
    hide UpToDate;
    SendTold(first, env, p, Active(p), Gap(p.shared.committed),
             Some(NextState(p.shared.published.canonical, None, true)));
  }

  lemma ReanchorTold(first: Published, env: Env, p: State, load: Load, now: Time)
    requires UpToDate(first, p.shared)
    ensures UpToDate(first, Reanchor(env, p, load, now).state.shared)
  {
    hide UpToDate, Reset;
    if Coheres(env, load) {
      var projection := LoadAt(env, Active(p), load.head);
      var reset := p.(store := Reset(p.store, projection, load.view.finalized, now), anchoredAt := load.anchoredAt);
      SendTold(first, env, reset, Active(p), Snapshot(projection, load.view),
               Some(NextState(projection, Some(load.view), false)));
    }
  }

  lemma ActivateTold(first: Published, env: Env, p: State, g: Generation, load: Load, now: Time)
    requires UpToDate(first, p.shared)
    ensures UpToDate(first, Activate(env, p, g, load, now).state.shared)
  {
    hide UpToDate, Reset;
    if g > Active(p) && Coheres(env, load) {
      var projection := LoadAt(env, g, load.head);
      var next := Some(NextState(projection, Some(load.view), false));
      var reset := p.(store := Reset(p.store, projection, load.view.finalized, now), anchoredAt := load.anchoredAt);
      SendTold(first, env, reset, g, ConfigActivated(env.chain.keys(g)), next);
      SendTold(first, env, Send(env, reset, g, ConfigActivated(env.chain.keys(g)), next).state, g,
               Snapshot(projection, load.view), None);
    }
  }

  lemma MaintainTold(first: Published, env: Env, p: State, due: seq<Hash>, now: Time)
    requires UpToDate(first, p.shared)
    ensures UpToDate(first, Maintain(env, p, due, now).state.shared)
  {
    hide UpToDate, ProcessFinality, SendRetired, RemoveAll, Due;
    var slice := ProcessFinality(p.store, p.store.limits.budget);
    RetiredTold(first, env, p.(store := slice.store), Active(p), slice.retired, FinalizedConflict);
    var swept := SendRetired(env, p.(store := slice.store), Active(p), slice.retired, FinalizedConflict).state;
    var (s, expired) := RemoveAll(slice.store, due);
    RetiredTold(first, env, swept.(store := s), Active(p), expired, RetentionExpired);
  }

  // ----- Runs -----

  lemma HandleTold(first: Published, env: Env, p: State, cmd: Command, now: Time)
    requires Valid(env, p) && !p.broken && UpToDate(first, p.shared)
    ensures UpToDate(first, Handle(env, p, cmd, now).state.shared)
  {
    hide SharedTrue, Inv, UpToDate, ProjectCandidate, PromoteValidated, ForkchoiceChanged, Rejected, Activate, Maintain,
         AnnounceGap, Reanchor;
    match cmd
    case OnExecuted(_, g, block, changes) => ProjectTold(first, env, p, g, block, changes, Executed, false, now);
    case OnValidated(g, h, loads) => ValidatedTold(first, env, p, g, h, loads, now);
    case OnValidatedFallback(_, g, block, changes, loads) =>
      ProjectTold(first, env, p, g, block, changes, Validated, loads, now);
    case OnStateReset(_, g, load) => AttemptTold(first, env, p, load, now);
    case OnForkchoice(at, g, applied, loads) => ForkchoiceTold(first, env, p, g, at, applied, loads, now);
    case OnRejected(g, h) => RejectedTold(first, env, p, g, h);
    case OnActivate(g, load) => ActivateTold(first, env, p, g, load, now);
    case OnTick(due) => MaintainTold(first, env, p, due, now);
    case OnLoss =>
    case OnRetry(_) =>
  }

  lemma {:induction false} RunTold(first: Published, env: Env, p: State, turns: seq<Turn>)
    requires Valid(env, p) && TurnsTrue(env, turns) && UpToDate(first, p.shared)
    ensures UpToDate(first, Run(env, p, turns).shared)
    decreases |turns|
  {
    hide Valid, UpToDate, Handle, Attempt, CommandTrue;
    if turns != [] {
      var cmd, now := turns[0].command, turns[0].now;
      StepKeeps(env, p, cmd, now);
      if p.broken {
        if cmd.OnRetry? {
          AttemptTold(first, env, p, cmd.load, now);
        }
      } else {
        HandleTold(first, env, p, cmd, now);
      }
      RunTold(first, env, Step(env, p, cmd, now), turns[1..]);
    }
  }

  // ----- Consumers -----

  /** A dictionary is followed at once by its snapshot. */
  ghost predicate SnapshotsFollow(calls: seq<Call>) {
    forall n: nat :: n < |calls| && Dictionary(calls, n) ==> calls[n].encoded && calls[n].event.Snapshot?
  }

  /** The n-th attempt published a dictionary. */
  predicate Dictionary(calls: seq<Call>, n: nat) {
    0 < n <= |calls| && calls[n - 1].encoded && calls[n - 1].event.ConfigActivated?
  }

  lemma OrderlyFollows(g: Generation, calls: seq<Call>)
    requires After(g, calls).Some?
    ensures SnapshotsFollow(calls)
  {
    hide After;
    forall n: nat | n < |calls| && Dictionary(calls, n)
      ensures calls[n].encoded && calls[n].event.Snapshot?
    {
      PrefixMood(g, calls, n - 1);
      PrefixMood(g, calls, n);
      PrefixMood(g, calls, n + 1);
      MoodStep(g, calls, n - 1);
      MoodStep(g, calls, n);
    }
  }

  lemma MoodStep(g: Generation, calls: seq<Call>, k: nat)
    requires k < |calls| && After(g, calls[..k]).Some?
    ensures After(g, calls[..k + 1]) == Follow(After(g, calls[..k]).value, k + 1, calls[k])
  {
    assert calls[..k + 1][..k] == calls[..k];
  }

  /** Frames are told one after the other. */
  lemma TellOneMore(t: NextState, frames: seq<Frame>, f: Frame)
    ensures var before := TellAll(t, frames);
            TellAll(t, frames + [f]) == if before.None? then None else Tell(before.value, f.event)
  {
    assert (frames + [f])[..|frames|] == frames;
  }

  /** What was emitted between two points tells the state at the second to whoever knew that at the first, unless
      the last attempt was a dictionary. */
  lemma {:induction false} EmittedTells(first: Published, calls: seq<Call>, b: nat, n: nat)
    requires b <= n <= |calls| && SnapshotsFollow(calls)
    requires forall k: nat :: k < |calls| ==> CallTells(first, calls, k)
    ensures var t := TellAll(Handed(StateAfter(first, calls[..b])), FramesOf(calls, Emitted(calls, b, n)));
            t.Some? && ((b < n && Dictionary(calls, n)) || t.value == Handed(StateAfter(first, calls[..n])))
    decreases n
  {
    hide StateAfter, Emitted, TellAll, Tell;
    var t0 := Handed(StateAfter(first, calls[..b]));
    if n == b {
      NoFrames(t0, calls, b);
    } else {
      EmittedTells(first, calls, b, n - 1);
      var k := n - 1;
      var frames := FramesOf(calls, Emitted(calls, b, k));
      EmittedGrows(calls, b, k);
      assert CallTells(first, calls, k);
      StateStep(first, calls, k);
      if calls[k].encoded {
        MoreFrames(calls, Emitted(calls, b, k), n);
        TellOneMore(t0, frames, FrameOf(calls, n));
        NextTold(first, calls, k, TellAll(t0, frames).value);
      }
    }
  }

  /** Whoever knows the state, or awaits the snapshot of a dictionary, takes the next frame. */
  lemma NextTold(first: Published, calls: seq<Call>, k: nat, t: NextState)
    requires k < |calls| && calls[k].encoded && SnapshotsFollow(calls) && CallTells(first, calls, k)
    requires Dictionary(calls, k) || t == Handed(StateAfter(first, calls[..k]))
    ensures var next := Tell(t, calls[k].event);
            next.Some? && (Dictionary(calls, k + 1) || next.value == Handed(StateAfter(first, calls[..k + 1])))
  {
    hide StateAfter;
  }

  lemma StateStep(first: Published, calls: seq<Call>, k: nat)
    requires k < |calls|
    ensures !calls[k].encoded ==> StateAfter(first, calls[..k + 1]) == StateAfter(first, calls[..k])
  {
    assert calls[..k + 1][..k] == calls[..k];
  }

  lemma NoFrames(t: NextState, calls: seq<Call>, b: nat)
    requires b <= |calls|
    ensures TellAll(t, FramesOf(calls, Emitted(calls, b, b))) == Some(t)
  {
  }

  lemma MoreFrames(calls: seq<Call>, sequences: seq<nat>, n: nat)
    ensures FramesOf(calls, sequences + [n]) == FramesOf(calls, sequences) + [FrameOf(calls, n)]
  {
  }

  lemma {:induction false} EmittedUpTo(calls: seq<Call>, b: nat, n: nat, r: seq<nat>)
    requires n <= |calls| && r <= Emitted(calls, b, n) && r != []
    ensures var m := r[|r| - 1]; b < m <= n && r == Emitted(calls, b, m)
    decreases n
  {
    if r != Emitted(calls, b, n) {
      if calls[n - 1].encoded {
        assert r <= Emitted(calls, b, n - 1);
      }
      EmittedUpTo(calls, b, n - 1, r);
    } else if !calls[n - 1].encoded {
      EmittedUpTo(calls, b, n - 1, r);
    }
  }

  lemma GreetingTells(c: Chain, t: NextState, baseline: nat, state: Published)
    requires Presentable(state)
    ensures TellAll(t, Greeting(c, baseline, state)) == Some(Handed(state))
  {
    var g := Greeting(c, baseline, state);
    assert g[..2][..1] == g[..1] && g[..1][..0] == [] && g[..3] == g && g[..2] == [g[0], g[1]] && g[..1] == [g[0]];
    assert TellAll(t, g[..1]) == Some(t) && TellAll(t, g[..2]) == Some(t);
  }

  lemma {:induction false} TellMore(t: NextState, a: seq<Frame>, b: seq<Frame>)
    requires TellAll(t, a).Some?
    ensures TellAll(t, a + b) == TellAll(TellAll(t, a).value, b)
    decreases |b|
  {
    hide Tell;
    if b == [] {
      assert a + b == a;
    } else {
      var rest := b[..|b| - 1];
      TellMore(t, a, rest);
      assert (a + b)[..|a + b| - 1] == a + rest;
    }
  }

  lemma RunUpToDate(env: Env, limits: Limits, g: Generation, load: Load, now: Time, turns: seq<Turn>)
    requires WellFormed(env.chain) && ValidLimits(limits) && Coheres(env, load) && TurnsTrue(env, turns)
    ensures var start := Start(env, limits, g, load, now);
            UpToDate(start.shared.published, Run(env, start, turns).shared)
  {
    hide Valid, Run, Anchored;
    var start := Start(env, limits, g, load, now);
    StartValid(env, limits, g, load, now);
    RunTold(start.shared.published, env, start, turns);
  }

  /** After a run no dictionary lacks its snapshot. */
  lemma NothingOwed(first: Published, sh: Shared, broken: bool)
    requires Orderly(first, sh, broken)
    ensures !Dictionary(sh.calls, |sh.calls|)
  {
    hide StateAfter, CommittedAfter;
    var n := |sh.calls|;
    if Dictionary(sh.calls, n) {
      var m :| Standing(first, sh, m) && (sh.published.recovering <==> m.Await?);
      assert sh.calls[..n - 1] + [sh.calls[n - 1]] == sh.calls;
      OneCall(first, sh.calls[..n - 1], sh.calls[n - 1]);
    }
  }

  /** A consumer after its handshake, whatever it knew before: every frame it is written fits, and each leaves it
      with the state as of that frame, a dictionary with its snapshot. */
  ghost predicate IsTold(c: Chain, first: Published, script: seq<Call>, s: System, t: NextState)
    requires s.attach.Attached? || s.attach.Lagging?
  {
    var b := s.attach.baseline;
    var n := if s.delivered == [] then b else s.delivered[|s.delivered| - 1];
    && s.attach.state.forkchoice.Some? && n <= |script|
    && var told := TellAll(t, Greeting(c, b, s.attach.state) + FramesOf(script, s.delivered));
       && told.Some?
       && ((b < n && Dictionary(script, n)) || told.value == Handed(StateAfter(first, script[..n])))
  }

  lemma DeliveredTells(c: Chain, first: Published, script: seq<Call>, s: System, t: NextState)
    requires s.attach.Attached? || s.attach.Lagging?
    requires SystemOk(first, script, s) && SnapshotsFollow(script)
    requires forall k: nat :: k < |script| ==> CallTells(first, script, k)
    ensures IsTold(c, first, script, s, t)
  {
    hide StateAfter, Emitted, TellAll, SnapshotsFollow, CallTells, Marked, CommittedAfter, Above, FramesOf;
    var b := s.attach.baseline;
    GreetingTells(c, t, b, s.attach.state);
    TellMore(t, Greeting(c, b, s.attach.state), FramesOf(script, s.delivered));
    if s.delivered == [] {
      EmittedTells(first, script, b, b);
      NoneEmitted(script, b, b);
    } else {
      EmittedUpTo(script, b, s.finished, s.delivered);
      EmittedTells(first, script, b, s.delivered[|s.delivered| - 1]);
    }
  }

  /** Whatever run produced the log and however the handshake interleaved with it, a consumer that goes by the
      greeting and the frames it is written knows at each of them the canonical projection, the forkchoice view
      and the recovery flag as of that frame; once everything is written, those of the publisher. */
  lemma ConsumersAreTold(env: Env, limits: Limits, g: Generation, load: Load, now: Time, turns: seq<Turn>,
                         capacity: nat, actions: seq<Action>, t: NextState)
    requires WellFormed(env.chain) && ValidLimits(limits) && Coheres(env, load) && TurnsTrue(env, turns)
    ensures var start := Start(env, limits, g, load, now);
            var p := Run(env, start, turns);
            var script := p.shared.calls;
            var s := Schedule(script, capacity, Boot(start.shared.published), actions);
            && (s.attach.Attached? || s.attach.Lagging? ==>
                  IsTold(env.chain, start.shared.published, script, s, t))
            && (s.attach.Attached? && !s.overrun && s.inbox == [] && s.finished == |script| ==>
                  TellAll(t, Greeting(env.chain, s.attach.baseline, s.attach.state) + FramesOf(script, s.delivered))
                  == Some(Handed(p.shared.published)))
  {
    hide Run, Start, Schedule, Orderly, Valid, CallTells, IsTold, SystemOk;
    var start := Start(env, limits, g, load, now);
    var p := Run(env, start, turns);
    var first, script := start.shared.published, p.shared.calls;
    EveryRunIsOrderly(env, limits, g, load, now, turns);
    OrderlyLog(first, p.shared, p.broken);
    OrderlyFollows(first.canonical.generation, script);
    RunUpToDate(env, limits, g, load, now, turns);
    StartIsFirst(env, limits, g, load, now);
    BootOk(first, script);
    ScheduleKeeps(first, script, capacity, Boot(first), actions);
    var s := Schedule(script, capacity, Boot(first), actions);
    if s.attach.Attached? || s.attach.Lagging? {
      DeliveredTells(env.chain, first, script, s, t);
      if s.attach.Attached? && !s.overrun && s.inbox == [] && s.finished == |script| {
        NothingOwed(first, p.shared, p.broken);
        AllTold(env.chain, first, script, s, t);
      }
    }
  }

  lemma BootOk(first: Published, script: seq<Call>)
    ensures SystemOk(first, script, Boot(first))
  {
  }

  lemma AllTold(c: Chain, first: Published, script: seq<Call>, s: System, t: NextState)
    requires s.attach.Attached? && !s.overrun && s.inbox == [] && s.finished == |script|
    requires SystemOk(first, script, s) && SnapshotsFollow(script) && !Dictionary(script, |script|)
    requires forall k: nat :: k < |script| ==> CallTells(first, script, k)
    ensures TellAll(t, Greeting(c, s.attach.baseline, s.attach.state) + FramesOf(script, s.delivered))
            == Some(Handed(StateAfter(first, script)))
  {
    hide StateAfter, Emitted, TellAll, SnapshotsFollow, CallTells, Marked, CommittedAfter, FramesOf;
    var b := s.attach.baseline;
    GreetingTells(c, t, b, s.attach.state);
    TellMore(t, Greeting(c, b, s.attach.state), FramesOf(script, s.delivered));
    assert s.delivered == Emitted(script, b, |script|) by { assert s.delivered + Above(s.inbox, b) == s.delivered; }
    EmittedTells(first, script, b, |script|);
    assert script[..|script|] == script;
  }
}

/** The publisher thread: its handlers over the live store and the broadcast log. Every method leaves
    exactly the state its specification gives, and errors where it errors. */
module PublisherThread {
  import opened Types
  import opened Sequences
  import opened Chain
  import opened Projections
  import opened Store
  import opened StoreInvariants
  import opened StoreFaith
  import opened Finality
  import opened FinalitySound
  import opened Wire
  import opened Publisher
  import opened PublisherInvariants
  import opened Expiry
  import opened LiveStore
  import P = Publisher

  /** Recovery over a series of reads of the latest head: attempts until one succeeds. */
  function Recovery(env: Env, p: State, loads: seq<Load>, now: Time): Outcome
    decreases |loads|
  {
    if loads == [] then Fail(p)
    else
      var tried := Attempt(env, p, loads[0], now);
      if tried.ok then tried else Recovery(env, tried.state, loads[1..], now)
  }

  class Thread {
    const env: Env
    const store: CandidateStore
    const shared: Broadcaster
    var anchoredAt: Time

    ghost predicate Wired() { shared.encodes == env.encodes && store.chain == env.chain }

    ghost function Model(): State
      reads this, store, shared
    {
      State(store.Contents(), shared.Model(), anchoredAt, false)
    }

    ghost predicate Healthy()
      reads this, store, shared
    {
      Wired() && Valid(env, Model())
    }

    /** A thread anchored at a first load. */
    constructor (env: Env, limits: Limits, g: Generation, load: Load, now: Time)
      requires WellFormed(env.chain) && ValidLimits(limits) && Coheres(env, load)
      ensures Model() == Start(env, limits, g, load, now) && Healthy() && this.env == env
      ensures fresh(store) && fresh(shared)
    {
      this.env := env;
      var projection := LoadAt(env, g, load.head);
      store := new CandidateStore(env.chain, limits, projection, load.view.finalized, now);
      shared := new Broadcaster(env.encodes, Published(projection, Some(load.view), 0, false));
      anchoredAt := load.anchoredAt;
      new;
      StartValid(env, limits, g, load, now);
    }

    // ----- Insertion -----

    /** Announces what a trim of the cache retired, unless the trim failed. */
    method EnforceProjections(generation: Generation) returns (ok: bool)
      requires Wired() && Inv(env.chain, store.Contents())
      requires store.projectionCount <= store.limits.cache + 1 && store.limits.cache >= 1
      modifies store, shared
      ensures var o := Enforce(env, old(Model()), generation, TrimProjections(old(store.Contents())));
              Model() == o.state && ok == o.ok
    {
      hide TrimProjections, Inv;
      var retired;
      retired, ok := store.TrimProjectionCache();
      if ok {
        ok := shared.PublishRetired(env.batch, generation, retired, CacheEvicted);
      }
    }

    method EnforceRecords(generation: Generation) returns (ok: bool)
      requires Wired() && Inv(env.chain, store.Contents())
      requires MetadataLen(store.Contents()) <= store.limits.metadata + 1 && store.limits.metadata >= 1
      modifies store, shared
      ensures var o := Enforce(env, old(Model()), generation, TrimMetadata(old(store.Contents())));
              Model() == o.state && ok == o.ok
    {
      hide TrimMetadata, Inv;
      var retired;
      retired, ok := store.TrimRecords();
      if ok {
        ok := shared.PublishRetired(env.batch, generation, retired, CacheEvicted);
      }
    }

    method InsertCandidate(projection: Projection, stage: Stage, firstSequence: nat, now: Time) returns (ok: bool)
      requires Healthy() && projection.generation == Active(Model()) && Faithful(env.chain, projection)
      modifies store, shared
      ensures var o := P.InsertCandidate(env, old(Model()), projection, stage, firstSequence, now);
              Model() == o.state && ok == o.ok
      ensures ok ==> Healthy()
    {
      hide SharedTrue, PutProjection, TrimProjections, TrimMetadata, Enforce, Faithful, Inv, Agrees, SweepSound;
      ghost var p, g := Model(), projection.generation;
      InsertKeeps(env, p, projection, stage, firstSequence, now);
      PutGood(env.chain, g, p.store, projection, stage, firstSequence, now);
      GoodDisjoint(env.chain, g, p.store);
      ghost var put := PutProjection(p.store, projection, stage, firstSequence, now);
      TrimProjectionsGood(env.chain, g, put);
      EnforceTrue(env, p.(store := put), g, TrimProjections(put));
      store.FileProjection(projection, stage, firstSequence, now);
      ok := EnforceProjections(projection.generation);
      if ok {
        ok := EnforceRecords(projection.generation);
      }
    }

    method InsertDeferred(block: BlockMeta, changes: seq<SlotChange>, now: Time) returns (ok: bool)
      requires Healthy() && block == env.chain.meta(block.hash)
               && changes == env.chain.delta(Active(Model()), block.hash)
      modifies store, shared
      ensures var o := P.InsertDeferred(env, old(Model()), block, changes, now); Model() == o.state && ok == o.ok
      ensures ok ==> Healthy()
    {
      hide SharedTrue, PutDeferred, TrimMetadata, Enforce, Inv, Agrees, SweepSound;
      ghost var p := Model();
      InsertDeferredKeeps(env, p, block, now);
      ok := true;
      if block.hash !in store.tombstones && block.hash !in store.candidates {
        PutDeferredGood(env.chain, Active(p), p.store, block, now);
        store.FileDeferred(block, changes, now);
        ok := EnforceRecords(shared.published.canonical.generation);
      }
    }

    // ----- Candidates -----

    method PublishCandidate(g: Generation, block: BlockMeta, values: seq<Word>, changes: seq<SlotChange>, stage: Stage,
                            now: Time) returns (ok: bool)
      requires Healthy() && g == Active(Model()) && block == env.chain.meta(block.hash)
      requires block.number == Number(env.chain, block.parent) + 1
      requires values == Truth(env.chain, g, block.parent) && changes == env.chain.delta(g, block.hash)
      modifies store, shared
      ensures var o := P.PublishCandidate(env, old(Model()), g, block, values, changes, stage, now);
              Model() == o.state && ok == o.ok
      ensures ok ==> Healthy()
    {
      hide SharedTrue, Good, Bounded, P.InsertCandidate, Faithful, ApplyDelta, Truth;
      ghost var p := Model();
      ProjectedFaithful(env.chain, g, block.hash);
      PublishCandidateKeeps(env, p, block, stage, now);
      var delta := ComputeDelta(values, changes);
      if delta.BadKey? {
        return false;
      }
      var projection := Projection(block, g, delta.values, delta.bitmap);
      SendTrue(env, p, g, BlockState(projection, stage), None);
      ok := shared.PublishInner(g, BlockState(projection, stage), None);
      if ok {
        ok := InsertCandidate(projection, stage, |shared.calls|, now);
      }
    }

    /** Promotes an executed record; consumers are told only of a projection they were given. */
    method PromoteKnown(g: Generation, h: Hash) returns (ok: bool)
      requires Healthy() && g == Active(Model()) && h in store.candidates
      modifies store, shared
      ensures var o := P.PromoteKnown(env, old(Model()), g, h); Model() == o.state && ok == o.ok
      ensures ok ==> Healthy()
    {
      hide SharedTrue, PublisherInvariants.Healthy, Intact, Publish;
      PromoteKnownKeeps(env, Model(), g, h);
      ok := true;
      if store.candidates[h].projection.None? {
        store.MarkValidated(h);
      } else if store.candidates[h].projection.value.generation == g {
        ok := shared.PublishInner(g, BlockValidated(h), None);
        if ok {
          store.MarkValidated(h);
        }
      }
    }

    method ProjectCandidate(g: Generation, block: BlockMeta, changes: seq<SlotChange>, stage: Stage, loads: bool,
                            now: Time) returns (ok: bool)
      requires Healthy() && block == env.chain.meta(block.hash) && changes == env.chain.delta(g, block.hash)
      modifies store, shared
      ensures var o := P.ProjectCandidate(env, old(Model()), g, block, changes, stage, loads, now);
              Model() == o.state && ok == o.ok
      ensures ok ==> Healthy()
    {
      hide SharedTrue, PublisherInvariants.Healthy, Intact, P.PublishCandidate, P.InsertDeferred, P.PromoteKnown,
           P.ParentValues, Truth;
      ghost var p := Model();
      ProjectKeeps(env, p, g, block, stage, loads, now);
      var active, h := shared.published.canonical.generation, block.hash;
      if g < active {
        return true;
      }
      if g > active {
        return false;
      }
      if h in store.tombstones {
        return true;
      }
      if h in store.candidates && store.candidates[h].block != block {
        return false;
      }
      if h in store.candidates && store.candidates[h].projection.Some? {
        ok := true;
        if stage == Validated && store.candidates[h].stage == Executed {
          ok := PromoteKnown(g, h);
        }
        return;
      }
      if block.number <= shared.published.canonical.block.number && block.parent !in store.candidates {
        return true;
      }
      HealthyParts(env, p);
      ParentValuesTrue(env, p, g, block, stage, loads);
      var base := ParentValues(g, block, stage, loads);
      match base
      case Values(values) => ok := PublishCandidate(g, block, values, changes, stage, now);
      case Defer => ok := InsertDeferred(block, changes, now);
      case Skip => ok := true;
      case Mismatch => ok := false;
    }

    /** The parent's values: cached, waited for, or read from the provider. */
    method ParentValues(g: Generation, block: BlockMeta, stage: Stage, loads: bool) returns (base: Base)
      ensures base == P.ParentValues(env, Model(), g, block, stage, loads)
    {
      if block.parent in store.candidates && store.candidates[block.parent].projection.Some? {
        var parent := store.candidates[block.parent].projection.value;
        if block.number != parent.block.number + 1 || parent.generation != g || |parent.values| != env.chain.keys(g) {
          return Mismatch;
        }
        return Values(parent.values);
      }
      if stage == Executed {
        return Defer;
      }
      if !loads {
        return Skip;
      }
      var parent := LoadAt(env, g, block.parent);
      if parent.block.hash != block.parent || parent.block.number + 1 != block.number
         || |parent.values| != env.chain.keys(g) {
        return Mismatch;
      }
      base := Values(parent.values);
    }

    method PromoteValidated(g: Generation, h: Hash, loads: bool, now: Time) returns (ok: bool)
      requires Healthy()
      modifies store, shared
      ensures var o := P.PromoteValidated(env, old(Model()), g, h, loads, now); Model() == o.state && ok == o.ok
      ensures ok ==> Healthy()
    {
      hide SharedTrue, PublisherInvariants.Healthy, Intact, P.ProjectCandidate, P.PromoteKnown;
      ghost var p := Model();
      PromoteKeeps(env, p, g, h, loads, now);
      var active := shared.published.canonical.generation;
      ok := g <= active;
      if g == active {
        if h in store.candidates {
          if store.candidates[h].stage != Validated {
            ok := PromoteKnown(g, h);
          }
        } else if h in store.deferred {
          DeferredTrue(env, p, h);
          ok := ProjectCandidate(g, store.deferred[h].block, store.deferred[h].changes, Validated, loads, now);
        }
      }
    }

    method Rejected(g: Generation, h: Hash) returns (ok: bool)
      requires Healthy()
      modifies store, shared
      ensures var o := P.Rejected(env, old(Model()), g, h); Model() == o.state && ok == o.ok
      ensures ok ==> Healthy()
    {
      hide SharedTrue, Good, Bounded, RemoveCandidateTree, Publish;
      ghost var p := Model();
      RejectedKeeps(env, p, g, h);
      StoreTidy(env, p);
      var active := shared.published.canonical.generation;
      ok := g <= active;
      if g == active {
        if (h in store.candidates && store.candidates[h].stage == Executed) || h in store.deferred {
          ok := shared.PublishInner(g, BlockRejected(h), None);
          if ok {
            store.RemoveCandidateTree(h, true);
          }
        }
      }
    }

    // ----- The canonical head -----

    method AdvanceHead(projection: Projection, now: Time) returns (ok: bool)
      requires Healthy() && projection.generation == Active(Model()) && Faithful(env.chain, projection)
      modifies store, shared
      ensures var o := P.AdvanceHead(env, old(Model()), projection, now); Model() == o.state && ok == o.ok
      ensures ok ==> Healthy()
    {
      hide SharedTrue, Good, Bounded, P.InsertCandidate, Publish, CanonicalBitmap, Faithful, ScheduleExpiry,
           NoteFirstSequence;
      ghost var p := Model();
      AdvanceHeadKeeps(env, p, projection, now);
      InsertKeeps(env, p, projection, Validated, 0, now);
      var previous := store.head;
      var changed := ComputeCanonicalBitmap(shared.published.canonical, projection);
      if changed.None? {
        return false;
      }
      ok := InsertCandidate(projection, Validated, 0, now);
      if ok {
        ghost var inserted := Model();
        ok := shared.PublishInner(projection.generation, CanonicalHead(previous, projection, changed.value),
                                  Some(NextState(projection, None, false)));
        if ok {
          assert store.head == p.store.head;
          store.MoveHead(projection.block.hash, |shared.calls|, now);
        }
      }
    }

    method Canonical(g: Generation, observedAt: Time, h: Hash, loads: bool, now: Time) returns (ok: bool)
      requires Healthy()
      modifies store, shared
      ensures var o := P.Canonical(env, old(Model()), g, observedAt, h, loads, now); Model() == o.state && ok == o.ok
      ensures ok ==> Healthy()
    {
      hide SharedTrue, PublisherInvariants.Healthy, Intact, P.AdvanceHead, Faithful, Truth;
      ghost var p := Model();
      CanonicalKeeps(env, p, g, observedAt, h, loads, now);
      HeadProjectionTrue(env, p, g, h, loads);
      var active := shared.published.canonical.generation;
      if g > active {
        return false;
      }
      if observedAt <= anchoredAt || h == shared.published.canonical.block.hash {
        return true;
      }
      var projection: Projection;
      if g == active && h in store.candidates && store.candidates[h].projection.Some? {
        projection := store.candidates[h].projection.value;
      } else if loads {
        projection := LoadAt(env, active, h);
      } else {
        return false;
      }
      ok := false;
      if projection.generation == active && projection.block.hash == h && WellShaped(env, projection) {
        ok := AdvanceHead(projection, now);
      }
    }

    method NoteFinalized(finalized: Option<Checkpoint>) returns (ok: bool)
      requires Healthy()
      modifies store, shared
      ensures var p := old(Model());
              var o := P.NoteFinalized(env, p, Active(p), finalized); Model() == o.state && ok == o.ok
      ensures ok ==> Healthy()
    {
      hide SharedTrue, Good, Bounded, ProcessFinality, Wire.PublishRetired;
      ghost var p := Model();
      NoteFinalizedKeeps(env, p, finalized);
      StoreTidy(env, p);
      ok := true;
      if finalized.Some? && finalized != store.lastFinalized {
        store.BeginFinalitySweep(finalized.value);
        var retired, _ := store.ProcessBudget(store.limits.budget);
        ok := shared.PublishRetired(env.batch, shared.published.canonical.generation, retired, FinalizedConflict);
      }
    }

    method ForkchoiceAppliedTo(applied: AppliedView) returns (ok: bool)
      requires Healthy()
      modifies store, shared
      ensures var o := P.ForkchoiceAppliedTo(env, old(Model()), applied); Model() == o.state && ok == o.ok
      ensures ok ==> Healthy()
    {
      hide SharedTrue, Good, Bounded, P.NoteFinalized, Faithful;
      ghost var p := Model();
      ForkchoiceAppliedKeeps(env, p, applied);
      var canonical := shared.published.canonical;
      var view := Resolve(applied, canonical.block.number);
      if canonical.block.hash != applied.head || !ValidView(view) {
        return false;
      }
      assert PublishedTrue(env.chain, p.shared.published) by { SharedPublished(env.chain, p.shared); }
      SendTrue(env, p, canonical.generation, ForkchoiceApplied(view), Some(NextState(canonical, Some(view), false)));
      ok := shared.PublishInner(canonical.generation, ForkchoiceApplied(view),
                                Some(NextState(canonical, Some(view), false)));
      if ok {
        ok := NoteFinalized(view.finalized);
      }
    }

    method ForkchoiceChanged(g: Generation, observedAt: Time, applied: AppliedView, loads: bool, now: Time)
      returns (ok: bool)
      requires Healthy()
      modifies store, shared
      ensures var o := P.ForkchoiceChanged(env, old(Model()), g, observedAt, applied, loads, now);
              Model() == o.state && ok == o.ok
      ensures ok ==> Healthy()
    {
      hide SharedTrue, PublisherInvariants.Healthy, Intact, P.Canonical, P.ForkchoiceAppliedTo;
      if g > shared.published.canonical.generation {
        return false;
      }
      if observedAt <= anchoredAt {
        return true;
      }
      ok := true;
      if store.head != applied.head {
        ok := Canonical(g, observedAt, applied.head, loads, now);
      }
      if ok {
        ok := ForkchoiceAppliedTo(applied);
      }
    }

    // ----- Anchors -----

    method AnnounceGap() returns (ok: bool)
      requires Wired()
      modifies shared
      ensures var o := P.AnnounceGap(env, old(Model())); Model() == o.state && ok == o.ok
    {
      hide Publish;
      var published := shared.published;
      ok := shared.PublishInner(published.canonical.generation, Gap(shared.committed),
                                Some(NextState(published.canonical, None, true)));
    }

    method Reanchor(load: Load, now: Time) returns (ok: bool)
      requires Wired()
      modifies this, store, shared
      ensures var o := P.Reanchor(env, old(Model()), load, now); Model() == o.state && ok == o.ok
      ensures ok <==> Coheres(env, load)
      ensures Valid(env, old(Model()).(broken := true)) && ok ==> Healthy()
    {
      hide Publish, Reset, LoadAt, Valid;
      ReanchorGains(env, Model(), load, now);
      if !Coheres(env, load) {
        return false;
      }
      var projection := LoadAt(env, shared.published.canonical.generation, load.head);
      anchoredAt := load.anchoredAt;
      store.ResetCandidates(projection, load.view.finalized, now);
      ok := shared.PublishInner(projection.generation, Snapshot(projection, load.view),
                                Some(NextState(projection, Some(load.view), false)));
    }

    method ResetCanonicalState(g: Generation, observedAt: Time, load: Load, now: Time) returns (ok: bool)
      requires Healthy()
      modifies this, store, shared
      ensures var o := P.ResetCanonicalState(env, old(Model()), g, observedAt, load, now);
              Model() == o.state && ok == o.ok
      ensures ok ==> Healthy()
    {
      hide Valid, P.AnnounceGap, P.Reanchor;
      StateResetKeeps(env, Model(), g, observedAt, load, now);
      if g > shared.published.canonical.generation {
        return false;
      }
      if observedAt <= anchoredAt {
        return true;
      }
      ok := AnnounceGap();
      if ok {
        ok := Reanchor(load, now);
      }
    }

    method Activate(g: Generation, load: Load, now: Time) returns (ok: bool)
      requires Healthy()
      modifies this, store, shared
      ensures var o := P.Activate(env, old(Model()), g, load, now); Model() == o.state && ok == o.ok
      ensures ok ==> Healthy()
    {
      hide Valid, Publish, Reset, LoadAt;
      ActivateKeeps(env, Model(), g, load, now);
      ok := true;
      if g > shared.published.canonical.generation && Coheres(env, load) {
        var projection := LoadAt(env, g, load.head);
        anchoredAt := load.anchoredAt;
        store.ResetCandidates(projection, load.view.finalized, now);
        ok := shared.PublishInner(g, ConfigActivated(env.chain.keys(g)),
                                  Some(NextState(projection, Some(load.view), false)));
        if ok {
          ok := shared.PublishInner(g, Snapshot(projection, load.view), None);
        }
      }
    }

    /** Keeps trying: announces the gap once, then re-anchors as soon as a read of the head coheres. */
    method RecoverUntilSuccess(loads: seq<Load>, now: Time) returns (ok: bool)
      requires Wired()
      modifies this, store, shared
      ensures var o := Recovery(env, old(Model()), loads, now); Model() == o.state && ok == o.ok
    {
      hide P.AnnounceGap, P.Reanchor;
      var announced := shared.published.recovering;
      var i := 0;
      ok := false;
      assert loads[0..] == loads;
      while i < |loads|
        invariant 0 <= i <= |loads| && !ok
        invariant announced == shared.published.recovering
        invariant Recovery(env, Model(), loads[i..], now) == Recovery(env, old(Model()), loads, now)
      {
        ghost var p := Model();
        assert loads[i..][1..] == loads[i + 1..];
        if !announced {
          GapRecovers(env, p);
          announced := AnnounceGap();
        }
        if announced {
          ok := Reanchor(loads[i], now);
          if ok {
            return;
          }
          FailedReanchor(env, if p.shared.published.recovering then p else P.AnnounceGap(env, p).state, loads[i], now);
        }
        assert Model() == Attempt(env, p, loads[i], now).state;
        i := i + 1;
      }
    }

    // ----- Maintenance -----

    /** Spends what the sweep leaves of the budget on expired records. */
    method Maintain(now: Time) returns (ok: bool, ghost due: seq<Hash>)
      requires Healthy()
      modifies store, shared
      ensures var o := P.Maintain(env, old(Model()), due, now); Model() == o.state && ok == o.ok
      ensures ok ==> Healthy() && Expires(old(Model()), Model(), now)
    {
      hide Valid, ProcessFinality, Wire.PublishRetired, RemoveAll, Due, Expires, P.Maintain;
      ghost var p := Model();
      StoreTidy(env, p);
      due := [];
      var g := shared.published.canonical.generation;
      var retired, work := store.ProcessBudget(store.limits.budget);
      MaintainSweeps(env, p, due, now);
      ok := shared.PublishRetired(env.batch, g, retired, FinalizedConflict);
      if ok {
        var left := if work < store.limits.budget then store.limits.budget - work else 0;
        var expired := store.CollectDue(now, left);
        due := expired;
        MaintainSweeps(env, p, due, now);
        MaintainKeeps(env, p, due, now);
        TickExpires(env, p, due, now);
        var tracked := store.RemoveEach(expired);
        ok := shared.PublishRetired(env.batch, g, tracked, RetentionExpired);
        assert ok ==> Model().(broken := false) == Model();
      }
    }

    // ----- Turns -----

    /** Handles one command. What a tick removes is found here, not told. */
    method Handle(cmd: Command, now: Time) returns (ok: bool, ghost served: Command)
      requires Healthy() && CommandTrue(env, cmd)
      modifies this, store, shared
      ensures Serves(cmd, served) && CommandTrue(env, served)
      ensures var o := P.Handle(env, old(Model()), served, now); Model() == o.state && ok == o.ok
      ensures ok ==> Healthy()
      ensures ok && cmd.OnTick? ==> Expires(old(Model()), Model(), now)
    {
      hide Expires, Valid, P.ProjectCandidate, P.PromoteValidated, P.ForkchoiceChanged, P.Rejected, P.Activate,
           P.Maintain, P.ResetCanonicalState;
      served := cmd;
      ok := true;
      match cmd
      case OnExecuted(at, g, block, changes) =>
        if at > anchoredAt {
          ok := ProjectCandidate(g, block, changes, Executed, false, now);
        }
      case OnValidated(g, h, loads) => ok := PromoteValidated(g, h, loads, now);
      case OnValidatedFallback(at, g, block, changes, loads) =>
        if at > anchoredAt {
          ok := ProjectCandidate(g, block, changes, Validated, loads, now);
        }
      case OnStateReset(at, g, load) => ok := ResetCanonicalState(g, at, load, now);
      case OnForkchoice(at, g, applied, loads) => ok := ForkchoiceChanged(g, at, applied, loads, now);
      case OnRejected(g, h) => ok := Rejected(g, h);
      case OnActivate(g, load) => ok := Activate(g, load, now);
      case OnTick(_) =>
        ghost var due;
        ok, due := Maintain(now);
        served := OnTick(due);
      case OnLoss => ok := false;
      case OnRetry(_) =>
    }

    /** Runs over a series of commands; after an error only recovery attempts do anything. */
    method Serve(turns: seq<Turn>) returns (broken: bool, ghost served: seq<Turn>)
      requires Healthy() && TurnsTrue(env, turns)
      modifies this, store, shared
      ensures |served| == |turns| && TurnsTrue(env, served)
      ensures forall i :: 0 <= i < |turns| ==>
                Serves(turns[i].command, served[i].command) && served[i].now == turns[i].now
      ensures Model().(broken := broken) == Run(env, old(Model()), served)
      ensures Wired() && Valid(env, Model().(broken := broken)) && SharedTrue(env.chain, shared.Model())
      ensures forall i: nat :: i < |turns| && turns[i].command.OnTick? ==> TickDone(env, old(Model()), served, i)
    {
      hide TickDone, Expires, Valid, P.Handle, Attempt, CommandTrue, Serves;
      broken, served := false, [];
      var i := 0;
      while i < |turns|
        invariant 0 <= i <= |turns| && |served| == i && Wired()
        invariant forall k :: 0 <= k < i ==> CommandTrue(env, served[k].command)
        invariant forall k :: 0 <= k < i ==>
                    Serves(turns[k].command, served[k].command) && served[k].now == turns[k].now
        invariant Valid(env, Model().(broken := broken))
        invariant Model().(broken := broken) == Run(env, old(Model()), served)
        invariant forall k: nat :: k < i && turns[k].command.OnTick? ==> TickDone(env, old(Model()), served, k)
      {
        ghost var p := Model().(broken := broken);
        var cmd, now := turns[i].command, turns[i].now;
        ghost var done := cmd;
        assert Serves(cmd, cmd) by { ServesSelf(cmd); }
        if broken {
          if cmd.OnRetry? {
            BrokenAttempt(env, Model(), cmd.load, now);
            BrokenKept(env, Model(), cmd.load, now);
            var ok := RecoverOnce(cmd.load, now);
            broken := !ok;
          }
        } else {
          assert p == Model();
          var ok;
          ok, done := Handle(cmd, now);
          broken := !ok;
          TickServesTick(cmd, done);
          assert ok ==> Model().(broken := broken) == Model();
        }
        assert Model().(broken := broken) == Step(env, p, done, now);
        StepKeeps(env, p, done, now);
        RunAppend(env, old(Model()), served, Turn(done, now));
        TickIsDone(env, old(Model()), served, Turn(done, now));
        served := served + [Turn(done, now)];
        i := i + 1;
      }
      ValidIsTrue(env, Model().(broken := broken));
    }

    /** One attempt at recovery. */
    method RecoverOnce(load: Load, now: Time) returns (ok: bool)
      requires Wired()
      modifies this, store, shared
      ensures var o := Attempt(env, old(Model()), load, now); Model() == o.state && ok == o.ok
    {
      hide Attempt;
      ghost var p := Model();
      OneAttempt(env, p, load, now);
      ok := RecoverUntilSuccess([load], now);
    }
  }

  /** The turn, a tick between errors, expired what was due. */
  ghost predicate TickDone(env: Env, p: State, served: seq<Turn>, i: nat)
    requires i < |served|
  {
    var before, after := Run(env, p, served[..i]), Run(env, p, served[..i + 1]);
    !before.broken && !after.broken ==> Expires(before, after, served[i].now)
  }

  lemma TickIsDone(env: Env, p: State, served: seq<Turn>, last: Turn)
    requires var before, after := Run(env, p, served), Run(env, p, served + [last]);
             last.command.OnTick? && !before.broken && !after.broken ==> Expires(before, after, last.now)
    ensures forall k: nat :: k < |served| && TickDone(env, p, served, k) ==> TickDone(env, p, served + [last], k)
    ensures last.command.OnTick? ==> TickDone(env, p, served + [last], |served|)
  {
    hide Run, Expires;
    var more := served + [last];
    forall k: nat | k < |served| && TickDone(env, p, served, k)
      ensures TickDone(env, p, more, k)
    {
      assert more[..k] == served[..k] && more[..k + 1] == served[..k + 1] && more[k] == served[k];
    }
    assert more[..|served|] == served && more[..|served| + 1] == more;
  }

  /** A coherent read makes any publisher healthy, and publishes. */
  lemma ReanchorGains(env: Env, p: State, load: Load, now: Time)
    requires !p.broken
    ensures P.Reanchor(env, p, load, now).ok <==> Coheres(env, load)
    ensures Valid(env, p.(broken := true)) && Coheres(env, load) ==> Valid(env, P.Reanchor(env, p, load, now).state)
  {
    hide Valid, Reset, LoadAt;
    if Valid(env, p.(broken := true)) && Coheres(env, load) {
      ReanchorKeeps(env, p, load, now);
      assert P.Reanchor(env, p, load, now).state.(broken := false) == P.Reanchor(env, p, load, now).state;
    }
  }

  lemma ValidIsTrue(env: Env, p: State)
    requires Valid(env, p)
    ensures SharedTrue(env.chain, p.shared)
  {
  }

  /** The command served is the command given, except for what a tick found due. */
  predicate Serves(given: Command, served: Command) { served == given || (given.OnTick? && served.OnTick?) }

  lemma ServesSelf(cmd: Command)
    ensures Serves(cmd, cmd)
  {
  }

  lemma TickServesTick(given: Command, served: Command)
    requires Serves(given, served)
    ensures given.OnTick? <==> served.OnTick?
  {
  }

  lemma OneAttempt(env: Env, p: State, load: Load, now: Time)
    ensures var o, tried := Recovery(env, p, [load], now), Attempt(env, p, load, now);
            o.state == tried.state && o.ok == tried.ok
  {
    hide Attempt;
    assert [load][1..] == [];
  }

  /** Attempts ignore that an error is pending, and leave it so. */
  lemma BrokenAttempt(env: Env, p: State, load: Load, now: Time)
    ensures var a, b := Attempt(env, p, load, now), Attempt(env, p.(broken := true), load, now);
            a.ok == b.ok && b.state == a.state.(broken := true)
  {
    hide Reset, LoadAt;
  }

  lemma BrokenKept(env: Env, p: State, load: Load, now: Time)
    ensures Attempt(env, p, load, now).state.broken == p.broken
  {
    hide Reset, LoadAt;
  }

  lemma {:induction false} RunAppend(env: Env, p: State, turns: seq<Turn>, last: Turn)
    ensures Run(env, p, turns + [last]) == Step(env, Run(env, p, turns), last.command, last.now)
    decreases |turns|
  {
    hide Step;
    if turns == [] {
      assert ([] + [last])[1..] == [];
    } else {
      RunAppend(env, Step(env, p, turns[0].command, turns[0].now), turns[1..], last);
      assert (turns + [last])[1..] == turns[1..] + [last];
    }
  }

  lemma StoreTidy(env: Env, p: State)
    requires Valid(env, p) && !p.broken
    ensures Distinct(p.store.tombstoneOrder) && p.store.tombstones == Elements(p.store.tombstoneOrder)
    ensures |p.store.tombstones| <= p.store.limits.metadata && 0 < p.store.limits.metadata
    ensures p.store.candidates.Keys !! p.store.deferred.Keys
  {
    hide SharedTrue;
    GoodDisjoint(env.chain, Active(p), p.store);
  }

  /** A tick, in the two parts it is made of. */
  lemma MaintainSweeps(env: Env, p: State, due: seq<Hash>, now: Time)
    requires Valid(env, p) && !p.broken
    ensures var slice := ProcessFinality(p.store, p.store.limits.budget);
            var swept := Wire.PublishRetired(env.encodes, env.batch, p.shared, Active(p), slice.retired,
                                             FinalizedConflict);
            && slice.store.limits == p.store.limits
            && (!swept.ok ==>
                  P.Maintain(env, p, due, now) == Outcome(p.(store := slice.store, shared := swept.shared), false))
            && (swept.ok && Due(slice.store, due, now, BudgetLeft(p.store)) ==>
                  var (s, expired) := RemoveAll(slice.store, due);
                  var sent := Wire.PublishRetired(env.encodes, env.batch, swept.shared, Active(p), expired,
                                                  RetentionExpired);
                  P.Maintain(env, p, due, now) == Outcome(p.(store := s, shared := sent.shared), sent.ok))
  {
    hide SharedTrue, Good, Bounded, ProcessFinality, Wire.PublishRetired, RemoveAll, Due;
    SweepGood(env.chain, Active(p), p.store, p.store.limits.budget);
  }

  lemma GapRecovers(env: Env, p: State)
    ensures var o := AnnounceGap(env, p);
            if o.ok then o.state.shared.published.recovering else o.state.shared.published == p.shared.published
  {
  }

  /** A failed re-anchor changes nothing. */
  lemma FailedReanchor(env: Env, p: State, load: Load, now: Time)
    ensures var o := Reanchor(env, p, load, now); !o.ok ==> o.state == p
  {
  }
}

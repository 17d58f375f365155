/** What the engine has to respect for the head to survive, in terms of what was published: no ancestor
    of the head was rejected, and none is off a finalized checkpoint. */
module HeadHonesty {
  import opened Types
  import opened Chain
  import opened Forest
  import opened Projections
  import opened Store
  import opened StoreInvariants
  import opened StoreTrees
  import opened StoreFaith
  import opened Finality
  import opened FinalitySound
  import opened Wire
  import opened Publisher
  import opened PublisherInvariants
  import opened Frames
  import opened HeadLoss
  import opened HeadSurvival
  import opened Shown

  // ----- What a log says of a block -----

  ghost predicate Rejects(calls: seq<Call>, h: Hash) {
    exists i :: 0 <= i < |calls| && calls[i].encoded && calls[i].event == BlockRejected(h)
  }

  function FinalizedBy(event: Event): Option<Checkpoint> {
    match event
    case ForkchoiceApplied(view) => view.finalized
    case Snapshot(_, view) => view.finalized
    case _ => None
  }

  /** The checkpoint was finalized at the start or by a published view. */
  ghost predicate Finalizes(first: Option<Checkpoint>, calls: seq<Call>, f: Checkpoint) {
    first == Some(f) || exists i :: 0 <= i < |calls| && calls[i].encoded && FinalizedBy(calls[i].event) == Some(f)
  }

  /** Its rejection was published, or it is off a finalized checkpoint. */
  ghost predicate Blamed(c: Chain, first: Option<Checkpoint>, calls: seq<Call>, h: Hash) {
    Rejects(calls, h) || exists f :: Finalizes(first, calls, f) && OffChain(c, f, h)
  }

  /** The block or an ancestor of it is blamed. */
  ghost predicate Outlawed(c: Chain, first: Option<Checkpoint>, calls: seq<Call>, h: Hash) {
    exists a :: Below(c, a, h) && Blamed(c, first, calls, a)
  }

  lemma BlamedGrows(c: Chain, first: Option<Checkpoint>, calls: seq<Call>, more: seq<Call>, h: Hash)
    requires calls <= more && Blamed(c, first, calls, h)
    ensures Blamed(c, first, more, h)
  {
    if Rejects(calls, h) {
      var i :| 0 <= i < |calls| && calls[i].encoded && calls[i].event == BlockRejected(h);
      assert more[i] == calls[i];
    } else {
      var f :| Finalizes(first, calls, f) && OffChain(c, f, h);
      FinalizesGrows(first, calls, more, f);
    }
  }

  lemma FinalizesGrows(first: Option<Checkpoint>, calls: seq<Call>, more: seq<Call>, f: Checkpoint)
    requires calls <= more && Finalizes(first, calls, f)
    ensures Finalizes(first, more, f)
  {
    if first != Some(f) {
      var i :| 0 <= i < |calls| && calls[i].encoded && FinalizedBy(calls[i].event) == Some(f);
      assert more[i] == calls[i];
    }
  }

  lemma OutlawedGrows(c: Chain, first: Option<Checkpoint>, calls: seq<Call>, more: seq<Call>, h: Hash)
    requires calls <= more && Outlawed(c, first, calls, h)
    ensures Outlawed(c, first, more, h)
  {
    hide Blamed;
    var a :| Below(c, a, h) && Blamed(c, first, calls, a);
    BlamedGrows(c, first, calls, more, a);
  }

  lemma OutlawedBelow(c: Chain, first: Option<Checkpoint>, calls: seq<Call>, a: Hash, h: Hash)
    requires Outlawed(c, first, calls, a) && Below(c, a, h)
    ensures Outlawed(c, first, calls, h)
  {
    hide Blamed, Below;
    var b :| Below(c, b, a) && Blamed(c, first, calls, b);
    BelowTrans(c, b, a, h);
  }

  // ----- Every tombstone is accounted for -----

  /** Only outlawed blocks are terminal, and the last finalized checkpoint was published. */
  ghost predicate Accounted(c: Chain, first: Option<Checkpoint>, p: State) {
    && (forall t :: t in p.store.terminal ==> Outlawed(c, first, p.shared.calls, t))
    && (p.store.lastFinalized.Some? ==> Finalizes(first, p.shared.calls, p.store.lastFinalized.value))
  }

  lemma SameLawAccounts(c: Chain, first: Option<Checkpoint>, p: State, q: State)
    requires Accounted(c, first, p) && SameLaw(p, q)
    ensures Accounted(c, first, q)
  {
    hide Outlawed, Finalizes;
    forall t | t in q.store.terminal
      ensures Outlawed(c, first, q.shared.calls, t)
    {
      OutlawedGrows(c, first, p.shared.calls, q.shared.calls, t);
    }
    if q.store.lastFinalized.Some? {
      FinalizesGrows(first, p.shared.calls, q.shared.calls, q.store.lastFinalized.value);
    }
  }

  // ----- What becomes terminal -----

  lemma RejectedLaw(env: Env, first: Option<Checkpoint>, p: State, g: Generation, h: Hash)
    requires Valid(env, p) && !p.broken && Accounted(env.chain, first, p)
    ensures Accounted(env.chain, first, Rejected(env, p, g, h).state)
  {
    hide SharedTrue, Good, Bounded, Send, RemoveCandidateTree, Outlawed, Finalizes, Under;
    if g == Active(p) && Rejectable(p.store, h) {
      SendLaw(env, p, g, BlockRejected(h), None);
      var sent := Send(env, p, g, BlockRejected(h), None).state;
      SameLawAccounts(env.chain, first, p, sent);
      if h == p.store.head {
        HeadNotRemoved(p.store);
      } else if Send(env, p, g, BlockRejected(h), None).ok {
        RemoveTreeGood(env.chain, g, p.store, h);
        assert Rejects(sent.shared.calls, h) by { SentRejects(env, p, g, h); }
        forall t | Under(Edges(env.chain, p.store), h, t)
          ensures Outlawed(env.chain, first, sent.shared.calls, t)
        {
          UnderOutlawed(env.chain, first, sent.shared.calls, p.store, h, t);
        }
      }
    }
  }

  lemma SentRejects(env: Env, p: State, g: Generation, h: Hash)
    requires Send(env, p, g, BlockRejected(h), None).ok
    ensures Rejects(Send(env, p, g, BlockRejected(h), None).state.shared.calls, h)
  {
    var calls := Send(env, p, g, BlockRejected(h), None).state.shared.calls;
    assert calls[|p.shared.calls|].event == BlockRejected(h);
  }

  lemma UnderOutlawed(c: Chain, first: Option<Checkpoint>, calls: seq<Call>, s: Store, root: Hash, t: Hash)
    requires Rejects(calls, root) && Under(Edges(c, s), root, t)
    ensures Outlawed(c, first, calls, t)
  {
    var k: nat :| Reaches(Edges(c, s), root, t, k);
    UnderIsBelow(c, s, root, t, k);
    assert Blamed(c, first, calls, root);
  }

  /** A sweep makes terminal only what finality or earlier tombstones outlaw. */
  lemma SweepLaw(env: Env, first: Option<Checkpoint>, p: State, s: Store, budget: nat)
    requires Good(env.chain, Active(p), s) && Accounted(env.chain, first, p.(store := s))
    ensures Accounted(env.chain, first, p.(store := ProcessFinality(s, budget).store))
  {
    hide Inv, Agrees, SweepSound, ProcessFinality, Finalizes, Outlawed, Cursed;
    var r := ProcessFinality(s, budget).store;
    FinalitySoundness(env.chain, s, budget);
    if s.lastFinalized.Some? {
      forall t | t in r.terminal
        ensures Outlawed(env.chain, first, p.shared.calls, t)
      {
        if t !in s.terminal {
          CursedOutlawed(env.chain, first, p.shared.calls, s.lastFinalized.value, s.terminal, t);
        }
      }
    }
  }

  lemma CursedOutlawed(c: Chain, first: Option<Checkpoint>, calls: seq<Call>, f: Checkpoint, terminal: set<Hash>,
                       h: Hash)
    requires Cursed(c, f, terminal, h) && Finalizes(first, calls, f)
    requires forall t :: t in terminal ==> Outlawed(c, first, calls, t)
    ensures Outlawed(c, first, calls, h)
  {
    hide Finalizes, Rejects;
    if OffChain(c, f, h) {
      BelowSelf(c, h);
      assert Blamed(c, first, calls, h);
    } else {
      var a :| Below(c, a, Parent(c, h)) && (OffChain(c, f, a) || a in terminal);
      BelowStep(c, a, h);
      if OffChain(c, f, a) {
        assert Blamed(c, first, calls, a);
      } else {
        OutlawedBelow(c, first, calls, a, h);
      }
    }
  }

  lemma NoteFinalizedLaw(env: Env, first: Option<Checkpoint>, p: State, finalized: Option<Checkpoint>)
    requires Valid(env, p) && !p.broken && Accounted(env.chain, first, p)
    requires finalized.Some? ==> Finalizes(first, p.shared.calls, finalized.value)
    ensures Accounted(env.chain, first, NoteFinalized(env, p, Active(p), finalized).state)
  {
    hide SharedTrue, Good, Bounded, ProcessFinality, SendRetired, Finalizes, Outlawed;
    if finalized.Some? && finalized != p.store.lastFinalized {
      BeginSweepGood(env.chain, Active(p), p.store, finalized.value);
      var begun := BeginSweep(p.store, finalized.value);
      SweepLaw(env, first, p, begun, p.store.limits.budget);
      var slice := ProcessFinality(begun, p.store.limits.budget);
      SendRetiredLaw(env, p.(store := slice.store), Active(p), slice.retired, FinalizedConflict);
      SameLawAccounts(env.chain, first, p.(store := slice.store), NoteFinalized(env, p, Active(p), finalized).state);
    }
  }

  lemma SentFinalizes(env: Env, first: Option<Checkpoint>, p: State, g: Generation, event: Event,
                      next: Option<NextState>)
    requires Send(env, p, g, event, next).ok && FinalizedBy(event).Some?
    ensures Finalizes(first, Send(env, p, g, event, next).state.shared.calls, FinalizedBy(event).value)
  {
    var calls := Send(env, p, g, event, next).state.shared.calls;
    assert calls[|p.shared.calls|].event == event;
  }

  lemma AppliedLaw(env: Env, first: Option<Checkpoint>, p: State, applied: AppliedView)
    requires Valid(env, p) && !p.broken && Accounted(env.chain, first, p)
    ensures Accounted(env.chain, first, ForkchoiceAppliedTo(env, p, applied).state)
  {
    hide SharedTrue, Good, Bounded, NoteFinalized, Send, Faithful, Accounted, Finalizes;
    var canonical := p.shared.published.canonical;
    assert PublishedTrue(env.chain, p.shared.published) by { SharedPublished(env.chain, p.shared); }
    var view := Resolve(applied, canonical.block.number);
    if canonical.block.hash == applied.head && ValidView(view) {
      var next := Some(NextState(canonical, Some(view), false));
      SendTrue(env, p, canonical.generation, ForkchoiceApplied(view), next);
      SendLaw(env, p, canonical.generation, ForkchoiceApplied(view), next);
      var sent := Send(env, p, canonical.generation, ForkchoiceApplied(view), next);
      SameLawAccounts(env.chain, first, p, sent.state);
      if sent.ok {
        if view.finalized.Some? {
          SentFinalizes(env, first, p, canonical.generation, ForkchoiceApplied(view), next);
        }
        NoteFinalizedLaw(env, first, sent.state, view.finalized);
      }
    }
  }

  lemma ForkchoiceLaw(env: Env, first: Option<Checkpoint>, p: State, g: Generation, observedAt: Time,
                      applied: AppliedView, loads: bool, now: Time)
    requires Valid(env, p) && !p.broken && Accounted(env.chain, first, p)
    ensures Accounted(env.chain, first, ForkchoiceChanged(env, p, g, observedAt, applied, loads, now).state)
  {
    hide SharedTrue, Healthy, Intact, Canonical, ForkchoiceAppliedTo, Accounted;
    AppliedLaw(env, first, p, applied);
    CanonicalKeeps(env, p, g, observedAt, applied.head, loads, now);
    CanonicalNotBroken(env, p, g, observedAt, applied.head, loads, now);
    CanonicalLaw(env, p, g, observedAt, applied.head, loads, now);
    var moved := Canonical(env, p, g, observedAt, applied.head, loads, now);
    SameLawAccounts(env.chain, first, p, moved.state);
    if moved.ok {
      assert moved.state.(broken := false) == moved.state;
      AppliedLaw(env, first, moved.state, applied);
    }
  }

  /** A snapshot forgets all tombstones, and publishes the checkpoint it starts from. */
  lemma ReanchorLaw(env: Env, first: Option<Checkpoint>, p: State, load: Load, now: Time)
    requires Accounted(env.chain, first, p)
    ensures Accounted(env.chain, first, Reanchor(env, p, load, now).state)
  {
    hide Send, LoadAt, Finalizes, Outlawed;
    if Coheres(env, load) && load.view.finalized.Some? {
      var projection := LoadAt(env, Active(p), load.head);
      var reset := p.(store := Reset(p.store, projection, load.view.finalized, now), anchoredAt := load.anchoredAt);
      var next := Some(NextState(projection, Some(load.view), false));
      if Send(env, reset, projection.generation, Snapshot(projection, load.view), next).ok {
        SentFinalizes(env, first, reset, projection.generation, Snapshot(projection, load.view), next);
      }
    }
    SnapshotStore(env, p, load, now);
  }

  lemma GapLaw(env: Env, first: Option<Checkpoint>, p: State)
    requires Accounted(env.chain, first, p)
    ensures Accounted(env.chain, first, AnnounceGap(env, p).state)
  {
    hide Accounted;
    var published := p.shared.published;
    SendLaw(env, p, published.canonical.generation, Gap(p.shared.committed),
            Some(NextState(published.canonical, None, true)));
    SameLawAccounts(env.chain, first, p, AnnounceGap(env, p).state);
  }

  lemma SnapshotStore(env: Env, p: State, load: Load, now: Time)
    ensures var o := Reanchor(env, p, load, now);
            if Coheres(env, load)
            then o.ok && o.state.store.terminal == {} && o.state.store.lastFinalized == load.view.finalized
            else o.state == p
  {
  }

  lemma ActivateLaw(env: Env, first: Option<Checkpoint>, p: State, g: Generation, load: Load, now: Time)
    requires Accounted(env.chain, first, p)
    ensures Accounted(env.chain, first, Activate(env, p, g, load, now).state)
  {
    hide LoadAt, Finalizes, Outlawed;
    if g > Active(p) && Coheres(env, load) && load.view.finalized.Some? {
      var projection := LoadAt(env, g, load.head);
      var reset := p.(store := Reset(p.store, projection, load.view.finalized, now), anchoredAt := load.anchoredAt);
      var config := Send(env, reset, g, ConfigActivated(env.chain.keys(g)),
                         Some(NextState(projection, Some(load.view), false)));
      SentFinalizes(env, first, config.state, g, Snapshot(projection, load.view), None);
    }
  }

  lemma MaintainLaw(env: Env, first: Option<Checkpoint>, p: State, due: seq<Hash>, now: Time)
    requires Valid(env, p) && !p.broken && Accounted(env.chain, first, p)
    ensures Accounted(env.chain, first, Maintain(env, p, due, now).state)
  {
    hide SharedTrue, Good, Bounded, ProcessFinality, SendRetired, RemoveAll, Due, Accounted;
    var g, slice := Active(p), ProcessFinality(p.store, p.store.limits.budget);
    assert p.(store := p.store) == p;
    SweepLaw(env, first, p, p.store, p.store.limits.budget);
    SendRetiredLaw(env, p.(store := slice.store), g, slice.retired, FinalizedConflict);
    var swept := SendRetired(env, p.(store := slice.store), g, slice.retired, FinalizedConflict).state;
    SameLawAccounts(env.chain, first, p.(store := slice.store), swept);
    var (s, expired) := RemoveAll(slice.store, due);
    RemoveAllLaw(slice.store, due);
    SendRetiredLaw(env, swept.(store := s), g, expired, RetentionExpired);
    assert swept.store == slice.store
    by { SendRetiredStore(env, p.(store := slice.store), g, slice.retired, FinalizedConflict); }
    SameLawAccounts(env.chain, first, swept, SendRetired(env, swept.(store := s), g, expired, RetentionExpired).state);
  }

  lemma {:induction false} RemoveAllLaw(s: Store, hashes: seq<Hash>)
    ensures RemoveAll(s, hashes).0.terminal == s.terminal && RemoveAll(s, hashes).0.lastFinalized == s.lastFinalized
    decreases |hashes|
  {
    hide RemoveOne;
    if hashes != [] {
      PlainRemovalFields(s, hashes[0]);
      RemoveAllLaw(RemoveOne(s, hashes[0], false), hashes[1..]);
    }
  }

  // ----- Runs -----

  lemma HandleLaw(env: Env, first: Option<Checkpoint>, p: State, cmd: Command, now: Time)
    requires Valid(env, p) && !p.broken && Accounted(env.chain, first, p)
    ensures Accounted(env.chain, first, Handle(env, p, cmd, now).state)
  {
    hide Valid, ProjectCandidate, PromoteValidated, ForkchoiceChanged, Rejected, Activate, Maintain, Reanchor,
         AnnounceGap, Accounted;
    match cmd
    case OnExecuted(at, g, block, changes) =>
      ProjectLaw(env, p, g, block, changes, Executed, false, now);
      SameLawAccounts(env.chain, first, p, ProjectCandidate(env, p, g, block, changes, Executed, false, now).state);
    case OnValidated(g, h, loads) =>
      ValidatedLaw(env, p, g, h, loads, now);
      SameLawAccounts(env.chain, first, p, PromoteValidated(env, p, g, h, loads, now).state);
    case OnValidatedFallback(at, g, block, changes, loads) =>
      ProjectLaw(env, p, g, block, changes, Validated, loads, now);
      SameLawAccounts(env.chain, first, p, ProjectCandidate(env, p, g, block, changes, Validated, loads, now).state);
    case OnStateReset(at, g, load) =>
      GapLaw(env, first, p);
      ReanchorLaw(env, first, AnnounceGap(env, p).state, load, now);
    case OnForkchoice(at, g, applied, loads) => ForkchoiceLaw(env, first, p, g, at, applied, loads, now);
    case OnRejected(g, h) => RejectedLaw(env, first, p, g, h);
    case OnActivate(g, load) => ActivateLaw(env, first, p, g, load, now);
    case OnTick(due) => MaintainLaw(env, first, p, due, now);
    case OnLoss =>
    case OnRetry(_) =>
  }

  lemma StepLaw(env: Env, first: Option<Checkpoint>, p: State, cmd: Command, now: Time)
    requires Valid(env, p) && Accounted(env.chain, first, p)
    ensures Accounted(env.chain, first, Step(env, p, cmd, now))
  {
    hide Valid, Handle, Reanchor, AnnounceGap, Outlawed, Finalizes;
    if p.broken {
      if cmd.OnRetry? {
        GapLaw(env, first, p);
        ReanchorLaw(env, first, p, cmd.load, now);
        ReanchorLaw(env, first, AnnounceGap(env, p).state, cmd.load, now);
      }
    } else {
      HandleLaw(env, first, p, cmd, now);
    }
  }

  lemma {:induction false} RunLaw(env: Env, first: Option<Checkpoint>, p: State, turns: seq<Turn>)
    requires Valid(env, p) && TurnsTrue(env, turns) && Accounted(env.chain, first, p)
    ensures Accounted(env.chain, first, Run(env, p, turns))
    decreases |turns|
  {
    hide Valid, Step, CommandTrue, Accounted;
    if turns != [] {
      StepKeeps(env, p, turns[0].command, turns[0].now);
      StepLaw(env, first, p, turns[0].command, turns[0].now);
      RunLaw(env, first, Step(env, p, turns[0].command, turns[0].now), turns[1..]);
    }
  }

  /** In every run, after failed turns too, every tombstone set since the last reset is of a block of which
      itself or an ancestor had its rejection published or is off a published finalized checkpoint. */
  lemma TombstonesAreExplained(env: Env, limits: Limits, g: Generation, load: Load, now: Time, turns: seq<Turn>)
    requires WellFormed(env.chain) && ValidLimits(limits) && Coheres(env, load) && TurnsTrue(env, turns)
    ensures var p := Run(env, Start(env, limits, g, load, now), turns);
            && (forall t :: t in p.store.tombstones ==> t in p.store.terminal)
            && (forall t :: t in p.store.terminal ==> Outlawed(env.chain, load.view.finalized, p.shared.calls, t))
  {
    hide Run, Valid, Outlawed;
    var start, first := Start(env, limits, g, load, now), load.view.finalized;
    StartValid(env, limits, g, load, now);
    RunLaw(env, first, start, turns);
    RunKeeps(env, start, turns);
    TombstonesAreTerminal(env, Run(env, start, turns));
  }

  lemma TombstonesAreTerminal(env: Env, p: State)
    requires Valid(env, p)
    ensures p.store.tombstones <= p.store.terminal
  {
    hide SharedTrue, Healthy, Agrees, SweepSound;
    InvParts(env.chain, p.store);
  }

  /** No ancestor of the published head is blamed. */
  ghost predicate HeadHonest(env: Env, first: Option<Checkpoint>, p: State) {
    !Outlawed(env.chain, first, p.shared.calls, p.shared.published.canonical.block.hash)
  }

  /** The engine keeps the head honest in every state without a pending error. */
  ghost predicate HonestThroughout(env: Env, first: Option<Checkpoint>, p: State, turns: seq<Turn>)
    decreases |turns|
  {
    turns == []
    || var q := Step(env, p, turns[0].command, turns[0].now);
       (!q.broken ==> HeadHonest(env, first, q)) && HonestThroughout(env, first, q, turns[1..])
  }

  lemma OffChainBlamed(c: Chain, first: Option<Checkpoint>, calls: seq<Call>, f: Checkpoint, h: Hash)
    requires Finalizes(first, calls, f)
    ensures OffChain(c, f, h) ==> Blamed(c, first, calls, h)
  {
  }

  /** Under a log in which nothing above the head is blamed, the head is safe in every store that the
      log accounts for. */
  lemma HonestIsSafe(c: Chain, first: Option<Checkpoint>, p: State, calls: seq<Call>)
    requires Accounted(c, first, p) && p.shared.calls <= calls && !Outlawed(c, first, calls, p.store.head)
    ensures HeadSafe(c, p.store)
  {
    hide Finalizes, Rejects, OffChain;
    forall a | Below(c, a, p.store.head)
      ensures a !in p.store.terminal
              && (p.store.lastFinalized.Some? ==> !OffChain(c, p.store.lastFinalized.value, a))
    {
      if a in p.store.terminal {
        OutlawedGrows(c, first, p.shared.calls, calls, a);
        OutlawedBelow(c, first, calls, a, p.store.head);
      }
      if p.store.lastFinalized.Some? {
        FinalizesGrows(first, p.shared.calls, calls, p.store.lastFinalized.value);
        OffChainBlamed(c, first, calls, p.store.lastFinalized.value, a);
      }
    }
  }

  lemma TickSpares(env: Env, first: Option<Checkpoint>, p: State, due: seq<Hash>, now: Time)
    requires Valid(env, p) && !p.broken && HeadHeld(p.store) && Accounted(env.chain, first, p)
    requires HeadHonest(env, first, Maintain(env, p, due, now).state)
    ensures Spares(env, p, OnTick(due))
  {
    hide SharedTrue, Good, Bounded, Maintain, Outlawed, Accounted, HeadSafe, SweepTakes;
    MaintainShown(env, p, due, now);
    MaintainGrows(env, p, due, now);
    HonestIsSafe(env.chain, first, p, Maintain(env, p, due, now).state.shared.calls);
    SweepHolds(env.chain, Active(p), p.store, p.store.limits.budget);
  }

  lemma MaintainGrows(env: Env, p: State, due: seq<Hash>, now: Time)
    ensures p.shared.calls <= Maintain(env, p, due, now).state.shared.calls
  {
    hide ProcessFinality, SendRetired, RemoveAll, Due;
    var g, slice := Active(p), ProcessFinality(p.store, p.store.limits.budget);
    SendRetiredLaw(env, p.(store := slice.store), g, slice.retired, FinalizedConflict);
    var swept := SendRetired(env, p.(store := slice.store), g, slice.retired, FinalizedConflict).state;
    var (s, expired) := RemoveAll(slice.store, due);
    SendRetiredLaw(env, swept.(store := s), g, expired, RetentionExpired);
  }

  lemma RejectionSpares(env: Env, first: Option<Checkpoint>, p: State, g: Generation, h: Hash)
    requires Valid(env, p) && !p.broken && HeadHonest(env, first, Rejected(env, p, g, h).state)
    ensures Spares(env, p, OnRejected(g, h))
  {
    hide SharedTrue, Good, Bounded, RemoveCandidateTree, Finalizes, Send;
    var head, edges := p.store.head, Edges(env.chain, p.store);
    if TakesEffect(env, p, g, h) && Under(edges, h, head) {
      var sent := Send(env, p, g, BlockRejected(h), None).state;
      SendShown(env, p, g, BlockRejected(h));
      SentRejects(env, p, g, h);
      UnderOutlawed(env.chain, first, sent.shared.calls, p.store, h, head);
    }
  }

  lemma HonestTurnSpares(env: Env, first: Option<Checkpoint>, p: State, cmd: Command, now: Time)
    requires Valid(env, p) && !p.broken && HeadHeld(p.store) && Accounted(env.chain, first, p)
    requires HeadHonest(env, first, Handle(env, p, cmd, now).state)
    ensures Spares(env, p, cmd)
  {
    hide Valid, Accounted, HeadHonest, Rejected, Maintain, HeadHeld;
    match cmd
    case OnRejected(g, h) => RejectionSpares(env, first, p, g, h);
    case OnTick(due) => TickSpares(env, first, p, due, now);
    case _ =>
  }

  lemma {:induction false} HonestRunSpares(env: Env, first: Option<Checkpoint>, p: State, turns: seq<Turn>)
    requires Valid(env, p) && TurnsTrue(env, turns) && Accounted(env.chain, first, p)
    requires (!p.broken ==> HeadHeld(p.store)) && HonestThroughout(env, first, p, turns)
    ensures SparedThroughout(env, p, turns)
    decreases |turns|
  {
    hide Valid, Handle, Attempt, CommandTrue, Accounted, Outlawed, Spares, HeadHeld;
    if turns != [] {
      var q := Step(env, p, turns[0].command, turns[0].now);
      StepKeeps(env, p, turns[0].command, turns[0].now);
      StepLaw(env, first, p, turns[0].command, turns[0].now);
      if !q.broken {
        StepHolds(env, p, turns[0].command, turns[0].now);
        if !p.broken {
          HonestTurnSpares(env, first, p, turns[0].command, turns[0].now);
        }
      }
      HonestRunSpares(env, first, q, turns[1..]);
    }
  }

  /** Head survival: in every run in which no ancestor of the published head is rejected or off a
      published finalized checkpoint, the canonical head is a record that holds its projection, and all
      limits are met, whenever no error is pending. */
  lemma PublishedHeadSurvives(env: Env, limits: Limits, g: Generation, load: Load, now: Time, turns: seq<Turn>)
    requires WellFormed(env.chain) && ValidLimits(limits) && Coheres(env, load) && TurnsTrue(env, turns)
    requires HonestThroughout(env, load.view.finalized, Start(env, limits, g, load, now), turns)
    ensures var p := Run(env, Start(env, limits, g, load, now), turns);
            !p.broken ==>
              HeadHeld(p.store) && Bounded(p.store) && p.store.head == p.shared.published.canonical.block.hash
  {
    hide Run, HonestThroughout, SparedThroughout, HeldThroughout, HeadHeld, Good, SharedTrue, Bounded;
    var start := Start(env, limits, g, load, now);
    StartValid(env, limits, g, load, now);
    StartHolds(env, limits, g, load, now);
    assert Accounted(env.chain, load.view.finalized, start);
    HonestRunSpares(env, load.view.finalized, start, turns);
    HeadSurvivesExactly(env, limits, g, load, now, turns);
    HeldAtTheEnd(env, start, turns);
    RunKeeps(env, start, turns);
  }
}

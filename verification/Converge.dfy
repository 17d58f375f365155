/** The hand-off and the publisher together: each step of the publisher's thread is one of its commands, each
    engine event carries the view of its revision, and what is published at rest is the latest applied view. */
module Converge {
  import opened Types
  import opened Chain
  import opened Store
  import opened StoreInvariants
  import opened Publisher
  import opened PublisherInvariants
  import opened Shown
  import H = Handoff

  /** What nobody here chooses: the environment, the limits, the first dictionary, and the view the engine
      applies at each revision of its tracker, or None where it forgot the view. */
  datatype World = World(env: Env, limits: Limits, generation: Generation, views: nat -> Option<AppliedView>)

  /** There is no publisher before the first snapshot. */
  datatype Joint = Joint(sys: H.System, pub: Option<State>)

  /** A step of the hand-off, with the command it makes the publisher run, if it makes it run one. */
  datatype Move = Move(action: H.Action, command: Command, now: Time)

  // ----- Which command a step runs -----

  /** What a read of revision `rev` may return: its view, or the provider's own head if it has none. */
  predicate LoadOf(w: World, rev: nat, at: Time, load: Load) {
    load.Loaded? ==>
      && load.anchoredAt == at
      && (w.views(rev).Some? ==>
            && load.head == w.views(rev).value.head
            && Renders(load.view, w.views(rev).value, Number(w.env.chain, load.head)))
  }

  /** An event's command carries what the event carries. */
  predicate Carries(w: World, ev: H.Ev, cmd: Command) {
    match ev.kind
    case Forkchoice => cmd.OnForkchoice? && cmd.observedAt == ev.observed && w.views(ev.rev) == Some(cmd.applied)
    case Reset => cmd.OnStateReset? && cmd.observedAt == ev.observed && cmd.load.Failed?
    case Other => cmd.OnExecuted? || cmd.OnValidated? || cmd.OnValidatedFallback? || cmd.OnRejected?
  }

  /** Whether the publisher is between a failed command and the gap that announces it. */
  predicate OwesGap(j: Joint) {
    j.sys.pub.Recover? && j.sys.pub.load.Begin? && j.pub.Some? && !j.pub.value.shared.published.recovering
  }

  /** Whether the step makes the publisher run its command. */
  predicate Runs(j: Joint, a: H.Action) {
    match a
    case TakeLoss => H.Next(j.sys, a).pub.Recover? && !j.sys.pub.Recover?
    case Tick(_, _) => j.sys.pub.Poll?
    case HandleEvent(_) => j.sys.pub.Ready?
    case LoadTracked => OwesGap(j)
    case Confirm(stable, _) =>
      (j.sys.pub.Recover? || j.sys.pub.Activating?) && j.sys.pub.load.Stamped? && j.sys.pub.load.rev == j.sys.tracker
      && stable
    case _ => false
  }

  /** The command is the one that belongs to the step. */
  predicate Fits(w: World, j: Joint, m: Move) {
    match m.action
    case Update(kind) => (kind == H.Forkchoice) <==> w.views(j.sys.tracker + 1).Some?
    case TakeLoss => m.command.OnLoss?
    case Tick(_, _) => m.command.OnTick?
    case HandleEvent(_) => j.sys.pub.Ready? ==> Carries(w, j.sys.pub.ev, m.command)
    case LoadTracked => m.command == OnRetry(Failed)
    case Confirm(_, coherent) =>
      Runs(j, m.action) ==>
        && (if j.sys.pub.Recover? then m.command.OnRetry? else m.command.OnActivate?)
        && LoadOf(w, j.sys.tracker, j.sys.pub.load.at, m.command.load)
        && (coherent <==> Coheres(w.env, m.command.load))
        && (j.sys.pub.Activating? && j.pub.Some? ==> m.command.generation > Active(j.pub.value))
    case _ => true
  }

  // ----- Steps -----

  /** The publisher after the step: started by the first coherent snapshot, and then one command further. */
  function Acted(w: World, j: Joint, m: Move): Option<State> {
    if !Runs(j, m.action) then j.pub
    else if j.pub.Some? then Some(Step(w.env, j.pub.value, m.command, m.now))
    else if m.command.OnRetry? && Coheres(w.env, m.command.load)
    then Some(Start(w.env, w.limits, w.generation, m.command.load, m.now))
    else None
  }

  /** The hand-off is told whether the command succeeded. */
  predicate Told(j: Joint, m: Move, acted: Option<State>) {
    match m.action
    case Tick(ok, _) => Runs(j, m.action) && acted.Some? ==> (ok <==> !acted.value.broken)
    case HandleEvent(ok) => Runs(j, m.action) && acted.Some? ==> (ok <==> !acted.value.broken)
    case _ => true
  }

  /** One step of both; a step that does not fit does nothing. The gap goes out before the snapshot is read. */
  ghost function Advance(w: World, j: Joint, m: Move): Joint {
    var acted := Acted(w, j, m);
    if !Fits(w, j, m) || !Told(j, m, acted) || !CommandTrue(w.env, m.command) then j
    else if m.action.LoadTracked? && OwesGap(j) then j.(pub := acted)
    else Joint(H.Next(j.sys, m.action), acted)
  }

  ghost function JointRun(w: World, j: Joint, moves: seq<Move>): Joint
    decreases |moves|
  {
    if moves == [] then j else JointRun(w, Advance(w, j, moves[0]), moves[1..])
  }

  function JointBoot(producers: nat, capacity: nat): Joint { Joint(H.Boot(producers, capacity), None) }

  // ----- What every step keeps -----

  ghost predicate Proper(w: World) { WellFormed(w.env.chain) && ValidLimits(w.limits) }

  /** A coherent state is published, and if the revision has a view, it is that view at its own head. */
  predicate ShowsRev(w: World, p: State, rev: nat) {
    && !p.shared.published.recovering && p.shared.published.forkchoice.Some?
    && (w.views(rev).Some? ==>
          var applied := w.views(rev).value;
          ShowsApplied(p.shared, applied, Number(w.env.chain, applied.head)))
  }

  /** The publisher is broken exactly while the hand-off recovers, and announces the gap before it reads. Otherwise
      it shows the revision the hand-off says. */
  ghost predicate InStep(w: World, sys: H.System, p: State) {
    && Valid(w.env, p) && p.anchoredAt == sys.anchor && (p.broken <==> sys.pub.Recover?)
    && (sys.pub.Recover? && !sys.pub.load.Begin? ==> p.shared.published.recovering)
    && (!p.broken ==> ShowsRev(w, p, sys.shown))
  }

  ghost predicate JointOk(w: World, j: Joint) {
    H.SystemOk(j.sys) && (if j.pub.Some? then InStep(w, j.sys, j.pub.value) else j.sys.pub.Recover?)
  }

  /** A step without a command neither begins nor ends a recovery. */
  lemma QuietFrame(j: Joint, a: H.Action)
    requires !Runs(j, a)
    ensures var s, r := j.sys, H.Next(j.sys, a);
            && r.shown == s.shown && r.anchor == s.anchor && (r.pub.Recover? <==> s.pub.Recover?)
            && (r.pub.Recover? && !r.pub.load.Begin? ==> !s.pub.load.Begin? || (a.LoadTracked? && !OwesGap(j)))
  {
  }

  lemma QuietStep(w: World, j: Joint, m: Move)
    requires JointOk(w, j) && !Runs(j, m.action)
    ensures JointOk(w, Joint(H.Next(j.sys, m.action), j.pub))
  {
    hide H.SystemOk, H.Next, Valid, ShowsRev;
    H.NextKeeps(j.sys, m.action);
    QuietFrame(j, m.action);
  }

  /** The canonical block is the one its hash stands for. */
  lemma CanonicalNumber(env: Env, p: State)
    requires Valid(env, p)
    ensures p.shared.published.canonical.block.number == Number(env.chain, p.shared.published.canonical.block.hash)
  {
  }

  // ----- The commands, one by one -----

  lemma StepValid(w: World, p: State, cmd: Command, now: Time)
    requires Valid(w.env, p) && CommandTrue(w.env, cmd)
    ensures Valid(w.env, Step(w.env, p, cmd, now))
  {
    StepKeeps(w.env, p, cmd, now);
  }

  lemma LossStep(w: World, sys: H.System, p: State, now: Time)
    requires InStep(w, sys, p) && !sys.pub.Recover? && H.Next(sys, H.TakeLoss).pub.Recover?
    ensures InStep(w, H.Next(sys, H.TakeLoss), Step(w.env, p, OnLoss, now))
  {
    hide Valid, ShowsRev;
    StepValid(w, p, OnLoss, now);
  }

  /** A command that shows nothing new. */
  lemma OtherStep(w: World, sys: H.System, r: H.System, p: State, cmd: Command, now: Time)
    requires InStep(w, sys, p) && !sys.pub.Recover? && CommandTrue(w.env, cmd)
    requires cmd.OnExecuted? || cmd.OnValidated? || cmd.OnValidatedFallback? || cmd.OnRejected? || cmd.OnTick?
    requires r.shown == sys.shown && r.anchor == sys.anchor
    requires if Step(w.env, p, cmd, now).broken then exists back :: r.pub == H.Recovering(back) else !r.pub.Recover?
    ensures InStep(w, r, Step(w.env, p, cmd, now))
  {
    hide Valid, Handle;
    StepValid(w, p, cmd, now);
    OtherCommandsShowNothing(w.env, p, cmd, now);
  }

  lemma ForkchoiceStep(w: World, sys: H.System, p: State, m: Move)
    requires InStep(w, sys, p) && sys.pub.Ready? && sys.pub.ev.kind == H.Forkchoice && Carries(w, sys.pub.ev, m.command)
    requires m.action == H.HandleEvent(!Step(w.env, p, m.command, m.now).broken)
    ensures InStep(w, H.Next(sys, m.action), Step(w.env, p, m.command, m.now))
  {
    hide Valid, ForkchoiceChanged, Renders;
    var cmd, q := m.command, Step(w.env, p, m.command, m.now);
    StepValid(w, p, cmd, m.now);
    ForkchoiceIsShown(w.env, p, cmd.generation, cmd.observedAt, cmd.applied, cmd.loads, m.now);
    CanonicalNumber(w.env, q);
  }

  /** A reset announces the gap and leaves the reading to the recovery. */
  lemma ResetStep(w: World, sys: H.System, p: State, m: Move)
    requires InStep(w, sys, p) && sys.pub.Ready? && sys.pub.ev.kind == H.Reset && Carries(w, sys.pub.ev, m.command)
    requires m.action == H.HandleEvent(!Step(w.env, p, m.command, m.now).broken)
    ensures InStep(w, H.Next(sys, m.action), Step(w.env, p, m.command, m.now))
  {
    hide Valid, ShowsRev;
    StepValid(w, p, m.command, m.now);
  }

  lemma EventStep(w: World, sys: H.System, p: State, m: Move)
    requires InStep(w, sys, p) && sys.pub.Ready? && Carries(w, sys.pub.ev, m.command) && CommandTrue(w.env, m.command)
    requires m.action == H.HandleEvent(!Step(w.env, p, m.command, m.now).broken)
    ensures InStep(w, H.Next(sys, m.action), Step(w.env, p, m.command, m.now))
  {
    hide Step, InStep;
    match sys.pub.ev.kind
    case Forkchoice => ForkchoiceStep(w, sys, p, m);
    case Reset => ResetStep(w, sys, p, m);
    case Other =>
      assert !sys.pub.Recover?;
      OtherStep(w, sys, H.Next(sys, m.action), p, m.command, m.now);
  }

  lemma GapStep(w: World, sys: H.System, p: State, now: Time)
    requires InStep(w, sys, p) && sys.pub.Recover? && sys.pub.load.Begin?
    ensures InStep(w, sys, Step(w.env, p, OnRetry(Failed), now))
  {
    hide Valid, ShowsRev;
    StepValid(w, p, OnRetry(Failed), now);
  }

  lemma ReanchorStep(w: World, sys: H.System, p: State, load: Load, now: Time)
    requires InStep(w, sys, p) && sys.pub.Recover? && sys.pub.load.Stamped? && sys.pub.load.rev == sys.tracker
    requires LoadOf(w, sys.tracker, sys.pub.load.at, load)
    ensures InStep(w, H.Next(sys, H.Confirm(true, Coheres(w.env, load))), Step(w.env, p, OnRetry(load), now))
  {
    hide Valid, Renders, Reset;
    assert WellFormed(w.env.chain) by { ValidIsWellFormed(w.env, p); }
    StepValid(w, p, OnRetry(load), now);
    ReanchorIsShown(w.env, p, load, now);
  }

  lemma ValidIsWellFormed(env: Env, p: State)
    requires Valid(env, p)
    ensures WellFormed(env.chain)
  {
  }

  lemma ActivateStep(w: World, sys: H.System, p: State, g: Generation, load: Load, now: Time)
    requires InStep(w, sys, p) && sys.pub.Activating? && sys.pub.load.Stamped? && sys.pub.load.rev == sys.tracker
    requires LoadOf(w, sys.tracker, sys.pub.load.at, load) && g > Active(p)
    ensures InStep(w, H.Next(sys, H.Confirm(true, Coheres(w.env, load))), Step(w.env, p, OnActivate(g, load), now))
  {
    hide Valid, Renders, Activate;
    assert WellFormed(w.env.chain) by { ValidIsWellFormed(w.env, p); }
    StepValid(w, p, OnActivate(g, load), now);
    ActivationIsShown(w.env, p, g, load, now);
  }

  lemma FirstStep(w: World, sys: H.System, load: Load, now: Time)
    requires Proper(w) && sys.pub.Recover? && sys.pub.load.Stamped? && sys.pub.load.rev == sys.tracker
    requires LoadOf(w, sys.tracker, sys.pub.load.at, load) && Coheres(w.env, load)
    ensures InStep(w, H.Next(sys, H.Confirm(true, true)), Start(w.env, w.limits, w.generation, load, now))
  {
    hide Valid, Renders, Anchored;
    StartValid(w.env, w.limits, w.generation, load, now);
  }

  // ----- Every run -----

  lemma ConfirmStep(w: World, j: Joint, m: Move)
    requires Proper(w) && JointOk(w, j) && Fits(w, j, m) && m.action.Confirm? && Runs(j, m.action)
    ensures JointOk(w, Joint(H.Next(j.sys, m.action), Acted(w, j, m)))
  {
    hide InStep, H.SystemOk, Step, Start;
    H.NextKeeps(j.sys, m.action);
    if j.pub.None? {
      if Coheres(w.env, m.command.load) {
        FirstStep(w, j.sys, m.command.load, m.now);
      }
    } else if j.sys.pub.Recover? {
      ReanchorStep(w, j.sys, j.pub.value, m.command.load, m.now);
    } else {
      ActivateStep(w, j.sys, j.pub.value, m.command.generation, m.command.load, m.now);
    }
  }

  lemma CommandStep(w: World, j: Joint, m: Move)
    requires Proper(w) && JointOk(w, j) && Fits(w, j, m) && CommandTrue(w.env, m.command)
    requires Told(j, m, Acted(w, j, m)) && Runs(j, m.action) && !m.action.LoadTracked?
    ensures JointOk(w, Joint(H.Next(j.sys, m.action), Acted(w, j, m)))
  {
    hide InStep, H.SystemOk, Step, CommandTrue;
    if m.action.Confirm? {
      ConfirmStep(w, j, m);
    } else {
      H.NextKeeps(j.sys, m.action);
      assert j.pub.Some?;
      match m.action
      case TakeLoss => LossStep(w, j.sys, j.pub.value, m.now);
      case Tick(ok, parks) => OtherStep(w, j.sys, H.Next(j.sys, m.action), j.pub.value, m.command, m.now);
      case HandleEvent(ok) => EventStep(w, j.sys, j.pub.value, m);
    }
  }

  lemma AdvanceKeeps(w: World, j: Joint, m: Move)
    requires Proper(w) && JointOk(w, j)
    ensures JointOk(w, Advance(w, j, m))
  {
    hide InStep, H.SystemOk, H.Next, Step, Fits, CommandTrue, Runs, Told;
    var acted := Acted(w, j, m);
    if Fits(w, j, m) && Told(j, m, acted) && CommandTrue(w.env, m.command) {
      if m.action.LoadTracked? && OwesGap(j) {
        assert Runs(j, m.action) && m.command == OnRetry(Failed) by { GapFits(w, j, m); }
        GapStep(w, j.sys, j.pub.value, m.now);
      } else if Runs(j, m.action) {
        assert !m.action.LoadTracked? by { RunsIsGap(j, m.action); }
        CommandStep(w, j, m);
      } else {
        QuietStep(w, j, m);
      }
    }
  }

  lemma GapFits(w: World, j: Joint, m: Move)
    requires Fits(w, j, m) && m.action.LoadTracked? && OwesGap(j)
    ensures Runs(j, m.action) && m.command == OnRetry(Failed)
  {
  }

  lemma RunsIsGap(j: Joint, a: H.Action)
    requires Runs(j, a)
    ensures a.LoadTracked? ==> OwesGap(j)
  {
  }

  lemma {:induction false} JointRunKeeps(w: World, j: Joint, moves: seq<Move>)
    requires Proper(w) && JointOk(w, j)
    ensures JointOk(w, JointRun(w, j, moves))
    decreases |moves|
  {
    hide JointOk, Advance;
    if moves != [] {
      AdvanceKeeps(w, j, moves[0]);
      JointRunKeeps(w, Advance(w, j, moves[0]), moves[1..]);
    }
  }

  lemma JointBootOk(w: World, producers: nat, capacity: nat)
    ensures JointOk(w, JointBoot(producers, capacity))
  {
    hide H.SystemOk;
    H.BootOk(producers, capacity);
  }

  /** Outside recovery, in every interleaving, the published state is that of the revision the hand-off shows. */
  lemma ShownIsPublished(w: World, producers: nat, capacity: nat, moves: seq<Move>)
    requires Proper(w)
    ensures var j := JointRun(w, JointBoot(producers, capacity), moves);
            !j.sys.pub.Recover? ==> j.pub.Some? && !j.pub.value.broken && ShowsRev(w, j.pub.value, j.sys.shown)
  {
    hide JointRun, JointBoot, H.SystemOk, Valid, ShowsRev;
    JointBootOk(w, producers, capacity);
    JointRunKeeps(w, JointBoot(producers, capacity), moves);
  }

  /** Convergence: whatever was dropped, failed or raced, once all is quiet no loss is pending, and consumers are
      shown the head and the view the engine applied last, or a snapshot if it has forgotten its view. */
  lemma PublishedConverges(w: World, producers: nat, capacity: nat, moves: seq<Move>)
    requires Proper(w)
    ensures var j := JointRun(w, JointBoot(producers, capacity), moves);
            H.Quiescent(j.sys) ==>
              && j.sys.word == 0 && j.pub.Some? && Valid(w.env, j.pub.value)
              && !j.pub.value.broken && ShowsRev(w, j.pub.value, j.sys.tracker)
  {
    hide JointRun, JointBoot, H.SystemOk, Valid, ShowsRev;
    JointBootOk(w, producers, capacity);
    JointRunKeeps(w, JointBoot(producers, capacity), moves);
    var j := JointRun(w, JointBoot(producers, capacity), moves);
    if H.Quiescent(j.sys) {
      H.QuietIsCovered(j.sys);
    }
  }

  // ----- Every event has its command -----

  predicate Matches(w: World, ev: H.Ev) { ev.kind == H.Forkchoice ==> w.views(ev.rev).Some? }

  ghost predicate AllMatch(w: World, s: H.System) {
    && (forall i :: 0 <= i < |H.Front(s.pub)| ==> Matches(w, H.Front(s.pub)[i]))
    && (forall i :: 0 <= i < |s.queue| ==> Matches(w, s.queue[i]))
    && (forall i :: 0 <= i < |s.pcs| && (s.pcs[i].Holding? || s.pcs[i].Reserved?) ==> Matches(w, s.pcs[i].ev))
    && (forall i :: 0 <= i < |s.pcs| && s.pcs[i].Tracked? && s.pcs[i].kind == H.Forkchoice ==> w.views(s.tracker).Some?)
  }

  lemma ProducerMatches(w: World, s: H.System, a: H.Action)
    requires H.EngineOnly(s.pcs) && AllMatch(w, s) && !H.ByPublisher(a)
    requires a.Update? && a.kind == H.Forkchoice ==> w.views(s.tracker + 1).Some?
    ensures AllMatch(w, H.Next(s, a))
  {
    H.ProducerFrame(s, a);
    H.MoverFrame(s, a);
  }

  lemma PublisherMatches(w: World, s: H.System, a: H.Action)
    requires AllMatch(w, s) && H.ByPublisher(a)
    ensures AllMatch(w, H.Next(s, a))
  {
    hide H.Next, H.Front, Matches;
    H.PublisherFrame(s, a);
    H.FrontFrame(s, a);
  }

  lemma {:induction false} RunMatches(w: World, j: Joint, moves: seq<Move>)
    requires Proper(w) && JointOk(w, j) && AllMatch(w, j.sys)
    ensures AllMatch(w, JointRun(w, j, moves).sys)
    decreases |moves|
  {
    hide JointOk, H.Next, AllMatch, Acted, Told, CommandTrue;
    if moves != [] {
      assert H.EngineOnly(j.sys.pcs) by { EngineOnlyIn(w, j); }
      if H.ByPublisher(moves[0].action) {
        PublisherMatches(w, j.sys, moves[0].action);
      } else if Fits(w, j, moves[0]) {
        ProducerMatches(w, j.sys, moves[0].action);
      }
      AdvanceKeeps(w, j, moves[0]);
      RunMatches(w, Advance(w, j, moves[0]), moves[1..]);
    }
  }

  lemma EngineOnlyIn(w: World, j: Joint)
    requires JointOk(w, j)
    ensures H.EngineOnly(j.sys.pcs)
  {
  }

  /** No event waits for a command that does not exist: a forkchoice event's revision always has its view. */
  lemma EveryEventHasItsCommand(w: World, producers: nat, capacity: nat, moves: seq<Move>) returns (cmd: Command)
    requires Proper(w)
    ensures var j := JointRun(w, JointBoot(producers, capacity), moves);
            j.sys.pub.Ready? ==> Carries(w, j.sys.pub.ev, cmd) && CommandTrue(w.env, cmd)
  {
    hide JointRun, JointOk;
    var boot := JointBoot(producers, capacity);
    JointBootOk(w, producers, capacity);
    RunMatches(w, boot, moves);
    var j := JointRun(w, boot, moves);
    cmd := OnRejected(0, 0);
    if j.sys.pub.Ready? {
      var ev := j.sys.pub.ev;
      assert H.Front(j.sys.pub)[0] == ev;
      if ev.kind == H.Forkchoice {
        cmd := OnForkchoice(ev.observed, 0, w.views(ev.rev).value, false);
      } else if ev.kind == H.Reset {
        cmd := OnStateReset(ev.observed, 0, Failed);
      }
    }
  }

  // ----- A reset in one command or in two -----

  /** Leaving the read of a reset to the recovery makes no difference: a reset whose read fails, then a retry that
      reads, publishes what the reset would have published had it read at once. */
  lemma ResetThenRetry(env: Env, p: State, at: Time, g: Generation, load: Load, now: Time)
    requires !p.broken && g <= Active(p) && at > p.anchoredAt && AnnounceGap(env, p).ok
    ensures Step(env, Step(env, p, OnStateReset(at, g, Failed), now), OnRetry(load), now)
            == Step(env, p, OnStateReset(at, g, load), now)
  {
  }
}

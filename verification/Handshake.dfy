/** A consumer attaching while the publisher is at work, one atomic step of either at a time. */
module Handshake {
  import opened Types
  import opened Chain
  import opened Store
  import opened StoreInvariants
  import opened Wire
  import opened Publisher
  import opened PublisherInvariants
  import opened Discipline
  import opened Stream

  /** How far the publisher is with its current attempt. */
  datatype Micro = Idle | Allocated | Encoded | Stored | Committed

  /** How far the consumer's connection is. */
  datatype Attach =
    | Away
    | Subscribed
    | HasCommitted(committed: nat)
    | Attached(baseline: nat, state: Published)
    | Refused
    | Lagging(baseline: nat, state: Published)

  /** `finished` attempts are over. `inbox` is the consumer's part of the broadcast channel, which
      overwrites its oldest frame when full. `joined` remembers `finished` as of the subscription,
      `delivered` what was written to the consumer after the handshake. */
  datatype System = System(
    finished: nat,
    micro: Micro,
    committed: nat,
    published: Published,
    attach: Attach,
    joined: nat,
    inbox: seq<nat>,
    overrun: bool,
    delivered: seq<nat>)

  datatype Action = Allocate | Encode | StoreState | Commit | Transmit | Subscribe | LoadCommitted | LoadState | Receive

  predicate Listening(s: System) { s.attach.Subscribed? || s.attach.HasCommitted? || s.attach.Attached? }

  predicate Presentable(state: Published) {
    !state.recovering && state.forkchoice.Some?
    && state.forkchoice.value.head == Checkpoint(state.canonical.block.number, state.canonical.block.hash)
  }

  function Max(a: nat, b: nat): nat { if a < b then b else a }

  /** Sends the frame of the current attempt to a listening consumer. */
  function Broadcast(capacity: nat, s: System): System {
    if !Listening(s) then s
    else if |s.inbox| < capacity then s.(inbox := s.inbox + [s.finished + 1])
    else s.(inbox := (s.inbox + [s.finished + 1])[1..], overrun := true)
  }

  /** One step; an action that is not enabled does nothing. */
  function Next(script: seq<Call>, capacity: nat, s: System, a: Action): System {
    match a
    case Allocate => if s.micro.Idle? && s.finished < |script| then s.(micro := Allocated) else s
    case Encode =>
      if s.micro.Allocated? && s.finished < |script| then
        if script[s.finished].encoded then s.(micro := Encoded) else s.(micro := Idle, finished := s.finished + 1)
      else s
    case StoreState =>
      if s.micro.Encoded? && s.finished < |script| then
        s.(micro := Stored,
           published := if script[s.finished].next.Some? then script[s.finished].next.value else s.published)
      else s
    case Commit => if s.micro.Stored? then s.(micro := Committed, committed := s.finished + 1) else s
    case Transmit =>
      if s.micro.Committed? then Broadcast(capacity, s).(micro := Idle, finished := s.finished + 1) else s
    case Subscribe =>
      if s.attach.Away? then s.(attach := Subscribed, joined := s.finished, inbox := [], overrun := false) else s
    case LoadCommitted => if s.attach.Subscribed? then s.(attach := HasCommitted(s.committed)) else s
    case LoadState =>
      if !s.attach.HasCommitted? then s
      else if Presentable(s.published)
      then s.(attach := Attached(Max(s.attach.committed, s.published.effectiveSequence), s.published), delivered := [])
      else s.(attach := Refused)
    case Receive =>
      if !s.attach.Attached? then s
      else if s.overrun then s.(attach := Lagging(s.attach.baseline, s.attach.state))
      else if s.inbox == [] then s
      else if s.inbox[0] > s.attach.baseline then s.(inbox := s.inbox[1..], delivered := s.delivered + [s.inbox[0]])
      else s.(inbox := s.inbox[1..])
  }

  function Schedule(script: seq<Call>, capacity: nat, s: System, actions: seq<Action>): System
    decreases |actions|
  {
    if actions == [] then s else Schedule(script, capacity, Next(script, capacity, s, actions[0]), actions[1..])
  }

  function Boot(first: Published): System {
    System(0, Idle, 0, first, Away, 0, [], false, [])
  }

  // ----- The log and its prefixes -----

  function Above(sequences: seq<nat>, baseline: nat): seq<nat> {
    if sequences == [] then []
    else (if sequences[0] > baseline then [sequences[0]] else []) + Above(sequences[1..], baseline)
  }

  lemma {:induction false} AboveAppend(a: seq<nat>, b: seq<nat>, baseline: nat)
    ensures Above(a + b, baseline) == Above(a, baseline) + Above(b, baseline)
    decreases |a|
  {
    if a == [] {
      assert a + b == b;
    } else {
      AboveAppend(a[1..], b, baseline);
      assert (a + b)[1..] == a[1..] + b;
      var front := if a[0] > baseline then [a[0]] else [];
      var x, y := Above(a[1..], baseline), Above(b, baseline);
      assert Above(a + b, baseline) == front + (x + y) && Above(a, baseline) == front + x;
      assert front + (x + y) == (front + x) + y;
    }
  }

  /** A sequence that was committed, or none. */
  ghost predicate Marked(script: seq<Call>, n: nat) { n == 0 || (n <= |script| && script[n - 1].encoded) }

  lemma {:induction false} CommittedIsLast(script: seq<Call>, k: nat, n: nat)
    requires k <= |script| && 0 < n <= k && script[n - 1].encoded
    ensures n <= CommittedAfter(script[..k])
    decreases k
  {
    assert script[..k][..k - 1] == script[..k - 1];
    if n < k && !script[k - 1].encoded {
      CommittedIsLast(script, k - 1, n);
    }
  }

  lemma {:induction false} CommittedIsMarked(script: seq<Call>, k: nat)
    requires k <= |script|
    ensures CommittedAfter(script[..k]) <= k && Marked(script, CommittedAfter(script[..k]))
    decreases k
  {
    if k > 0 {
      assert script[..k][..k - 1] == script[..k - 1];
      CommittedIsMarked(script, k - 1);
    }
  }

  lemma CommittedGrows(script: seq<Call>, k: nat)
    requires k < |script|
    ensures CommittedAfter(script[..k + 1]) == if script[k].encoded then k + 1 else CommittedAfter(script[..k])
  {
    assert script[..k + 1][..k] == script[..k];
  }

  lemma StateGrows(first: Published, script: seq<Call>, k: nat)
    requires k < |script|
    ensures StateAfter(first, script[..k + 1])
         == if script[k].encoded && script[k].next.Some? then script[k].next.value else StateAfter(first, script[..k])
  {
    assert script[..k + 1][..k] == script[..k];
  }

  /** The state a log leaves was already there at the sequence it is tagged with, and has not
      changed since. */
  lemma {:induction false} StateSince(first: Published, script: seq<Call>, k: nat)
    requires k <= |script| && AllTagged(script) && first.effectiveSequence == 0
    ensures var state := StateAfter(first, script[..k]);
            && state.effectiveSequence <= k && Marked(script, state.effectiveSequence)
            && forall b :: state.effectiveSequence <= b <= k ==> StateAfter(first, script[..b]) == state
    decreases k
  {
    if k > 0 {
      StateGrows(first, script, k - 1);
      StateSince(first, script, k - 1);
      assert Tagged(k, script[k - 1]);
      var state := StateAfter(first, script[..k]);
      forall b | state.effectiveSequence <= b <= k
        ensures StateAfter(first, script[..b]) == state
      {
        if b < k {
          assert b <= k - 1;
        }
      }
    }
  }

  lemma EmittedGrows(script: seq<Call>, a: nat, k: nat)
    requires k < |script|
    ensures Emitted(script, a, k + 1)
         == if a <= k && script[k].encoded then Emitted(script, a, k) + [k + 1] else Emitted(script, a, k)
  {
  }

  lemma AboveOne(a: seq<nat>, n: nat, baseline: nat)
    ensures Above(a + [n], baseline) == if n > baseline then Above(a, baseline) + [n] else Above(a, baseline)
  {
    AboveAppend(a, [n], baseline);
    assert [n][1..] == [];
  }

  /** Frames above the baseline are the same whether counted from the subscription or from the
      baseline, as long as everything committed before the subscription is below it. */
  lemma {:induction false} EmittedAbove(script: seq<Call>, joined: nat, baseline: nat, k: nat)
    requires joined <= k <= |script| && CommittedAfter(script[..joined]) <= baseline
    ensures Above(Emitted(script, joined, k), baseline) == Emitted(script, baseline, k)
    decreases k
  {
    hide CommittedAfter, Emitted, Above;
    if k == joined {
      NothingBetween(script, joined, baseline, k);
      assert Emitted(script, joined, k) == [] && Above([], baseline) == [] by { NoneEmitted(script, joined, baseline); }
    } else {
      EmittedAbove(script, joined, baseline, k - 1);
      EmittedGrows(script, joined, k - 1);
      EmittedGrows(script, baseline, k - 1);
      AboveOne(Emitted(script, joined, k - 1), k, baseline);
    }
  }

  lemma NoneEmitted(script: seq<Call>, a: nat, baseline: nat)
    requires a <= |script|
    ensures Emitted(script, a, a) == [] && Above([], baseline) == []
  {
  }

  lemma {:induction false} NothingBetween(script: seq<Call>, joined: nat, baseline: nat, k: nat)
    requires k <= joined <= |script| && CommittedAfter(script[..joined]) <= baseline
    ensures Emitted(script, baseline, k) == []
    decreases k
  {
    if baseline < k {
      NothingBetween(script, joined, baseline, k - 1);
      if script[k - 1].encoded {
        CommittedIsLast(script, joined, k);
      }
    }
  }

  // ----- The invariant -----

  function StoredUpTo(s: System): nat { if s.micro.Stored? || s.micro.Committed? then s.finished + 1 else s.finished }

  function CommittedUpTo(s: System): nat { if s.micro.Committed? then s.finished + 1 else s.finished }

  ghost predicate PublisherOk(first: Published, script: seq<Call>, s: System) {
    && StoredUpTo(s) <= |script| && s.finished <= |script|
    && (s.micro.Encoded? || s.micro.Stored? || s.micro.Committed? ==>
          s.finished < |script| && script[s.finished].encoded)
    && s.published == StateAfter(first, script[..StoredUpTo(s)])
    && s.committed == CommittedAfter(script[..CommittedUpTo(s)])
  }

  /** A committed sequence no older than the subscription. */
  ghost predicate Baseline(script: seq<Call>, joined: nat, limit: nat, n: nat) {
    && joined <= |script| && CommittedAfter(script[..joined]) <= n <= limit && Marked(script, n)
  }

  /** The handshake state is the fold of all state-changing frames up to the baseline. */
  ghost predicate Linearised(first: Published, script: seq<Call>, joined: nat, limit: nat, baseline: nat,
                             state: Published) {
    && Baseline(script, joined, limit, baseline) && limit <= |script|
    && state == StateAfter(first, script[..baseline]) && Presentable(state)
  }

  ghost predicate InboxOk(script: seq<Call>, s: System) {
    && s.joined <= s.finished <= |script|
    && (!s.overrun && (s.attach.Subscribed? || s.attach.HasCommitted?) ==>
          s.inbox == Emitted(script, s.joined, s.finished))
    && (!s.overrun && s.attach.Attached? ==>
          s.delivered + Above(s.inbox, s.attach.baseline) == Emitted(script, s.attach.baseline, s.finished))
    && (s.attach.Attached? || s.attach.Lagging? ==>
          s.delivered <= Emitted(script, s.attach.baseline, s.finished))
  }

  ghost predicate ConsumerOk(first: Published, script: seq<Call>, s: System) {
    match s.attach
    case HasCommitted(n) => Baseline(script, s.joined, CommittedUpTo(s), n)
    case Attached(b, state) => Linearised(first, script, s.joined, StoredUpTo(s), b, state)
    case Lagging(b, state) => Linearised(first, script, s.joined, StoredUpTo(s), b, state)
    case _ => true
  }

  ghost predicate SystemOk(first: Published, script: seq<Call>, s: System) {
    PublisherOk(first, script, s) && InboxOk(script, s) && ConsumerOk(first, script, s)
  }

  lemma TransmitInbox(script: seq<Call>, capacity: nat, s: System)
    requires InboxOk(script, s) && s.finished < |script| && script[s.finished].encoded
    ensures InboxOk(script, Broadcast(capacity, s).(micro := Idle, finished := s.finished + 1))
  {
    hide Emitted, Above;
    var n := s.finished + 1;
    EmittedGrows(script, s.joined, s.finished);
    if s.attach.Attached? || s.attach.Lagging? {
      var b := s.attach.baseline;
      EmittedGrows(script, b, s.finished);
      AboveOne(s.inbox, n, b);
      assert s.delivered + (Above(s.inbox, b) + [n]) == s.delivered + Above(s.inbox, b) + [n];
    }
  }

  lemma TransmitKeeps(first: Published, script: seq<Call>, capacity: nat, s: System)
    requires SystemOk(first, script, s) && s.micro.Committed?
    ensures SystemOk(first, script, Next(script, capacity, s, Transmit))
  {
    hide Emitted, Above, StateAfter, CommittedAfter, InboxOk;
    TransmitInbox(script, capacity, s);
  }

  lemma EncodeKeeps(first: Published, script: seq<Call>, capacity: nat, s: System)
    requires SystemOk(first, script, s) && s.micro.Allocated?
    ensures SystemOk(first, script, Next(script, capacity, s, Encode))
  {
    if s.finished < |script| && !script[s.finished].encoded {
      CommittedGrows(script, s.finished);
      StateGrows(first, script, s.finished);
      if s.attach.Attached? || s.attach.Lagging? {
        assert Emitted(script, s.attach.baseline, s.finished + 1) == Emitted(script, s.attach.baseline, s.finished);
      }
    }
  }

  lemma AttachKeeps(first: Published, script: seq<Call>, capacity: nat, s: System)
    requires SystemOk(first, script, s) && s.attach.HasCommitted? && AllTagged(script) && first.effectiveSequence == 0
    ensures SystemOk(first, script, Next(script, capacity, s, LoadState))
  {
    hide Emitted, Above, StateAfter, CommittedAfter;
    var b := Max(s.attach.committed, s.published.effectiveSequence);
    StateSince(first, script, StoredUpTo(s));
    assert StateAfter(first, script[..b]) == s.published;
    EmittedAbove(script, s.joined, b, s.finished);
    assert [] + Above(s.inbox, b) == Above(s.inbox, b);
  }

  lemma CommitKeeps(first: Published, script: seq<Call>, capacity: nat, s: System, a: Action)
    requires SystemOk(first, script, s) && (a.Allocate? || a.StoreState? || a.Commit?)
    ensures SystemOk(first, script, Next(script, capacity, s, a))
  {
    hide Emitted, Above;
    if s.finished < |script| {
      CommittedGrows(script, s.finished);
      StateGrows(first, script, s.finished);
    }
  }

  lemma SubscribeKeeps(first: Published, script: seq<Call>, capacity: nat, s: System, a: Action)
    requires SystemOk(first, script, s) && (a.Subscribe? || a.LoadCommitted?)
    ensures SystemOk(first, script, Next(script, capacity, s, a))
  {
    hide StateAfter, Above;
    CommittedIsMarked(script, CommittedUpTo(s));
    if s.attach.Subscribed? {
      CommittedOrdered(script, s.joined, CommittedUpTo(s));
    }
  }

  lemma {:induction false} CommittedOrdered(script: seq<Call>, j: nat, k: nat)
    requires j <= k <= |script|
    ensures CommittedAfter(script[..j]) <= CommittedAfter(script[..k])
    decreases k
  {
    if j < k {
      CommittedOrdered(script, j, k - 1);
      CommittedGrows(script, k - 1);
      CommittedIsMarked(script, k - 1);
    }
  }

  lemma ReceiveKeeps(first: Published, script: seq<Call>, capacity: nat, s: System)
    requires SystemOk(first, script, s) && s.attach.Attached?
    ensures SystemOk(first, script, Next(script, capacity, s, Receive))
  {
    hide StateAfter, CommittedAfter, Emitted;
    var b := s.attach.baseline;
    if !s.overrun && s.inbox != [] && s.inbox[0] > b {
      assert s.delivered + [s.inbox[0]] + Above(s.inbox[1..], b) == s.delivered + Above(s.inbox, b);
    }
  }

  lemma NextKeeps(first: Published, script: seq<Call>, capacity: nat, s: System, a: Action)
    requires SystemOk(first, script, s) && AllTagged(script) && first.effectiveSequence == 0
    ensures SystemOk(first, script, Next(script, capacity, s, a))
  {
    hide SystemOk;
    match a
    case Encode => if s.micro.Allocated? { EncodeKeeps(first, script, capacity, s); }
    case Transmit => if s.micro.Committed? { TransmitKeeps(first, script, capacity, s); }
    case LoadState => if s.attach.HasCommitted? { AttachKeeps(first, script, capacity, s); }
    case Receive => if s.attach.Attached? { ReceiveKeeps(first, script, capacity, s); }
    case Subscribe => SubscribeKeeps(first, script, capacity, s, a);
    case LoadCommitted => SubscribeKeeps(first, script, capacity, s, a);
    case _ => CommitKeeps(first, script, capacity, s, a);
  }

  lemma {:induction false} ScheduleKeeps(first: Published, script: seq<Call>, capacity: nat, s: System,
                                         actions: seq<Action>)
    requires SystemOk(first, script, s) && AllTagged(script) && first.effectiveSequence == 0
    ensures SystemOk(first, script, Schedule(script, capacity, s, actions))
    decreases |actions|
  {
    hide SystemOk, Next;
    if actions != [] {
      NextKeeps(first, script, capacity, s, actions[0]);
      ScheduleKeeps(first, script, capacity, Next(script, capacity, s, actions[0]), actions[1..]);
    }
  }

  // ----- Theorems -----

  /** Handshake linearizability, for every interleaving: an accepted handshake state is the fold of
      all state-changing frames up to the baseline; what the consumer is then written is an initial
      part of the frames above the baseline, each once and in order; and unless it was overrun, only
      what still waits in its inbox is missing. */
  lemma HandshakeLinearizable(first: Published, script: seq<Call>, capacity: nat, actions: seq<Action>)
    requires AllTagged(script) && first.effectiveSequence == 0
    ensures var s := Schedule(script, capacity, Boot(first), actions);
            && s.finished <= |script|
            && (s.attach.Attached? || s.attach.Lagging? ==>
                  && s.attach.baseline <= |script|
                  && s.attach.state == StateAfter(first, script[..s.attach.baseline])
                  && s.delivered <= Emitted(script, s.attach.baseline, s.finished))
            && (s.attach.Attached? && !s.overrun ==>
                  s.delivered + Above(s.inbox, s.attach.baseline) == Emitted(script, s.attach.baseline, s.finished))
  {
    hide Schedule, Emitted, Above;
    assert SystemOk(first, script, Boot(first));
    ScheduleKeeps(first, script, capacity, Boot(first), actions);
  }

  lemma {:induction false} StateTrue(c: Chain, first: Published, calls: seq<Call>)
    requires PublishedTrue(c, first) && forall i :: 0 <= i < |calls| ==> CallTrue(c, calls[i])
    ensures PublishedTrue(c, StateAfter(first, calls))
    decreases |calls|
  {
    hide PublishedTrue;
    if calls != [] {
      var before := calls[..|calls| - 1];
      assert forall i :: 0 <= i < |before| ==> before[i] == calls[i];
      StateTrue(c, first, before);
    }
  }

  /** The handshake itself is accepted and leaves the reader in step with the log. */
  lemma HandshakeRead(c: Chain, first: Published, script: seq<Call>, baseline: nat, state: Published)
    requires WellFormed(c) && After(first.canonical.generation, script).Some? && AllTagged(script)
    requires baseline <= |script| && Marked(script, baseline)
    requires state == StateAfter(first, script[..baseline]) && Presentable(state) && PublishedTrue(c, state)
    ensures After(first.canonical.generation, script[..baseline]).Some?
    ensures var r := ReadAll(NEW_READER, Greeting(c, baseline, state));
            r.Some? && InStep(c, After(first.canonical.generation, script[..baseline]).value, r.value)
  {
    hide After, StateAfter, WellFormed, CommittedAfter;
    var before := script[..baseline];
    PrefixMood(first.canonical.generation, script, baseline);
    assert forall i :: 0 <= i < |before| ==> before[i] == script[i];
    MoodGeneration(first, before);
    MoodCommitted(first.canonical.generation, before);
    MarkedIsCommitted(script, baseline);
    TruthSize(c, state.canonical.generation, state.canonical.block.hash);
    var h := Greeting(c, baseline, state);
    var first := ReadAll(NEW_READER, h[..1]);
    assert h[..1][..0] == [];
    assert h[..2][..1] == h[..1];
    assert h[..3][..2] == h[..2];
    assert h[..3] == h;
    assert ReadAll(NEW_READER, h[..1]) == Read(NEW_READER, h[0]);
    assert ReadAll(NEW_READER, h[..2]) == Read(first.value, h[1]);
  }

  lemma MarkedIsCommitted(script: seq<Call>, n: nat)
    requires n <= |script| && Marked(script, n)
    ensures CommittedAfter(script[..n]) == n
  {
  }

  lemma {:induction false} ReadConcat(r: Reader, a: seq<Frame>, b: seq<Frame>)
    requires ReadAll(r, a).Some?
    ensures ReadAll(r, a + b) == ReadAll(ReadAll(r, a).value, b)
    decreases |b|
  {
    hide Read;
    if b == [] {
      assert a + b == a;
    } else {
      ReadConcat(r, a, b[..|b| - 1]);
      assert (a + b)[..|a + b| - 1] == a + b[..|b| - 1];
    }
  }

  /** Stream acceptance: whatever run produced the log, however the consumer's handshake interleaved
      with it and wherever it stopped, the reader accepts the handshake and every frame delivered
      after it: sequence holes, gaps, dictionaries and snapshots are where it demands them, and every
      payload fits the dictionary in force. */
  lemma EveryStreamIsAccepted(env: Env, limits: Limits, g: Generation, load: Load, now: Time, turns: seq<Turn>,
                              capacity: nat, actions: seq<Action>)
    requires WellFormed(env.chain) && ValidLimits(limits) && Coheres(env, load) && TurnsTrue(env, turns)
    ensures var start := Start(env, limits, g, load, now);
            var script := Run(env, start, turns).shared.calls;
            var s := Schedule(script, capacity, Boot(start.shared.published), actions);
            s.attach.Attached? || s.attach.Lagging? ==>
              && s.attach.state.forkchoice.Some?
              && ReadAll(NEW_READER,
                         Greeting(env.chain, s.attach.baseline, s.attach.state) + FramesOf(script, s.delivered)).Some?
  {
    hide Run, Start, Schedule, SharedTrue, Bounded, Orderly;
    var start := Start(env, limits, g, load, now);
    var p := Run(env, start, turns);
    var first, script := start.shared.published, p.shared.calls;
    StartIsFirst(env, limits, g, load, now);
    LogIsTrue(env, limits, g, load, now, turns);
    EveryRunIsOrderly(env, limits, g, load, now, turns);
    OrderlyLog(first, p.shared, p.broken);
    assert SystemOk(first, script, Boot(first));
    ScheduleKeeps(first, script, capacity, Boot(first), actions);
    var s := Schedule(script, capacity, Boot(first), actions);
    if s.attach.Attached? || s.attach.Lagging? {
      assert forall i :: 0 <= i < |script| ==> CallTrue(env.chain, script[i]) by { LogTrue(env.chain, p.shared); }
      assert PublishedTrue(env.chain, first) by { StartTrue(env, limits, g, load, now); }
      DeliveredAccepted(env.chain, first, script, s);
    }
  }

  lemma StartIsFirst(env: Env, limits: Limits, g: Generation, load: Load, now: Time)
    requires load.Loaded?
    ensures Start(env, limits, g, load, now).shared.published.effectiveSequence == 0
  {
  }

  lemma StartTrue(env: Env, limits: Limits, g: Generation, load: Load, now: Time)
    requires WellFormed(env.chain) && ValidLimits(limits) && Coheres(env, load)
    ensures PublishedTrue(env.chain, Start(env, limits, g, load, now).shared.published)
  {
    hide Start;
    StartValid(env, limits, g, load, now);
  }

  lemma LogTrue(c: Chain, sh: Shared)
    requires SharedTrue(c, sh)
    ensures forall i :: 0 <= i < |sh.calls| ==> CallTrue(c, sh.calls[i])
  {
  }

  lemma OrderlyLog(first: Published, sh: Shared, broken: bool)
    requires Orderly(first, sh, broken)
    ensures AllTagged(sh.calls) && After(first.canonical.generation, sh.calls).Some?
  {
  }

  lemma DeliveredAccepted(c: Chain, first: Published, script: seq<Call>, s: System)
    requires WellFormed(c) && PublishedTrue(c, first) && forall i :: 0 <= i < |script| ==> CallTrue(c, script[i])
    requires AllTagged(script) && After(first.canonical.generation, script).Some?
    requires SystemOk(first, script, s) && (s.attach.Attached? || s.attach.Lagging?)
    ensures ReadAll(NEW_READER, Greeting(c, s.attach.baseline, s.attach.state) + FramesOf(script, s.delivered)).Some?
  {
    hide CallTrue, PublishedTrue, WellFormed, InStep, After, StateAfter, Emitted, Read, CommittedAfter, ReadAll,
         Greeting, FramesOf;
    var b, state := s.attach.baseline, s.attach.state;
    var before := script[..b];
    assert forall i :: 0 <= i < |before| ==> before[i] == script[i];
    StateTrue(c, first, before);
    HandshakeRead(c, first, script, b, state);
    var r := ReadAll(NEW_READER, Greeting(c, b, state)).value;
    ReadsOn(c, first.canonical.generation, script, b, |script|, r);
    EmittedPrefix(script, b, s.finished, |script|);
    PrefixRead(script, s.delivered, Emitted(script, b, |script|), r);
    ReadConcat(NEW_READER, Greeting(c, b, state), FramesOf(script, s.delivered));
  }

  lemma PrefixRead(script: seq<Call>, part: seq<nat>, all: seq<nat>, r: Reader)
    requires part <= all && ReadAll(r, FramesOf(script, all)).Some?
    ensures ReadAll(r, FramesOf(script, part)).Some?
  {
    hide ReadAll;
    assert FramesOf(script, part) == FramesOf(script, all)[..|part|];
    PrefixAccepted(r, FramesOf(script, all), |part|);
  }

  lemma {:induction false} EmittedPrefix(script: seq<Call>, b: nat, j: nat, k: nat)
    requires j <= k <= |script|
    ensures Emitted(script, b, j) <= Emitted(script, b, k)
    decreases k
  {
    if j < k {
      EmittedPrefix(script, b, j, k - 1);
    }
  }

  /** A consumer that asks is served exactly if the state stored at that moment is not in recovery and has a view of its
      own head; and its baseline is then no older than what was committed when it subscribed. */
  lemma ServedExactly(first: Published, script: seq<Call>, capacity: nat, actions: seq<Action>)
    requires AllTagged(script) && first.effectiveSequence == 0
    ensures var s := Schedule(script, capacity, Boot(first), actions);
            s.attach.HasCommitted? ==>
              var r, k := Next(script, capacity, s, LoadState), StoredUpTo(s);
              && k <= |script| && s.joined <= |script|
              && var state := StateAfter(first, script[..k]);
                 if !state.recovering && state.forkchoice.Some?
                    && state.forkchoice.value.head.hash == state.canonical.block.hash
                    && state.forkchoice.value.head.number == state.canonical.block.number
                 then r.attach.Attached? && r.attach.state == state
                      && r.attach.baseline >= CommittedAfter(script[..s.joined])
                 else r.attach.Refused?
  {
    hide Schedule, Emitted, Above;
    assert SystemOk(first, script, Boot(first));
    ScheduleKeeps(first, script, capacity, Boot(first), actions);
  }

  function Receives(n: nat): seq<Action> { seq(n, _ => Receive) }

  /** A consumer that was not overrun is written its whole inbox, one frame at a time. */
  lemma {:induction false} InboxDrains(script: seq<Call>, capacity: nat, s: System)
    requires s.attach.Attached? && !s.overrun
    ensures Schedule(script, capacity, s, Receives(|s.inbox|))
         == s.(inbox := [], delivered := s.delivered + Above(s.inbox, s.attach.baseline))
    decreases |s.inbox|
  {
    if s.inbox == [] {
      assert Receives(0) == [];
    } else {
      var r := Next(script, capacity, s, Receive);
      InboxDrains(script, capacity, r);
      assert Receives(|s.inbox|)[1..] == Receives(|r.inbox|);
    }
  }
}

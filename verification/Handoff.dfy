/** The lossy hand-off from the engine to the publisher, and how the publisher re-anchors after a
    loss: racing producers and one publisher, one atomic step at a time. */
module Handoff {
  import opened LossWord

  datatype Kind = Forkchoice | Reset | Other

  /** An event on its way. `rev` is the tracker revision an engine event announces. `seen` remembers
      how many drops had been recorded when the event got its reservation. */
  datatype Ev = Ev(kind: Kind, rev: nat, observed: nat, seen: nat)

  /** A producer's place in its call. */
  datatype Pc =
    | Idle
    | Tracked(kind: Kind)
    | Holding(ev: Ev)
    | Reserved(ev: Ev)
    | Full
    | Releasing
    | Dropping
    | Notifying

  /** The optimistic read of the latest snapshot. */
  datatype Load = Begin(attempt: nat) | Read(attempt: nat, rev: nat) | Stamped(attempt: nat, rev: nat, at: nat)

  const MAX_ATTEMPTS: nat := 4

  /** Where the publisher continues once it has recovered. */
  datatype Back = ToTop | ToPoll | ToEvent(ev: Ev) | ToControl

  datatype Pub =
    | Top
    | Poll
    | Got(ev: Ev)
    | GotControl
    | Ready(ev: Ev)
    | ReadyControl
    | Recover(back: Back, load: Load)
    | Activating(load: Load)

  /** Producer 0 is the engine's event loop, the only one that moves the tracker. Outside
      recovery `shown` is the revision the published state covers; `anchor` is the time of the last snapshot. `holder`,
      `recorded`, `returned`, `overflowed`, `taken` and `recovered` are history. */
  datatype System = System(
    word: nat,
    holder: int,
    pcs: seq<Pc>,
    queue: seq<Ev>,
    capacity: nat,
    token: bool,
    tracker: nat,
    clock: nat,
    pub: Pub,
    shown: nat,
    anchor: nat,
    recorded: nat,
    returned: nat,
    overflowed: nat,
    taken: nat,
    recovered: nat)

  datatype Action =
    | Update(kind: Kind)
    | Observe(i: nat)
    | Reserve(i: nat)
    | Enqueue(i: nat)
    | Record(i: nat)
    | Release(i: nat)
    | Notify(i: nat)
    | TakeLoss
    | Wake
    | Dequeue
    | TakeControl
    | Tick(ok: bool, parks: bool)
    | HandleEvent(ok: bool)
    | HandleControl(newer: bool)
    | LoadTracked
    | LoadAt(ok: bool)
    | Confirm(stable: bool, coherent: bool)

  // ----- Producers -----

  /** The engine moves the tracker before it says so; then every producer stamps its event. */
  function Stamp(s: System, i: nat): System
    requires i < |s.pcs|
  {
    var now := s.clock + 1;
    if s.pcs[i].Tracked? then s.(clock := now, pcs := s.pcs[i := Holding(Ev(s.pcs[i].kind, s.tracker, now, 0))])
    else if s.pcs[i].Idle? then s.(clock := now, pcs := s.pcs[i := Holding(Ev(Other, 0, now, 0))])
    else s
  }

  function TryReserve(s: System, i: nat): System
    requires i < |s.pcs|
  {
    if !s.pcs[i].Holding? then s
    else if s.word == 0
    then s.(word := LossWord.Reserved(s.word), holder := i,
            pcs := s.pcs[i := Reserved(s.pcs[i].ev.(seen := s.recorded))])
    else s.(pcs := s.pcs[i := Dropping])
  }

  function TryEnqueue(s: System, i: nat): System
    requires i < |s.pcs|
  {
    if !s.pcs[i].Reserved? then s
    else if |s.queue| < s.capacity then s.(queue := s.queue + [s.pcs[i].ev], pcs := s.pcs[i := Releasing])
    else s.(pcs := s.pcs[i := Full])
  }

  function RecordDrop(s: System, i: nat): System
    requires i < |s.pcs|
  {
    if (s.pcs[i].Full? || s.pcs[i].Dropping?) && IsWord(s.word) then
      s.(word := Dropped(s.word), recorded := s.recorded + 1,
         overflowed := s.overflowed + (if Count(s.word) < COUNT_MAX then 0 else 1),
         pcs := s.pcs[i := if s.pcs[i].Full? then Releasing else Notifying])
    else s
  }

  function ReleaseReservation(s: System, i: nat): System
    requires i < |s.pcs|
  {
    if s.pcs[i].Releasing?
    then s.(word := Released(s.word), holder := -1, pcs := s.pcs[i := if Count(s.word) != 0 then Notifying else Idle])
    else s
  }

  function NotifyLoss(s: System, i: nat): System
    requires i < |s.pcs|
  {
    if s.pcs[i].Notifying? then s.(token := true, pcs := s.pcs[i := Idle]) else s
  }

  // ----- The publisher -----

  function Recovering(back: Back): Pub { Recover(back, Begin(1)) }

  /** Where the publisher goes from the point it may recover at. */
  function Resume(back: Back): Pub {
    match back
    case ToTop => Top
    case ToPoll => Poll
    case ToEvent(ev) => Got(ev)
    case ToControl => GotControl
  }

  /** A tick found due right after a take goes on to poll, without another take; one that ends the wait goes
      back to the top. */
  function Ticked(ok: bool, parks: bool): Pub {
    var back := if parks then ToPoll else ToTop;
    if ok then Resume(back) else Recovering(back)
  }

  function TakePending(s: System): System {
    var lost := Pending(s.word);
    var taken := s.(word := Taken(s.word), returned := s.returned + lost,
                    taken := if lost == 0 then s.taken else s.recorded);
    match s.pub
    case Top => taken.(pub := if lost == 0 then Poll else Recovering(ToTop))
    case Got(ev) => taken.(pub := if lost == 0 then Ready(ev) else Recovering(ToEvent(ev)))
    case GotControl => taken.(pub := if lost == 0 then ReadyControl else Recovering(ToControl))
    case _ => s
  }

  /** An event the snapshot covers is skipped; a forkchoice shows its revision; a reset re-anchors;
      any failure recovers. */
  function Handled(s: System, ev: Ev, ok: bool): System {
    if !ok then s.(pub := Recovering(ToTop))
    else if ev.kind == Other || ev.observed <= s.anchor then s.(pub := Top)
    else if ev.kind == Reset then s.(pub := Recovering(ToTop))
    else s.(pub := Top, shown := ev.rev)
  }

  function LoadOf(pub: Pub): Load
    requires pub.Recover? || pub.Activating?
  {
    pub.load
  }

  /** A read that lost its race starts over, up to the limit; after that the error is the caller's:
      recovery retries for ever, an activation is given up. */
  function Retry(s: System, attempt: nat): System
    requires s.pub.Recover? || s.pub.Activating?
  {
    if attempt < MAX_ATTEMPTS then s.(pub := s.pub.(load := Begin(attempt + 1))) else GiveUp(s)
  }

  function GiveUp(s: System): System
    requires s.pub.Recover? || s.pub.Activating?
  {
    if s.pub.Recover? then s.(pub := s.pub.(load := Begin(1))) else s.(pub := Top)
  }

  function ReadState(s: System, ok: bool): System {
    if (s.pub.Recover? || s.pub.Activating?) && s.pub.load.Read? then
      var load := s.pub.load;
      if ok then s.(clock := s.clock + 1, pub := s.pub.(load := Stamped(load.attempt, load.rev, s.clock + 1)))
      else if s.tracker != load.rev then Retry(s, load.attempt)
      else GiveUp(s)
    else s
  }

  /** The snapshot counts only if the tracker did not move since it was selected, and if it makes sense. */
  function ConfirmState(s: System, stable: bool, coherent: bool): System {
    if (s.pub.Recover? || s.pub.Activating?) && s.pub.load.Stamped? then
      var load := s.pub.load;
      if s.tracker == load.rev && stable && !coherent then GiveUp(s)
      else if s.tracker == load.rev && stable then
        s.(shown := load.rev, anchor := load.at,
           recovered := if s.pub.Recover? then s.taken else s.recovered,
           pub := if s.pub.Recover? then Resume(s.pub.back) else Top)
      else Retry(s, load.attempt)
    else s
  }

  // ----- Runs -----

  /** One step; an action that is not enabled does nothing. */
  function Next(s: System, a: Action): System {
    match a
    case Update(kind) =>
      if |s.pcs| > 0 && s.pcs[0].Idle? && kind != Other
      then s.(tracker := s.tracker + 1, pcs := s.pcs[0 := Tracked(kind)]) else s
    case Observe(i) => if i < |s.pcs| then Stamp(s, i) else s
    case Reserve(i) => if i < |s.pcs| then TryReserve(s, i) else s
    case Enqueue(i) => if i < |s.pcs| then TryEnqueue(s, i) else s
    case Record(i) => if i < |s.pcs| then RecordDrop(s, i) else s
    case Release(i) => if i < |s.pcs| then ReleaseReservation(s, i) else s
    case Notify(i) => if i < |s.pcs| then NotifyLoss(s, i) else s
    case TakeLoss => TakePending(s)
    case Wake => if s.pub.Poll? && s.token then s.(token := false, pub := Top) else s
    case Dequeue => if s.pub.Poll? && s.queue != [] then s.(queue := s.queue[1..], pub := Got(s.queue[0])) else s
    case TakeControl => if s.pub.Poll? then s.(pub := GotControl) else s
    case Tick(ok, parks) => if s.pub.Poll? then s.(pub := Ticked(ok, parks)) else s
    case HandleEvent(ok) => if s.pub.Ready? then Handled(s, s.pub.ev, ok) else s
    case HandleControl(newer) =>
      if s.pub.ReadyControl? then s.(pub := if newer then Activating(Begin(1)) else Top) else s
    case LoadTracked =>
      if (s.pub.Recover? || s.pub.Activating?) && s.pub.load.Begin?
      then s.(pub := s.pub.(load := Read(s.pub.load.attempt, s.tracker))) else s
    case LoadAt(ok) => ReadState(s, ok)
    case Confirm(stable, coherent) => ConfirmState(s, stable, coherent)
  }

  function Run(s: System, actions: seq<Action>): System
    decreases |actions|
  {
    if actions == [] then s else Run(Next(s, actions[0]), actions[1..])
  }

  /** Before the first snapshot: the publisher reads it like any other. */
  function Boot(producers: nat, capacity: nat): System {
    System(0, -1, seq(producers, _ => Idle), [], capacity, false, 0, 0, Recovering(ToTop), 0, 0, 0, 0, 0, 0, 0)
  }

  // ----- The loss word -----

  predicate InSection(pc: Pc) { pc.Reserved? || pc.Full? || pc.Releasing? }

  /** The lock bit is set exactly while one producer is in its critical section. */
  ghost predicate LockHeld(word: nat, holder: int, pcs: seq<Pc>) {
    && IsWord(word) && -1 <= holder < |pcs|
    && (Locked(word) <==> holder >= 0)
    && forall i :: 0 <= i < |pcs| ==> (InSection(pcs[i]) <==> holder == i)
  }

  ghost predicate LossAccounted(word: nat, recorded: nat, returned: nat, overflowed: nat) {
    recorded == returned + Count(word) + overflowed
  }

  /** Polling, or about to poll without another take. */
  predicate Parks(pub: Pub) { pub.Poll? || (pub.Recover? && pub.back.ToPoll?) }

  /** While anything is lost, a publisher that parks will be woken. */
  ghost predicate WillWake(pub: Pub, word: nat, holder: int, pcs: seq<Pc>, token: bool) {
    Parks(pub) && Count(word) > 0 ==> token || holder >= 0 || exists i :: 0 <= i < |pcs| && pcs[i].Notifying?
  }

  /** One producer moves: into the section if nobody is in it, out of it, or neither. */
  lemma LockMoves(word: nat, holder: int, pcs: seq<Pc>, i: nat, pc: Pc, word2: nat, holder2: int)
    requires LockHeld(word, holder, pcs) && i < |pcs|
    requires IsWord(word2) && (Locked(word2) <==> holder2 >= 0)
    requires if InSection(pc) then holder2 == i && (holder == -1 || holder == i)
             else holder2 == if holder == i then -1 else holder
    ensures LockHeld(word2, holder2, pcs[i := pc])
  {
    var next := pcs[i := pc];
    forall j | 0 <= j < |next|
      ensures InSection(next[j]) <==> holder2 == j
    {
      assert InSection(pcs[j]) <==> holder == j;
      assert next[j] == if j == i then pc else pcs[j];
    }
  }

  predicate ByPublisher(a: Action) {
    a.TakeLoss? || a.Wake? || a.Dequeue? || a.TakeControl? || a.Tick? || a.HandleEvent? || a.HandleControl?
    || a.LoadTracked? || a.LoadAt? || a.Confirm?
  }

  /** The publisher touches nothing of the producers' but an unlocked word. */
  lemma PublisherFrame(s: System, a: Action)
    requires ByPublisher(a)
    ensures var r := Next(s, a);
            && r.pcs == s.pcs && r.holder == s.holder && r.tracker == s.tracker && r.capacity == s.capacity
            && r.recorded == s.recorded && r.overflowed == s.overflowed
            && (r.word == s.word || (!Locked(s.word) && r.word == 0))
            && r.returned == s.returned + Count(s.word) - Count(r.word)
            && (r.token == s.token || (a.Wake? && r.pub.Top?))
  {
  }

  /** A producer moves only itself, never past the end of the publisher's turn. */
  lemma ProducerFrame(s: System, a: Action)
    requires !ByPublisher(a)
    ensures var r := Next(s, a);
            && r.pub == s.pub && r.shown == s.shown && r.anchor == s.anchor && r.returned == s.returned
            && r.taken == s.taken && r.recovered == s.recovered && r.capacity == s.capacity
            && (s.token ==> r.token)
  {
  }

  /** Which producer an action belongs to. */
  function Mover(a: Action): nat
    requires !ByPublisher(a)
  {
    if a.Update? then 0 else a.i
  }

  /** Its place afterwards. */
  function Moved(s: System, a: Action): Pc
    requires !ByPublisher(a) && Mover(a) < |s.pcs|
  {
    Next(s, a).pcs[Mover(a)]
  }

  lemma MoverFrame(s: System, a: Action)
    requires !ByPublisher(a)
    ensures if Mover(a) < |s.pcs| then Next(s, a).pcs == s.pcs[Mover(a) := Moved(s, a)] else Next(s, a) == s
  {
  }

  lemma LockStep(s: System, a: Action)
    requires LockHeld(s.word, s.holder, s.pcs)
    ensures var r := Next(s, a); LockHeld(r.word, r.holder, r.pcs)
  {
    if ByPublisher(a) {
      hide Next;
      PublisherFrame(s, a);
    } else {
      MoverFrame(s, a);
      if Mover(a) < |s.pcs| {
        assert InSection(s.pcs[Mover(a)]) <==> s.holder == Mover(a);
        hide LockHeld;
        LockIsWord(s.word, s.holder, s.pcs);
        LockMoves(s.word, s.holder, s.pcs, Mover(a), Moved(s, a), Next(s, a).word, Next(s, a).holder);
      }
    }
  }

  lemma LockIsWord(word: nat, holder: int, pcs: seq<Pc>)
    requires LockHeld(word, holder, pcs)
    ensures IsWord(word) && -1 <= holder < |pcs| && (Locked(word) <==> holder >= 0)
  {
  }

  lemma AccountStep(s: System, a: Action)
    requires LockHeld(s.word, s.holder, s.pcs) && LossAccounted(s.word, s.recorded, s.returned, s.overflowed)
    ensures var r := Next(s, a); LossAccounted(r.word, r.recorded, r.returned, r.overflowed)
  {
    hide LockHeld;
    LockIsWord(s.word, s.holder, s.pcs);
    if ByPublisher(a) {
      hide Next;
      PublisherFrame(s, a);
    } else {
      ProducerFrame(s, a);
    }
  }

  lemma WakeStep(s: System, a: Action)
    requires LockHeld(s.word, s.holder, s.pcs) && WillWake(s.pub, s.word, s.holder, s.pcs, s.token)
    ensures var r := Next(s, a); WillWake(r.pub, r.word, r.holder, r.pcs, r.token)
  {
    hide LockHeld, Next;
    LockIsWord(s.word, s.holder, s.pcs);
    var r := Next(s, a);
    if ByPublisher(a) {
      PublisherFrame(s, a);
      if Parks(r.pub) {
        PollAfter(s, a);
      }
    } else {
      ProducerFrame(s, a);
      MoverFrame(s, a);
      if Mover(a) < |s.pcs| {
        LockStep(s, a);
        ProducerOwes(s, a);
        assert r.pcs[Mover(a)].Releasing? ==> r.holder == Mover(a)
        by { SectionHeld(r.word, r.holder, r.pcs, Mover(a)); }
        if Parks(s.pub) && !s.token && s.holder < 0 && Count(s.word) > 0 && !r.pcs[Mover(a)].Notifying? {
          var i :| 0 <= i < |s.pcs| && s.pcs[i].Notifying?;
          assert i != Mover(a) ==> r.pcs[i] == s.pcs[i];
        }
      }
    }
  }

  lemma SectionHeld(word: nat, holder: int, pcs: seq<Pc>, i: nat)
    requires LockHeld(word, holder, pcs) && i < |pcs|
    ensures InSection(pcs[i]) <==> holder == i
  {
  }

  /** The publisher comes to park only after it found nothing to take. */
  lemma PollAfter(s: System, a: Action)
    requires ByPublisher(a) && Parks(Next(s, a).pub)
    ensures (Parks(s.pub) && Next(s, a).word == s.word) || Locked(s.word) || s.word == 0
  {
  }

  /** Whoever adds to the count, or gives the section up with something counted, owes a notice; and
      only giving it ends the debt. */
  lemma ProducerOwes(s: System, a: Action)
    requires !ByPublisher(a) && Mover(a) < |s.pcs| && IsWord(s.word)
    ensures var r := Next(s, a);
            && (Count(r.word) != Count(s.word) || (s.holder >= 0 && r.holder < 0 && Count(r.word) > 0) ==>
                  r.pcs[Mover(a)].Notifying? || r.pcs[Mover(a)].Releasing?)
            && (s.pcs[Mover(a)].Notifying? && !r.pcs[Mover(a)].Notifying? ==> r.token)
  {
  }

  // ----- Reservations and recovery -----

  predicate Seen(evs: seq<Ev>, taken: nat) { forall i :: 0 <= i < |evs| ==> evs[i].seen <= taken }

  predicate SeenByProducers(pcs: seq<Pc>, taken: nat) {
    forall i :: 0 <= i < |pcs| && pcs[i].Reserved? ==> pcs[i].ev.seen <= taken
  }

  /** The event in the publisher's hands. */
  function Front(pub: Pub): seq<Ev> {
    if pub.Got? || pub.Ready? then [pub.ev]
    else if pub.Recover? && pub.back.ToEvent? then [pub.back.ev]
    else []
  }

  /** Every event that got a reservation got it when all drops recorded by then had been taken, and
      outside recovery everything taken is recovered. */
  ghost predicate RecoveredFirst(s: System) {
    && s.recovered <= s.taken <= s.recorded
    && (Count(s.word) == 0 ==> s.taken == s.recorded)
    && SeenByProducers(s.pcs, s.taken) && Seen(s.queue, s.taken) && Seen(Front(s.pub), s.taken)
    && (s.pub.Recover? || s.recovered == s.taken)
  }

  /** The publisher's hands get no event but the queue's first; taking drops leads to recovery, and
      leaving recovery settles them. */
  lemma TakenFrame(s: System, a: Action)
    requires ByPublisher(a) && s.taken <= s.recorded
    ensures var r := Next(s, a);
            && (r.taken == s.taken || (r.taken == r.recorded && Count(r.word) == 0 && r.pub.Recover?))
            && (Count(r.word) == 0 ==> Count(s.word) == 0 || r.taken == r.recorded)
            && (r.recovered == s.recovered || r.recovered == r.taken)
            && (s.pub.Recover? && !r.pub.Recover? ==> r.recovered == r.taken)
            && (r.recovered == s.recovered || r.taken == s.taken)
  {
  }

  lemma RecoveredByPublisher(s: System, a: Action)
    requires IsWord(s.word) && RecoveredFirst(s) && ByPublisher(a)
    ensures RecoveredFirst(Next(s, a))
  {
    hide Next, Front;
    PublisherFrame(s, a);
    TakenFrame(s, a);
    FrontFrame(s, a);
  }

  lemma RecoveredByProducer(s: System, a: Action)
    requires IsWord(s.word) && RecoveredFirst(s) && !ByPublisher(a)
    ensures RecoveredFirst(Next(s, a))
  {
    ProducerFrame(s, a);
    MoverFrame(s, a);
  }

  lemma RecoveredStep(s: System, a: Action)
    requires LockHeld(s.word, s.holder, s.pcs) && RecoveredFirst(s)
    ensures RecoveredFirst(Next(s, a))
  {
    hide LockHeld, Next, RecoveredFirst;
    LockIsWord(s.word, s.holder, s.pcs);
    if ByPublisher(a) {
      RecoveredByPublisher(s, a);
    } else {
      RecoveredByProducer(s, a);
    }
  }

  // ----- Engine events in flight -----

  datatype Note = Note(rev: nat, observed: nat)

  function Notes(evs: seq<Ev>): seq<Note> {
    if evs == [] then []
    else if evs[0].kind == Other then Notes(evs[1..])
    else [Note(evs[0].rev, evs[0].observed)] + Notes(evs[1..])
  }

  lemma {:induction false} NotesAppend(a: seq<Ev>, b: seq<Ev>)
    ensures Notes(a + b) == Notes(a) + Notes(b)
    decreases |a|
  {
    if a == [] {
      assert a + b == b;
    } else {
      NotesAppend(a[1..], b);
      assert (a + b)[1..] == a[1..] + b;
    }
  }

  lemma NotesOne(e: Ev)
    ensures Notes([e]) == if e.kind == Other then [] else [Note(e.rev, e.observed)]
  {
    assert [e][1..] == [];
  }

  /** The event in the engine's hands. */
  function Held(pcs: seq<Pc>): seq<Ev> {
    if |pcs| > 0 && (pcs[0].Holding? || pcs[0].Reserved?) then [pcs[0].ev] else []
  }

  /** The engine's events in flight, oldest first: dequeued, queued, and held. */
  function Line(s: System): seq<Note> { Notes(Front(s.pub)) + Notes(s.queue) + Notes(Held(s.pcs)) }

  /** Only the engine moves the tracker and announces revisions. */
  ghost predicate EngineOnly(pcs: seq<Pc>) {
    && (forall i :: 0 < i < |pcs| ==>
          !pcs[i].Tracked? && (pcs[i].Holding? || pcs[i].Reserved? ==> pcs[i].ev.kind == Other))
    && (|pcs| > 0 && pcs[0].Tracked? ==> pcs[0].kind != Other)
  }

  lemma EngineOnlyStep(s: System, a: Action)
    requires EngineOnly(s.pcs)
    ensures EngineOnly(Next(s, a).pcs)
  {
    if ByPublisher(a) {
      PublisherFrame(s, a);
    } else {
      MoverFrame(s, a);
    }
  }

  predicate EngineDrops(s: System) { |s.pcs| > 0 && (s.pcs[0].Full? || s.pcs[0].Dropping?) }

  predicate EngineTracked(s: System) { |s.pcs| > 0 && s.pcs[0].Tracked? }

  /** What a producer's step does to the queue and to the engine's hands. */
  lemma HeldFrame(s: System, a: Action)
    requires EngineOnly(s.pcs) && !ByPublisher(a)
    ensures var r := Next(s, a);
            || (r.queue == s.queue && Held(r.pcs) == Held(s.pcs))
            || (r.queue == s.queue && |Held(s.pcs)| == 1 && exists n :: Held(r.pcs) == [Held(s.pcs)[0].(seen := n)])
            || (r.queue == s.queue && Held(s.pcs) == [] && a == Observe(0)
                && Held(r.pcs) == [if EngineTracked(s) then Ev(s.pcs[0].kind, s.tracker, s.clock + 1, 0)
                                   else Ev(Other, 0, s.clock + 1, 0)])
            || (r.queue == s.queue + Held(s.pcs) && Held(r.pcs) == [])
            || (Held(r.pcs) == Held(s.pcs) && exists e: Ev :: e.kind == Other && r.queue == s.queue + [e])
            || (r.queue == s.queue && |Held(s.pcs)| == 1 && Held(r.pcs) == [] && EngineDrops(r))
    ensures EngineTracked(s) && a == Observe(0) ==>
              var r := Next(s, a);
              && s.pcs[0].kind != Other && r.queue == s.queue && Held(s.pcs) == []
              && Held(r.pcs) == [Ev(s.pcs[0].kind, s.tracker, s.clock + 1, 0)]
  {
    var r := Next(s, a);
    MoverFrame(s, a);
    if a.Enqueue? && Mover(a) < |s.pcs| && s.pcs[a.i].Reserved? && a.i > 0 {
      assert s.pcs[a.i].ev.kind == Other;
    }
  }

  lemma SeenUnnoted(e: Ev, n: nat)
    ensures Notes([e.(seen := n)]) == Notes([e])
  {
    NotesOne(e);
    NotesOne(e.(seen := n));
  }

  /** A producer's step leaves the line, adds the event that announces the current revision, or takes
      the last one out for dropping. */
  lemma LineByProducer(s: System, a: Action)
    requires EngineOnly(s.pcs) && !ByPublisher(a)
    ensures var r := Next(s, a);
            || Line(r) == Line(s)
            || (EngineTracked(s) && a == Observe(0))
            || (EngineDrops(r) && |Line(s)| > 0 && Line(r) == Line(s)[..|Line(s)| - 1])
    ensures EngineTracked(s) && a == Observe(0) ==> Line(Next(s, a)) == Line(s) + [Note(s.tracker, s.clock + 1)]
  {
    hide Next, EngineOnly, Notes, Held, Front;
    var r := Next(s, a);
    ProducerFrame(s, a);
    HeldFrame(s, a);
    assert Notes([]) == [] by { NotesOfNone(); }
    if EngineTracked(s) && a == Observe(0) {
      NotesOne(Ev(s.pcs[0].kind, s.tracker, s.clock + 1, 0));
    } else if r.queue == s.queue && Held(r.pcs) == Held(s.pcs) {
    } else if r.queue == s.queue && |Held(s.pcs)| == 1 && exists n :: Held(r.pcs) == [Held(s.pcs)[0].(seen := n)] {
      var n :| Held(r.pcs) == [Held(s.pcs)[0].(seen := n)];
      assert Held(s.pcs) == [Held(s.pcs)[0]];
      SeenUnnoted(Held(s.pcs)[0], n);
    } else if r.queue == s.queue + Held(s.pcs) && Held(r.pcs) == [] {
      NotesAppend(s.queue, Held(s.pcs));
    } else if Held(r.pcs) == Held(s.pcs) {
      var e: Ev :| e.kind == Other && r.queue == s.queue + [e];
      NotesAppend(s.queue, [e]);
      NotesOne(e);
    } else if a == Observe(0) && Held(s.pcs) == [] {
      NotesOne(Ev(Other, 0, s.clock + 1, 0));
    } else {
      assert Held(s.pcs) == [Held(s.pcs)[0]];
      NotesOne(Held(s.pcs)[0]);
    }
  }

  lemma NotesOfNone()
    ensures Notes([]) == []
  {
  }

  lemma FrontFrame(s: System, a: Action)
    requires ByPublisher(a)
    ensures var r := Next(s, a);
            if a.Dequeue? && s.pub.Poll? && s.queue != []
            then Front(s.pub) == [] && Front(r.pub) == [s.queue[0]] && r.queue == s.queue[1..]
            else if a.HandleEvent? && s.pub.Ready?
            then Front(s.pub) == [s.pub.ev] && Front(r.pub) == [] && r.queue == s.queue
            else Front(r.pub) == Front(s.pub) && r.queue == s.queue
  {
  }

  /** A publisher's step leaves the line, or takes the event it handles from its front. */
  lemma LineByPublisher(s: System, a: Action)
    requires ByPublisher(a)
    ensures if a.HandleEvent? && s.pub.Ready? && s.pub.ev.kind != Other
            then |Line(s)| > 0 && Line(s)[0] == Note(s.pub.ev.rev, s.pub.ev.observed)
                 && Line(Next(s, a)) == Line(s)[1..]
            else Line(Next(s, a)) == Line(s)
  {
    hide Next, Front;
    PublisherFrame(s, a);
    FrontFrame(s, a);
    if a.Dequeue? && s.pub.Poll? && s.queue != [] {
      NotesOne(s.queue[0]);
      assert s.queue == [s.queue[0]] + s.queue[1..];
    }
    if a.HandleEvent? && s.pub.Ready? {
      NotesOne(s.pub.ev);
    }
  }

  // ----- Time -----

  /** Events in flight are in order of revision and of no later one than the tracker's. Those no later
      than the anchor are covered by what is shown; the others are not older than it. */
  ghost predicate Timely(line: seq<Note>, tracker: nat, clock: nat, shown: nat, anchor: nat) {
    && shown <= tracker && anchor <= clock
    && (forall i :: 0 <= i < |line| ==> line[i].rev <= tracker && line[i].observed <= clock)
    && (forall i, j :: 0 <= i < j < |line| ==> line[i].rev < line[j].rev)
    && (forall i :: 0 <= i < |line| ==>
          if line[i].observed <= anchor then line[i].rev <= shown else shown <= line[i].rev)
  }

  /** A read in progress: the tracker was at the revision it selected, and events observed after its
      time stamp are not older. */
  ghost predicate Reading(line: seq<Note>, tracker: nat, clock: nat, pub: Pub) {
    (pub.Recover? || pub.Activating?) ==>
      match pub.load
      case Begin(_) => true
      case Read(_, rev) => rev <= tracker
      case Stamped(_, rev, at) =>
        && rev <= tracker && at <= clock
        && forall i :: 0 <= i < |line| ==> line[i].observed <= at || rev <= line[i].rev
  }

  ghost predicate Unannounced(line: seq<Note>, tracker: nat) {
    forall i :: 0 <= i < |line| ==> line[i].rev < tracker
  }

  ghost predicate InTime(s: System) {
    && Timely(Line(s), s.tracker, s.clock, s.shown, s.anchor)
    && Reading(Line(s), s.tracker, s.clock, s.pub)
    && (EngineTracked(s) ==> Unannounced(Line(s), s.tracker))
  }

  lemma LineGrows(line: seq<Note>, tracker: nat, clock: nat, shown: nat, anchor: nat, pub: Pub)
    requires Timely(line, tracker, clock, shown, anchor) && Reading(line, tracker, clock, pub)
             && Unannounced(line, tracker)
    ensures var longer := line + [Note(tracker, clock + 1)];
            Timely(longer, tracker, clock + 1, shown, anchor) && Reading(longer, tracker, clock + 1, pub)
  {
  }

  lemma LineWaits(line: seq<Note>, tracker: nat, clock: nat, shown: nat, anchor: nat, pub: Pub, tracker2: nat,
                  clock2: nat)
    requires Timely(line, tracker, clock, shown, anchor) && Reading(line, tracker, clock, pub)
    requires tracker <= tracker2 && clock <= clock2
    ensures Timely(line, tracker2, clock2, shown, anchor) && Reading(line, tracker2, clock2, pub)
    ensures tracker < tracker2 ==> Unannounced(line, tracker2)
  {
  }

  lemma LineShrinks(line: seq<Note>, tracker: nat, clock: nat, shown: nat, anchor: nat, pub: Pub)
    requires Timely(line, tracker, clock, shown, anchor) && Reading(line, tracker, clock, pub) && |line| > 0
    ensures var shorter := line[..|line| - 1];
            Timely(shorter, tracker, clock, shown, anchor) && Reading(shorter, tracker, clock, pub)
  {
  }

  lemma TimeByProducer(s: System, a: Action)
    requires EngineOnly(s.pcs) && InTime(s) && !ByPublisher(a)
    ensures InTime(Next(s, a))
  {
    hide Next, Line, Timely, Reading, Unannounced, EngineOnly;
    var r := Next(s, a);
    ProducerFrame(s, a);
    LineByProducer(s, a);
    ClockFrame(s, a);
    if Line(r) == Line(s) {
      LineWaits(Line(s), s.tracker, s.clock, s.shown, s.anchor, s.pub, r.tracker, r.clock);
    } else if EngineTracked(s) && a == Observe(0) {
      LineGrows(Line(s), s.tracker, s.clock, s.shown, s.anchor, s.pub);
    } else {
      LineShrinks(Line(s), s.tracker, s.clock, s.shown, s.anchor, s.pub);
      LineWaits(Line(r), s.tracker, s.clock, s.shown, s.anchor, s.pub, r.tracker, r.clock);
    }
  }

  lemma ClockFrame(s: System, a: Action)
    requires !ByPublisher(a)
    ensures var r := Next(s, a);
            && s.clock <= r.clock <= s.clock + 1 && s.tracker <= r.tracker
            && (a == Observe(0) && EngineTracked(s) ==>
                  r.clock == s.clock + 1 && r.tracker == s.tracker && !EngineTracked(r))
            && (EngineTracked(r) ==> !EngineDrops(r))
            && (r.tracker != s.tracker ==> r.tracker == s.tracker + 1)
            && (EngineTracked(r) ==>
                  r.tracker > s.tracker || (EngineTracked(s) && r.tracker == s.tracker && !(a == Observe(0))))
  {
  }

  /** The key step: a snapshot confirmed at the revision it selected covers every event observed no
      later than its time stamp, and leaves of the others none older than itself. */
  lemma ConfirmedSnapshot(line: seq<Note>, tracker: nat, clock: nat, shown: nat, anchor: nat, pub: Pub)
    requires Timely(line, tracker, clock, shown, anchor) && Reading(line, tracker, clock, pub)
    requires (pub.Recover? || pub.Activating?) && pub.load.Stamped? && pub.load.rev == tracker
    ensures Timely(line, tracker, clock, tracker, pub.load.at)
  {
  }

  /** Showing the event at the front of the line leaves only newer ones. */
  lemma ShownFirst(line: seq<Note>, tracker: nat, clock: nat, shown: nat, anchor: nat)
    requires Timely(line, tracker, clock, shown, anchor) && |line| > 0
    ensures Timely(line[1..], tracker, clock, shown, anchor)
    ensures line[0].observed > anchor ==> shown <= line[0].rev && Timely(line[1..], tracker, clock, line[0].rev, anchor)
  {
  }

  lemma TimeByPublisher(s: System, a: Action)
    requires InTime(s) && ByPublisher(a)
    ensures InTime(Next(s, a))
  {
    hide Line, Timely, Unannounced;
    var r := Next(s, a);
    PublisherFrame(s, a);
    LineByPublisher(s, a);
    if a.HandleEvent? && s.pub.Ready? && s.pub.ev.kind != Other {
      ShownFirst(Line(s), s.tracker, s.clock, s.shown, s.anchor);
      assert EngineTracked(s) ==> Unannounced(Line(s)[1..], s.tracker) by {
        if EngineTracked(s) { UnannouncedRest(Line(s), s.tracker); }
      }
    }
    if a.Confirm? && (s.pub.Recover? || s.pub.Activating?) && s.pub.load.Stamped? && s.pub.load.rev == s.tracker {
      ConfirmedSnapshot(Line(s), s.tracker, s.clock, s.shown, s.anchor, s.pub);
    }
    if a.LoadAt? {
      LaterClock(Line(s), s.tracker, s.clock, s.shown, s.anchor);
    }
  }

  lemma UnannouncedRest(line: seq<Note>, tracker: nat)
    requires Unannounced(line, tracker) && |line| > 0
    ensures Unannounced(line[1..], tracker)
  {
  }

  lemma LaterClock(line: seq<Note>, tracker: nat, clock: nat, shown: nat, anchor: nat)
    requires Timely(line, tracker, clock, shown, anchor)
    ensures Timely(line, tracker, clock + 1, shown, anchor)
    ensures shown <= tracker && forall i :: 0 <= i < |line| ==> line[i].observed <= clock
  {
  }

  // ----- Convergence -----

  predicate Announced(line: seq<Note>, tracker: nat) { exists k :: 0 <= k < |line| && line[k].rev == tracker }

  /** The latest revision is shown, or on its way, or its loss is known or about to be. */
  ghost predicate Covered(s: System) {
    || s.shown == s.tracker
    || s.pub.Recover?
    || Count(s.word) > 0
    || EngineTracked(s) || EngineDrops(s)
    || Announced(Line(s), s.tracker)
  }

  lemma CoveredByProducer(s: System, a: Action)
    requires EngineOnly(s.pcs) && IsWord(s.word) && InTime(s) && Covered(s) && !ByPublisher(a)
    ensures Covered(Next(s, a))
  {
    var r := Next(s, a);
    ProducerFrame(s, a);
    LineByProducer(s, a);
    CoverFrame(s, a);
    hide Next, Line;
    if Announced(Line(s), s.tracker) && r.tracker == s.tracker {
      var k :| 0 <= k < |Line(s)| && Line(s)[k].rev == s.tracker;
      assert k < |Line(r)| ==> Line(r)[k] == Line(s)[k] || EngineDrops(r);
    }
    if EngineTracked(s) && a == Observe(0) {
      assert Line(r)[|Line(s)|].rev == r.tracker;
    }
  }

  lemma CoverFrame(s: System, a: Action)
    requires !ByPublisher(a) && IsWord(s.word)
    ensures var r := Next(s, a);
            && Count(r.word) >= Count(s.word)
            && (r.tracker == s.tracker || EngineTracked(r))
            && (EngineTracked(s) ==> EngineTracked(r) || a == Observe(0))
            && (EngineDrops(s) ==> EngineDrops(r) || Count(r.word) > 0)
  {
  }

  /** What is shown changes only to the revision of the event handled, or to the tracker's. An event
      that is not shown fails, re-anchors, or is covered. */
  lemma ShownFrame(s: System, a: Action)
    requires ByPublisher(a)
    ensures var r := Next(s, a);
            && (Count(s.word) > 0 && Count(r.word) == 0 ==> r.pub.Recover?)
            && (s.pub.Recover? ==> r.pub.Recover? || r.shown == r.tracker)
            && (if a.HandleEvent? && s.pub.Ready? && s.pub.ev.kind != Other
                then r.pub.Recover? || (if s.pub.ev.observed <= s.anchor then r.shown == s.shown
                                        else r.shown == s.pub.ev.rev)
                else r.shown == s.shown || r.shown == r.tracker)
  {
  }

  lemma CoveredByPublisher(s: System, a: Action)
    requires IsWord(s.word) && InTime(s) && Covered(s) && ByPublisher(a)
    ensures Covered(Next(s, a))
  {
    hide Line, Next, Reading;
    var r := Next(s, a);
    PublisherFrame(s, a);
    LineByPublisher(s, a);
    ShownFrame(s, a);
    if a.HandleEvent? && s.pub.Ready? && s.pub.ev.kind != Other {
      FirstShown(Line(s), s.tracker, s.clock, s.shown, s.anchor);
    }
  }

  /** Taking the first event off the line loses the latest revision only by showing it. */
  lemma FirstShown(line: seq<Note>, tracker: nat, clock: nat, shown: nat, anchor: nat)
    requires Timely(line, tracker, clock, shown, anchor) && |line| > 0
    ensures shown == tracker && line[0].observed > anchor ==> line[0].rev == tracker
    ensures Announced(line, tracker) && line[0].observed <= anchor ==> shown == tracker || Announced(line[1..], tracker)
    ensures Announced(line, tracker) && line[0].observed > anchor ==>
              line[0].rev == tracker || Announced(line[1..], tracker)
  {
    if Announced(line, tracker) {
      var k :| 0 <= k < |line| && line[k].rev == tracker;
      if k > 0 {
        assert line[1..][k - 1] == line[k];
      }
    }
  }

  // ----- Every run -----

  ghost predicate SystemOk(s: System) {
    && LockHeld(s.word, s.holder, s.pcs)
    && LossAccounted(s.word, s.recorded, s.returned, s.overflowed)
    && WillWake(s.pub, s.word, s.holder, s.pcs, s.token)
    && RecoveredFirst(s) && EngineOnly(s.pcs) && InTime(s) && Covered(s)
  }

  lemma NextKeeps(s: System, a: Action)
    requires SystemOk(s)
    ensures SystemOk(Next(s, a))
  {
    hide Next, LockHeld, LossAccounted, WillWake, RecoveredFirst, EngineOnly, InTime, Covered;
    LockIsWord(s.word, s.holder, s.pcs);
    LockStep(s, a);
    AccountStep(s, a);
    WakeStep(s, a);
    RecoveredStep(s, a);
    EngineOnlyStep(s, a);
    if ByPublisher(a) {
      TimeByPublisher(s, a);
      CoveredByPublisher(s, a);
    } else {
      TimeByProducer(s, a);
      CoveredByProducer(s, a);
    }
  }

  lemma {:induction false} RunKeeps(s: System, actions: seq<Action>)
    requires SystemOk(s)
    ensures SystemOk(Run(s, actions))
    decreases |actions|
  {
    hide SystemOk, Next;
    if actions != [] {
      NextKeeps(s, actions[0]);
      RunKeeps(Next(s, actions[0]), actions[1..]);
    }
  }

  lemma BootOk(producers: nat, capacity: nat)
    ensures SystemOk(Boot(producers, capacity))
  {
  }

  /** No producer is in a call and the publisher is parked with nothing to wake it. */
  predicate Quiescent(s: System) {
    && (forall i :: 0 <= i < |s.pcs| ==> s.pcs[i].Idle?)
    && s.queue == [] && !s.token && s.pub.Poll?
  }

  lemma QuietIsCovered(s: System)
    requires SystemOk(s) && Quiescent(s)
    ensures s.word == 0 && s.shown == s.tracker
  {
    hide InTime, RecoveredFirst, LossAccounted, EngineOnly;
    assert s.holder >= 0 ==> InSection(s.pcs[s.holder]);
  }

  /** Convergence: in every interleaving, whatever was dropped, failed or raced, once all is quiet no
      loss is pending and the published state covers the latest applied revision. */
  lemma Convergence(producers: nat, capacity: nat, actions: seq<Action>)
    ensures var s := Run(Boot(producers, capacity), actions);
            Covered(s) && (Quiescent(s) ==> s.word == 0 && s.shown == s.tracker)
  {
    hide Run, Boot, InTime, RecoveredFirst, LossAccounted;
    BootOk(producers, capacity);
    RunKeeps(Boot(producers, capacity), actions);
    var s := Run(Boot(producers, capacity), actions);
    if Quiescent(s) {
      QuietIsCovered(s);
    }
  }

  /** Loss word: recorded drops are all returned, pending, or beyond the counter; the lock bit is set
      exactly while one producer is in its critical section. */
  lemma NoDropIsForgotten(producers: nat, capacity: nat, actions: seq<Action>)
    ensures var s := Run(Boot(producers, capacity), actions);
            && s.recorded == s.returned + Count(s.word) + s.overflowed
            && (!Locked(s.word) ==> forall i :: 0 <= i < |s.pcs| ==> !InSection(s.pcs[i]))
            && (Locked(s.word) ==> exists i :: 0 <= i < |s.pcs| && InSection(s.pcs[i])
                                               && forall j :: 0 <= j < |s.pcs| && InSection(s.pcs[j]) ==> j == i)
  {
    hide Run, Boot, InTime, RecoveredFirst, Covered;
    BootOk(producers, capacity);
    RunKeeps(Boot(producers, capacity), actions);
    var s := Run(Boot(producers, capacity), actions);
    if Locked(s.word) {
      assert InSection(s.pcs[s.holder]);
    }
  }

  /** Recovery comes first: between a recorded drop and the take that returns it no reservation
      succeeds, and when an event is handled every drop recorded before its reservation has been
      taken and recovered from. */
  lemma RecoveryComesFirst(producers: nat, capacity: nat, actions: seq<Action>)
    ensures var s := Run(Boot(producers, capacity), actions);
            && (s.pub.Ready? ==> s.pub.ev.seen <= s.recovered)
            && (forall i :: 0 <= i < |s.pcs| && Count(s.word) > 0 ==>
                  !InSection(Next(s, Reserve(i)).pcs[i]) || InSection(s.pcs[i]))
  {
    hide Run, Boot, InTime, Covered;
    BootOk(producers, capacity);
    RunKeeps(Boot(producers, capacity), actions);
    var s := Run(Boot(producers, capacity), actions);
    if s.pub.Ready? {
      assert Front(s.pub)[0] == s.pub.ev;
    }
  }

  /** No lost wake-up: a publisher that parks while a loss is pending, be it after maintenance or a recovery
      without another take, is woken, by a token it has or by a producer that still has to notify. */
  lemma NoLostWakeUp(producers: nat, capacity: nat, actions: seq<Action>)
    ensures var s := Run(Boot(producers, capacity), actions);
            Parks(s.pub) && s.word != 0 && !Locked(s.word)
            && (forall i :: 0 <= i < |s.pcs| ==> !s.pcs[i].Notifying?) ==>
              s.token
  {
    hide Run, Boot, InTime, Covered, RecoveredFirst;
    BootOk(producers, capacity);
    RunKeeps(Boot(producers, capacity), actions);
  }

  /** The time filter: events the last snapshot does not cover are not older than it, in order, and
      so at most the snapshot's own revision is shown again; events it skips are covered. */
  lemma TimeFilter(producers: nat, capacity: nat, actions: seq<Action>)
    ensures var s := Run(Boot(producers, capacity), actions);
            s.pub.Ready? && s.pub.ev.kind != Other ==>
              if s.pub.ev.observed <= s.anchor then s.pub.ev.rev <= s.shown else s.shown <= s.pub.ev.rev <= s.tracker
  {
    hide Run, Boot, Covered, RecoveredFirst, WillWake, LockHeld, EngineOnly, Reading;
    BootOk(producers, capacity);
    RunKeeps(Boot(producers, capacity), actions);
    var s := Run(Boot(producers, capacity), actions);
    if s.pub.Ready? && s.pub.ev.kind != Other {
      LineByPublisher(s, HandleEvent(true));
    }
  }

  // ----- Settling -----

  predicate AllIdle(pcs: seq<Pc>) { forall i :: 0 <= i < |pcs| ==> pcs[i].Idle? }

  /** The publisher's next step, if reads and publications succeed. */
  function Turn(s: System): Action {
    match s.pub
    case Poll => if s.token then Wake else Dequeue
    case Ready(_) => HandleEvent(true)
    case ReadyControl => HandleControl(true)
    case Recover(_, load) =>
      if load.Begin? then LoadTracked else if load.Read? then LoadAt(true) else Confirm(true, true)
    case Activating(load) =>
      if load.Begin? then LoadTracked else if load.Read? then LoadAt(true) else Confirm(true, true)
    case _ => TakeLoss
  }

  function LoadSteps(load: Load, tracker: nat): nat {
    match load
    case Begin(_) => 3
    case Read(_, rev) => if rev == tracker then 2 else 5
    case Stamped(_, rev, _) => if rev == tracker then 1 else 4
  }

  function PubSteps(pub: Pub, tracker: nat): nat {
    match pub
    case Poll => 0
    case Top => 1
    case Ready(_) => 7
    case Got(_) => 8
    case ReadyControl => 7
    case GotControl => 8
    case Activating(load) => LoadSteps(load, tracker) + 1
    case Recover(back, load) => LoadSteps(load, tracker) + (if back.ToTop? || back.ToPoll? then 1 else 8)
  }

  /** An upper bound on the steps until the publisher is parked for good. */
  function StepsLeft(s: System): nat {
    9 * |s.queue| + (if s.word > 0 then 10 else 0) + (if s.token then 2 else 0) + PubSteps(s.pub, s.tracker)
  }

  /** A step of the publisher that is enabled, and in which reads and publications succeed. */
  predicate Works(s: System, a: Action) {
    && ByPublisher(a) && !a.TakeControl? && !a.Tick? && Next(s, a) != s
    && a != HandleEvent(false) && a != LoadAt(false) && (a.Confirm? ==> a.stable && a.coherent)
  }

  lemma LoadWorks(s: System, a: Action)
    requires (s.pub.Recover? || s.pub.Activating?) && Works(s, a)
    ensures StepsLeft(Next(s, a)) < StepsLeft(s)
  {
  }

  lemma WorkShrinks(s: System, a: Action)
    requires !Locked(s.word) && Works(s, a)
    ensures StepsLeft(Next(s, a)) < StepsLeft(s)
  {
    if s.pub.Recover? || s.pub.Activating? {
      hide Next, StepsLeft;
      LoadWorks(s, a);
    }
  }

  /** Unless it is parked with nothing to do, the publisher has such a step. */
  lemma TurnWorks(s: System)
    requires !Locked(s.word) && !(s.pub.Poll? && !s.token && s.queue == [])
    ensures Works(s, Turn(s))
  {
  }

  /** Every step of the run works. */
  predicate Working(s: System, turns: seq<Action>)
    decreases |turns|
  {
    turns == [] || (Works(s, turns[0]) && Working(Next(s, turns[0]), turns[1..]))
  }

  lemma IdleIsUnlocked(s: System)
    requires SystemOk(s) && AllIdle(s.pcs)
    ensures !Locked(s.word)
  {
    hide InTime, RecoveredFirst, LossAccounted, EngineOnly, WillWake, Covered;
    assert s.holder >= 0 ==> InSection(s.pcs[s.holder]);
  }

  /** Left alone, and with reads that succeed, the publisher comes to rest within a bounded number of its own
      steps, in whatever order it takes them, and it can rest only where it shows the latest revision. */
  lemma {:induction false} Settles(s: System, turns: seq<Action>)
    requires SystemOk(s) && AllIdle(s.pcs) && Working(s, turns)
    ensures |turns| <= StepsLeft(s)
    ensures var r := Run(s, turns);
            if Quiescent(r) then r.tracker == s.tracker && r.shown == s.tracker && r.word == 0 else Works(r, Turn(r))
    decreases |turns|
  {
    hide Works, Next, Turn, StepsLeft, SystemOk;
    IdleIsUnlocked(s);
    if turns == [] {
      if Quiescent(s) {
        QuietIsCovered(s);
      } else {
        TurnWorks(s);
      }
    } else {
      var next := Next(s, turns[0]);
      WorkShrinks(s, turns[0]);
      NextKeeps(s, turns[0]);
      assert ByPublisher(turns[0]) by { WorkIsPublishers(s, turns[0]); }
      PublisherFrame(s, turns[0]);
      Settles(next, turns[1..]);
    }
  }

  lemma WorkIsPublishers(s: System, a: Action)
    requires Works(s, a)
    ensures ByPublisher(a)
  {
  }
}

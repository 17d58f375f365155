/** Nothing gets lost between the queue and the handlers, and no read is retried forever. */
module Conserved {
  import opened LossWord
  import opened Handoff

  // ----- Events -----

  /** The event that an action puts into the queue, if it does. */
  function Entering(s: System, a: Action): seq<Ev> {
    if a.Enqueue? && a.i < |s.pcs| && s.pcs[a.i].Reserved? && |s.queue| < s.capacity then [s.pcs[a.i].ev] else []
  }

  /** The event that an action hands to its handler, if it does. */
  function Leaving(s: System, a: Action): seq<Ev> {
    if a.HandleEvent? && s.pub.Ready? then [s.pub.ev] else []
  }

  function Entered(s: System, actions: seq<Action>): seq<Ev>
    decreases |actions|
  {
    if actions == [] then [] else Entering(s, actions[0]) + Entered(Next(s, actions[0]), actions[1..])
  }

  function Left(s: System, actions: seq<Action>): seq<Ev>
    decreases |actions|
  {
    if actions == [] then [] else Leaving(s, actions[0]) + Left(Next(s, actions[0]), actions[1..])
  }

  /** The events in the publisher's hand and in the queue. */
  function Inside(s: System): seq<Ev> { Front(s.pub) + s.queue }

  /** Producers append at most what enters. */
  lemma ProducersAppend(s: System, a: Action)
    requires !ByPublisher(a)
    ensures Next(s, a).pub == s.pub && Next(s, a).queue == s.queue + Entering(s, a)
  {
    hide LossWord.Reserved, Dropped, Released, Count;
  }

  predicate Reads(a: Action) { a.LoadTracked? || a.LoadAt? || a.Confirm? }

  /** A step of a read leaves the queue alone, and the publisher where it was or where it goes on. */
  lemma ReadMoves(s: System, a: Action)
    requires Reads(a)
    ensures var r := Next(s, a);
            && r.queue == s.queue
            && (if s.pub.Recover? then (r.pub.Recover? && r.pub.back == s.pub.back) || r.pub == Resume(s.pub.back)
                else if s.pub.Activating? then r.pub.Activating? || r.pub.Top?
                else r.pub == s.pub)
  {
    hide Resume;
  }

  /** The publisher takes from the front, and keeps what it holds until it is handled. */
  lemma PublisherTakes(s: System, a: Action)
    requires ByPublisher(a)
    ensures Front(s.pub) + s.queue == Leaving(s, a) + (Front(Next(s, a).pub) + Next(s, a).queue)
  {
    hide Pending, Taken, ReadState, ConfirmState;
    if Reads(a) {
      hide Next;
      ReadMoves(s, a);
    } else if a.Dequeue? && s.pub.Poll? && s.queue != [] {
      assert s.queue == [s.queue[0]] + s.queue[1..];
    }
  }

  lemma StepConserves(s: System, a: Action)
    ensures Inside(s) + Entering(s, a) == Leaving(s, a) + Inside(Next(s, a))
  {
    hide Next, Front;
    if ByPublisher(a) {
      PublisherTakes(s, a);
    } else {
      ProducersAppend(s, a);
    }
  }

  /** First in, first out, and nothing in between: whatever else happens, recoveries included, the events handed
      to their handlers are those that entered the queue, in that order, but for the ones still inside. */
  lemma {:induction false} EventsAreConserved(s: System, actions: seq<Action>)
    ensures Inside(s) + Entered(s, actions) == Left(s, actions) + Inside(Run(s, actions))
    decreases |actions|
  {
    hide Next, Inside, Entering, Leaving;
    if actions == [] {
    } else {
      var a, rest := actions[0], actions[1..];
      var next := Next(s, a);
      StepConserves(s, a);
      EventsAreConserved(next, rest);
      calc {
        Inside(s) + (Entering(s, a) + Entered(next, rest));
        (Inside(s) + Entering(s, a)) + Entered(next, rest);
        (Leaving(s, a) + Inside(next)) + Entered(next, rest);
        Leaving(s, a) + (Inside(next) + Entered(next, rest));
        Leaving(s, a) + (Left(next, rest) + Inside(Run(next, rest)));
        (Leaving(s, a) + Left(next, rest)) + Inside(Run(next, rest));
      }
    }
  }

  // ----- Control events -----

  function InHand(pub: Pub): nat {
    if pub.GotControl? || pub.ReadyControl? || (pub.Recover? && pub.back.ToControl?) then 1 else 0
  }

  /** How many control events a run takes, and how many it handles. */
  function ControlsTaken(s: System, actions: seq<Action>): nat
    decreases |actions|
  {
    if actions == [] then 0
    else (if actions[0].TakeControl? && s.pub.Poll? then 1 else 0) + ControlsTaken(Next(s, actions[0]), actions[1..])
  }

  function ControlsHandled(s: System, actions: seq<Action>): nat
    decreases |actions|
  {
    if actions == [] then 0
    else (if actions[0].HandleControl? && s.pub.ReadyControl? then 1 else 0)
         + ControlsHandled(Next(s, actions[0]), actions[1..])
  }

  lemma StepConservesControl(s: System, a: Action)
    ensures InHand(s.pub) + (if a.TakeControl? && s.pub.Poll? then 1 else 0)
         == (if a.HandleControl? && s.pub.ReadyControl? then 1 else 0) + InHand(Next(s, a).pub)
  {
    hide Pending, Taken, ReadState, ConfirmState;
    if Reads(a) {
      hide Next;
      ReadMoves(s, a);
    } else if !ByPublisher(a) {
      hide Next;
      ProducersAppend(s, a);
    }
  }

  /** Every control event that is taken is handled, but for one still in hand. */
  lemma {:induction false} ControlsAreConserved(s: System, actions: seq<Action>)
    ensures InHand(s.pub) + ControlsTaken(s, actions) == ControlsHandled(s, actions) + InHand(Run(s, actions).pub)
    decreases |actions|
  {
    hide Next, InHand;
    if actions != [] {
      StepConservesControl(s, actions[0]);
      ControlsAreConserved(Next(s, actions[0]), actions[1..]);
    }
  }

  // ----- Reads -----

  predicate FewAttempts(s: System) {
    s.pub.Recover? || s.pub.Activating? ==> 1 <= s.pub.load.attempt <= 4
  }

  lemma StepKeepsAttempts(s: System, a: Action)
    requires FewAttempts(s)
    ensures FewAttempts(Next(s, a))
  {
    hide Pending, Taken;
    if !ByPublisher(a) {
      hide Next;
      ProducersAppend(s, a);
    }
  }

  lemma {:induction false} RunKeepsAttempts(s: System, actions: seq<Action>)
    requires FewAttempts(s)
    ensures FewAttempts(Run(s, actions))
    decreases |actions|
  {
    hide Next, FewAttempts;
    if actions != [] {
      StepKeepsAttempts(s, actions[0]);
      RunKeepsAttempts(Next(s, actions[0]), actions[1..]);
    }
  }

  /** The read under way is confirmed: nothing moved since its revision was selected. */
  predicate Confirms(s: System, a: Action)
    requires s.pub.Recover? || s.pub.Activating?
  {
    s.pub.load.Stamped? && a == Confirm(true, true) && s.tracker == s.pub.load.rev
  }

  /** In every interleaving: a newer dictionary is taken up with a selection of the head, and a reset the snapshot
      does not cover with a recovery. A selection is attempted at most four times. A recovery ends only with a
      confirmed one, and then the publisher goes on where it was interrupted. An activation ends with a confirmed
      one too, or is given up, after the fourth attempt or when an attempt failed although the tracker had not
      moved. Until then what is shown does not change. */
  lemma ReadsEnd(producers: nat, capacity: nat, actions: seq<Action>, a: Action)
    ensures var s := Run(Boot(producers, capacity), actions);
            var r := Next(s, a);
            && FewAttempts(s) && (s.pub.ReadyControl? && a == HandleControl(true) ==> r.pub.Activating?)
            && (s.pub.Ready? && s.pub.ev.kind == Reset && s.pub.ev.observed > s.anchor && a.HandleEvent? ==>
                  r.pub.Recover?)
            && (s.pub.Recover? && !r.pub.Recover? ==> Confirms(s, a) && r.pub == Resume(s.pub.back))
            && (s.pub.Activating? && !r.pub.Activating? ==>
                  r.pub.Top? && (Confirms(s, a) || s.pub.load.attempt == 4 || s.tracker == s.pub.load.rev))
            && (s.pub.Recover? || s.pub.Activating? ==>
                  if Confirms(s, a) then r.shown == s.pub.load.rev && r.anchor == s.pub.load.at
                  else r.shown == s.shown && r.anchor == s.anchor)
  {
    hide Run;
    RunKeepsAttempts(Boot(producers, capacity), actions);
  }
}

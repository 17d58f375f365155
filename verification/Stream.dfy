/** The consumer's side of the wire: the order it demands of a stream, and the checks it makes on
    every frame. */
module Stream {
  import opened Types
  import opened Chain
  import opened Projections
  import opened Wire
  import opened PublisherInvariants
  import opened Discipline

  datatype Frame = Frame(sequence: nat, generation: Generation, event: Event)

  datatype Phase =
    | AwaitHello
    | AwaitConfig(baseline: nat, generation: Generation)
    | AwaitSnapshot(baseline: nat, generation: Generation)
    | Live(last: nat, snapshotRequired: bool)

  /** The phase after a frame, or nothing if the frame is out of place. */
  function Observed(phase: Phase, f: Frame): Option<Phase> {
    match phase
    case AwaitHello =>
      if f.event.Hello? then Some(AwaitConfig(f.sequence, f.generation)) else None
    case AwaitConfig(baseline, generation) =>
      if f.event.ConfigActivated? && f.sequence == baseline && f.generation == generation
      then Some(AwaitSnapshot(baseline, generation)) else None
    case AwaitSnapshot(baseline, generation) =>
      if f.event.Snapshot? && f.sequence == baseline && f.generation == generation
      then Some(Live(baseline, false)) else None
    case Live(last, required) =>
      if f.event.Hello? then None
      else if required then
        if f.event.Snapshot? && f.sequence == last + 1 then Some(Live(f.sequence, false)) else None
      else if f.event.Gap? then
        if f.event.lastContiguous == last && f.sequence > last then Some(Live(f.sequence, true)) else None
      else if f.sequence == last + 1 then Some(Live(f.sequence, f.event.ConfigActivated?))
      else None
  }

  class StreamCursor {
    var phase: Phase

    constructor ()
      ensures phase == AwaitHello
    {
      phase := AwaitHello;
    }

    /** Takes the frame, or refuses it and stays where it is. */
    method Observe(f: Frame) returns (ok: bool)
      modifies this
      ensures ok <==> Observed(old(phase), f).Some?
      ensures phase == if ok then Observed(old(phase), f).value else old(phase)
    {
      match phase {
        case AwaitHello =>
          if !f.event.Hello? { return false; }
          phase := AwaitConfig(f.sequence, f.generation);
        case AwaitConfig(baseline, generation) =>
          if !f.event.ConfigActivated? || f.sequence != baseline || f.generation != generation { return false; }
          phase := AwaitSnapshot(baseline, generation);
        case AwaitSnapshot(baseline, generation) =>
          if !f.event.Snapshot? || f.sequence != baseline || f.generation != generation { return false; }
          phase := Live(baseline, false);
        case Live(last, snapshotRequired) =>
          if f.event.Hello? { return false; }
          if snapshotRequired {
            if !f.event.Snapshot? || f.sequence != last + 1 { return false; }
            phase := Live(f.sequence, false);
          } else if f.event.Gap? {
            if f.event.lastContiguous != last || f.sequence <= last { return false; }
            phase := Live(f.sequence, true);
          } else {
            if f.sequence != last + 1 { return false; }
            phase := Live(f.sequence, f.event.ConfigActivated?);
          }
      }
      ok := true;
    }
  }

  /** The reader: its place in the stream, and the dictionary in force. */
  datatype Reader = Reader(phase: Phase, active: Option<Generation>, keys: nat)

  const NEW_READER := Reader(AwaitHello, None, 0)

  /** What the reader demands of a frame's contents under the dictionary in force. */
  predicate Sound(active: Option<Generation>, keys: nat, f: Frame) {
    match f.event
    case Hello => true
    case ConfigActivated(_) => active.Some? ==> f.generation >= active.value
    case Snapshot(p, view) => active == Some(f.generation) && Heads(view, p.block) && |p.values| == keys
    case BlockState(p, _) => active == Some(f.generation) && |p.bitmap| == BitmapSize(keys) && |p.values| == keys
    case CanonicalHead(_, p, changed) =>
      active == Some(f.generation) && (changed == [] || |changed| == BitmapSize(keys)) && |p.values| == keys
    case ForkchoiceApplied(view) => active == Some(f.generation) && ValidView(view)
    case CandidatesRetired(hashes, _) => active == Some(f.generation) && hashes != []
    case _ => active == Some(f.generation)
  }

  function Read(r: Reader, f: Frame): Option<Reader> {
    var phase := Observed(r.phase, f);
    if phase.None? || !Sound(r.active, r.keys, f) then None
    else if f.event.ConfigActivated? then Some(Reader(phase.value, Some(f.generation), f.event.keys))
    else Some(r.(phase := phase.value))
  }

  function ReadAll(r: Reader, frames: seq<Frame>): Option<Reader>
    decreases |frames|
  {
    if frames == [] then Some(r)
    else
      var before := ReadAll(r, frames[..|frames| - 1]);
      if before.None? then None else Read(before.value, frames[|frames| - 1])
  }

  /** The reader's loop: it stops at the first frame it refuses. */
  method ReadStream(frames: seq<Frame>) returns (accepted: nat)
    ensures accepted <= |frames|
    ensures ReadAll(NEW_READER, frames[..accepted]).Some?
    ensures accepted < |frames| ==> ReadAll(NEW_READER, frames[..accepted + 1]).None?
  {
    var cursor := new StreamCursor();
    var active: Option<Generation> := None;
    var keys := 0;
    accepted := 0;
    while accepted < |frames|
      invariant accepted <= |frames|
      invariant ReadAll(NEW_READER, frames[..accepted]) == Some(Reader(cursor.phase, active, keys))
    {
      var f := frames[accepted];
      assert frames[..accepted + 1][..accepted] == frames[..accepted];
      var ok := cursor.Observe(f);
      if !ok || !Sound(active, keys, f) {
        return;
      }
      if f.event.ConfigActivated? {
        active, keys := Some(f.generation), f.event.keys;
      }
      accepted := accepted + 1;
    }
  }

  /** Acceptance is closed under prefixes. */
  lemma {:induction false} PrefixAccepted(r: Reader, frames: seq<Frame>, k: nat)
    requires ReadAll(r, frames).Some? && k <= |frames|
    ensures ReadAll(r, frames[..k]).Some?
    decreases |frames|
  {
    if k == |frames| {
      assert frames[..k] == frames;
    } else {
      var before := frames[..|frames| - 1];
      PrefixAccepted(r, before, k);
      assert before[..k] == frames[..k];
    }
  }

  // ----- Frames of a log -----

  function FrameOf(calls: seq<Call>, n: nat): Frame {
    if 0 < n <= |calls| then Frame(n, calls[n - 1].generation, calls[n - 1].event) else Frame(n, 0, Hello)
  }

  /** The sequences in (a, b] whose frames encoded, in order. */
  function Emitted(calls: seq<Call>, a: nat, b: nat): seq<nat>
    requires b <= |calls|
    decreases b
  {
    if b <= a then []
    else if calls[b - 1].encoded then Emitted(calls, a, b - 1) + [b]
    else Emitted(calls, a, b - 1)
  }

  /** Exactly the encoded sequences in (a, b], each once, in order. */
  ghost predicate Selects(calls: seq<Call>, a: nat, b: nat, r: seq<nat>) {
    Within(calls, a, b, r) && Ascending(r) && Complete(calls, a, b, r)
  }

  ghost predicate Within(calls: seq<Call>, a: nat, b: nat, r: seq<nat>) {
    forall i :: 0 <= i < |r| ==> a < r[i] <= b && Encoded(calls, r[i])
  }

  ghost predicate Ascending(r: seq<nat>) { forall i, j :: 0 <= i < j < |r| ==> r[i] < r[j] }

  ghost predicate Complete(calls: seq<Call>, a: nat, b: nat, r: seq<nat>) {
    forall n :: a < n <= b && Encoded(calls, n) ==> n in r
  }

  /** The attempt with this sequence was emitted. */
  predicate Encoded(calls: seq<Call>, n: nat) { 0 < n <= |calls| && calls[n - 1].encoded }

  lemma {:induction false} EmittedExactly(calls: seq<Call>, a: nat, b: nat)
    requires b <= |calls|
    ensures Selects(calls, a, b, Emitted(calls, a, b))
    decreases b
  {
    hide Selects;
    if a < b {
      EmittedExactly(calls, a, b - 1);
      SelectsOne(calls, a, b, Emitted(calls, a, b - 1));
    } else {
      assert Selects(calls, a, b, []) by { SelectsNone(calls, a, b); }
    }
  }

  lemma SelectsNone(calls: seq<Call>, a: nat, b: nat)
    requires b <= |calls| && b <= a
    ensures Selects(calls, a, b, [])
  {
  }

  lemma SelectsOne(calls: seq<Call>, a: nat, b: nat, before: seq<nat>)
    requires a < b <= |calls| && Selects(calls, a, b - 1, before)
    ensures Selects(calls, a, b, if calls[b - 1].encoded then before + [b] else before)
  {
    assert Encoded(calls, b) <==> calls[b - 1].encoded;
    hide Within, Ascending, Complete, Encoded;
    WithinOne(calls, a, b, before);
    AscendingOne(calls, a, b, before);
    CompleteOne(calls, a, b, before);
  }

  lemma WithinOne(calls: seq<Call>, a: nat, b: nat, before: seq<nat>)
    requires a < b && Within(calls, a, b - 1, before)
    ensures Within(calls, a, b, before) && (Encoded(calls, b) ==> Within(calls, a, b, before + [b]))
  {
    hide Encoded;
  }

  lemma AscendingOne(calls: seq<Call>, a: nat, b: nat, before: seq<nat>)
    requires a < b && Within(calls, a, b - 1, before) && Ascending(before)
    ensures Ascending(before + [b])
  {
    hide Encoded;
  }

  lemma CompleteOne(calls: seq<Call>, a: nat, b: nat, before: seq<nat>)
    requires a < b && Complete(calls, a, b - 1, before)
    ensures Complete(calls, a, b, before + [b]) && (!Encoded(calls, b) ==> Complete(calls, a, b, before))
  {
    hide Encoded;
    forall n | a < n <= b && Encoded(calls, n)
      ensures n in before + [b]
    {
      if n == b {
        assert (before + [b])[|before|] == n;
      }
    }
  }

  function FramesOf(calls: seq<Call>, sequences: seq<nat>): seq<Frame> {
    seq(|sequences|, i requires 0 <= i < |sequences| => FrameOf(calls, sequences[i]))
  }

  /** What a new consumer is written before live frames. */
  function Greeting(c: Chain, baseline: nat, state: Published): seq<Frame>
    requires state.forkchoice.Some?
  {
    var g := state.canonical.generation;
    [Frame(baseline, g, Hello), Frame(baseline, g, ConfigActivated(c.keys(g))),
     Frame(baseline, g, Snapshot(state.canonical, state.forkchoice.value))]
  }

  // ----- The log's moods and the reader's phases -----

  /** A reader in step with a log. It may have skipped the demand for a snapshot. */
  ghost predicate InStep(c: Chain, m: Mood, r: Reader) {
    && r.phase.Live? && r.phase.last == m.last
    && (r.phase.snapshotRequired ==> m.Await?)
    && r.active == Some(m.generation) && r.keys == c.keys(m.generation)
  }

  lemma ReadFollows(c: Chain, m: Mood, n: nat, call: Call, r: Reader)
    requires WellFormed(c) && CallTrue(c, call) && Follow(m, n, call).Some? && InStep(c, m, r)
    requires m.last < n && (!m.Torn? ==> n == m.last + 1)
    ensures var next := if call.encoded then Read(r, Frame(n, call.generation, call.event)) else Some(r);
            next.Some? && InStep(c, Follow(m, n, call).value, next.value)
  {
    hide WellFormed, Exact;
    SoundFrame(c, m, n, call, r);
  }

  lemma SoundFrame(c: Chain, m: Mood, n: nat, call: Call, r: Reader)
    requires WellFormed(c) && CallTrue(c, call) && Follow(m, n, call).Some? && InStep(c, m, r)
    ensures Sound(r.active, r.keys, Frame(n, call.generation, call.event))
  {
    match call.event
    case BlockState(p, _) => TruthSize(c, call.generation, p.block.hash);
    case CanonicalHead(_, p, _) => TruthSize(c, call.generation, p.block.hash);
    case Snapshot(p, _) => TruthSize(c, call.generation, p.block.hash);
    case _ =>
  }

  lemma {:induction false} PrefixMood(g: Generation, calls: seq<Call>, k: nat)
    requires After(g, calls).Some? && k <= |calls|
    ensures After(g, calls[..k]).Some?
    decreases |calls|
  {
    if k == |calls| {
      assert calls[..k] == calls;
    } else {
      PrefixMood(g, calls[..|calls| - 1], k);
      assert calls[..|calls| - 1][..k] == calls[..k];
    }
  }

  /** A mood knows the last committed sequence; only a torn one has attempts after it. */
  lemma {:induction false} MoodCommitted(g: Generation, calls: seq<Call>)
    requires After(g, calls).Some?
    ensures var m := After(g, calls).value; m.last == CommittedAfter(calls) && (!m.Torn? ==> m.last == |calls|)
    ensures CommittedAfter(calls) <= |calls|
    decreases |calls|
  {
    if calls != [] {
      MoodCommitted(g, calls[..|calls| - 1]);
    }
  }

  ghost predicate AllTagged(calls: seq<Call>) {
    forall i :: 0 <= i < |calls| ==> Tagged(i + 1, calls[i])
  }

  lemma {:induction false} MoodGeneration(first: Published, calls: seq<Call>)
    requires After(first.canonical.generation, calls).Some? && AllTagged(calls)
    ensures After(first.canonical.generation, calls).value.generation == StateAfter(first, calls).canonical.generation
    decreases |calls|
  {
    if calls != [] {
      var before := calls[..|calls| - 1];
      assert forall i :: 0 <= i < |before| ==> before[i] == calls[i];
      MoodGeneration(first, before);
    }
  }

  lemma MoodGrows(g: Generation, calls: seq<Call>, n: nat)
    requires After(g, calls).Some? && 0 < n <= |calls|
    ensures After(g, calls[..n]).Some? && After(g, calls[..n - 1]).Some?
    ensures var m := After(g, calls[..n - 1]).value;
            && After(g, calls[..n]) == Follow(m, n, calls[n - 1])
            && m.last < n && (!m.Torn? ==> n == m.last + 1)
  {
    hide Follow;
    PrefixMood(g, calls, n);
    PrefixMood(g, calls, n - 1);
    MoodCommitted(g, calls[..n - 1]);
    assert calls[..n][..n - 1] == calls[..n - 1];
  }

  lemma ReadGrows(calls: seq<Call>, lo: nat, n: nat, r: Reader)
    requires lo < n <= |calls|
    requires ReadAll(r, FramesOf(calls, Emitted(calls, lo, n - 1))).Some?
    ensures var before := ReadAll(r, FramesOf(calls, Emitted(calls, lo, n - 1)));
            ReadAll(r, FramesOf(calls, Emitted(calls, lo, n)))
            == if calls[n - 1].encoded then Read(before.value, FrameOf(calls, n)) else before
  {
    hide Read;
    var before, all := FramesOf(calls, Emitted(calls, lo, n - 1)), FramesOf(calls, Emitted(calls, lo, n));
    if calls[n - 1].encoded {
      assert all == before + [FrameOf(calls, n)];
      assert all[..|all| - 1] == before;
    } else {
      assert all == before;
    }
  }

  /** From any point where reader and log are in step, the reader takes every later frame. */
  lemma {:induction false} ReadsOn(c: Chain, g: Generation, calls: seq<Call>, lo: nat, hi: nat, r: Reader)
    requires WellFormed(c) && After(g, calls).Some? && lo <= hi <= |calls|
    requires forall i :: 0 <= i < |calls| ==> CallTrue(c, calls[i])
    requires After(g, calls[..lo]).Some? && InStep(c, After(g, calls[..lo]).value, r)
    ensures var end := ReadAll(r, FramesOf(calls, Emitted(calls, lo, hi)));
            After(g, calls[..hi]).Some? && end.Some? && InStep(c, After(g, calls[..hi]).value, end.value)
    decreases hi
  {
    hide InStep, CallTrue, Read, Follow, WellFormed, After, Emitted, FramesOf, ReadAll;
    if lo < hi {
      ReadsOn(c, g, calls, lo, hi - 1, r);
      MoodGrows(g, calls, hi);
      ReadGrows(calls, lo, hi, r);
      ReadFollows(c, After(g, calls[..hi - 1]).value, hi, calls[hi - 1],
                  ReadAll(r, FramesOf(calls, Emitted(calls, lo, hi - 1))).value);
    } else {
      NoFrames(calls, lo, r);
    }
  }

  lemma NoFrames(calls: seq<Call>, lo: nat, r: Reader)
    requires lo <= |calls|
    ensures ReadAll(r, FramesOf(calls, Emitted(calls, lo, lo))) == Some(r)
  {
  }
}

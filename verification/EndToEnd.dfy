/** From execution bundles to frames: what the feed publishes is the chain's storage. */
module EndToEnd {
  import opened Types
  import opened Chain
  import opened Projections
  import opened Watch
  import opened Extraction
  import opened Store
  import opened StoreInvariants
  import opened Wire
  import opened Publisher
  import opened PublisherInvariants

  /** The dictionaries, the storage after every block, and the bundle that led there. */
  datatype Execution = Execution(config: Generation -> seq<Coordinate>, world: Hash -> World, bundle: Hash -> Bundle)

  predicate Linked(c: Chain, h: Hash) { Number(c, h) == Number(c, Parent(c, h)) + 1 }

  /** Executing a block on its parent's storage gives its own. */
  ghost predicate Executes(c: Chain, x: Execution, h: Hash) {
    Linked(c, h) ==>
      && Recorded(x.world(Parent(c, h)), x.bundle(h))
      && forall a, s :: x.world(h)(a, s) == Post(x.world(Parent(c, h)), x.bundle(h), a, s)
  }

  /** The feed's chain is that of an execution: its deltas are the extracted ones. */
  ghost predicate Describes(c: Chain, x: Execution) {
    && (forall h :: c.meta(h).hash == h)
    && (forall g :: c.keys(g) == |x.config(g)|)
    && (forall g, h :: Reports(x.config(g), x.bundle(h), AllKeys(x.config(g)), c.delta(g, h)))
    && (forall g, h :: c.base(g, h) == Project(x.config(g), x.world(h)))
    && (forall h :: Executes(c, x, h))
  }

  lemma DescribesWellFormed(c: Chain, x: Execution)
    requires Describes(c, x)
    ensures WellFormed(c)
  {
    hide Reports, Executes, AllKeys;
    forall g, h
      ensures ValidDelta(c.delta(g, h), c.keys(g))
    {
      ReportsValid(x.config(g), x.bundle(h), c.delta(g, h));
    }
  }

  /** The watched values of a block are its storage, seen through the dictionary. */
  lemma {:induction false} TruthIsStorage(c: Chain, x: Execution, g: Generation, h: Hash)
    requires Describes(c, x)
    ensures Truth(c, g, h) == Project(x.config(g), x.world(h))
    decreases Number(c, h)
  {
    hide Reports, Project, Recorded, Post, ApplyDelta, Exact, AllKeys;
    if Linked(c, h) {
      TruthIsStorage(c, x, g, Parent(c, h));
      assert Executes(c, x, h);
      ExtractionSquare(x.config(g), x.world(Parent(c, h)), x.world(h), x.bundle(h), c.delta(g, h));
    }
  }

  /** The projection a frame carries, if it carries one. */
  function Carried(event: Event): Option<Projection> {
    match event
    case Snapshot(p, _) => Some(p)
    case BlockState(p, _) => Some(p)
    case CanonicalHead(_, p, _) => Some(p)
    case _ => None
  }

  ghost predicate ShowsStorage(x: Execution, g: Generation, p: Projection) {
    p.generation == g && p.values == Project(x.config(g), x.world(p.block.hash))
  }

  lemma CarriedShows(c: Chain, x: Execution, call: Call)
    requires Describes(c, x) && CallTrue(c, call)
    ensures Carried(call.event).Some? ==> ShowsStorage(x, call.generation, Carried(call.event).value)
  {
    hide Describes, Exact, Project;
    if Carried(call.event).Some? {
      TruthIsStorage(c, x, call.generation, Carried(call.event).value.block.hash);
    }
  }

  /** End to end: in every run over extracted deltas, every frame ever published and the state handed
      to new consumers show exactly the watched storage of the block they name. */
  lemma FeedShowsStorage(env: Env, x: Execution, limits: Limits, g: Generation, load: Load, now: Time, turns: seq<Turn>)
    requires Describes(env.chain, x) && ValidLimits(limits) && Coheres(env, load) && TurnsTrue(env, turns)
    ensures var p := Run(env, Start(env, limits, g, load, now), turns);
            && (forall i :: 0 <= i < |p.shared.calls| && Carried(p.shared.calls[i].event).Some? ==>
                  ShowsStorage(x, p.shared.calls[i].generation, Carried(p.shared.calls[i].event).value))
            && ShowsStorage(x, Active(p), p.shared.published.canonical)
  {
    hide Run, Start, Describes, Bounded, ShowsStorage, CallTrue, TurnsTrue, WellFormed;
    DescribesWellFormed(env.chain, x);
    LogIsTrue(env, limits, g, load, now, turns);
    var p := Run(env, Start(env, limits, g, load, now), turns);
    forall i | 0 <= i < |p.shared.calls|
      ensures Carried(p.shared.calls[i].event).Some? ==>
                ShowsStorage(x, p.shared.calls[i].generation, Carried(p.shared.calls[i].event).value)
    {
      assert CallTrue(env.chain, p.shared.calls[i]);
      CarriedShows(env.chain, x, p.shared.calls[i]);
    }
    assert ShowsStorage(x, Active(p), p.shared.published.canonical) by { StateShows(env.chain, x, p.shared.published); }
  }

  lemma StateShows(c: Chain, x: Execution, state: Published)
    requires Describes(c, x) && PublishedTrue(c, state)
    ensures ShowsStorage(x, state.canonical.generation, state.canonical)
  {
    hide Describes, Exact, Project;
    TruthIsStorage(c, x, state.canonical.generation, state.canonical.block.hash);
  }
}

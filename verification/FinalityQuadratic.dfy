/** A run whose sweep is not linear: a chain that grows on an anchor above the checkpoint. Every walk comes down
    to the anchor, learns nothing there and is forgotten. */
module FinalityQuadratic {
  import opened Types
  import opened Chain
  import opened Store
  import opened StoreInvariants
  import opened Finality
  import opened Publisher
  import opened PlainRuns

  // ----- A row of blocks -----

  /** The n hashes from base on. */
  function Span(base: nat, n: nat): (r: set<Hash>)
    ensures |r| == n && forall h :: h in r <==> base <= h < base + n
  {
    if n == 0 then {} else Span(base, n - 1) + {base + n - 1}
  }

  function Tickets(base: nat, n: nat): seq<Ticket> { seq(n, (i: nat) => Ticket(i + 1, base + i)) }

  predicate InRow(s: Store, base: nat, h: Hash)
    requires base <= h
  {
    Stored(s, h) && Held(s, h) && s.candidates[h].incarnation == h - base + 1
  }

  /** Blocks base to base + n - 1 of the line are the records. */
  ghost predicate Row(s: Store, base: nat, n: nat) {
    && base >= 8 && s.candidates.Keys == Span(base, n) && s.deferred == map[] && s.tombstones == {}
    && s.metadataOrder == Tickets(base, n)
    && forall h :: h in Span(base, n) ==> InRow(s, base, h)
  }

  lemma RowAt(s: Store, base: nat, n: nat, h: Hash)
    requires Row(s, base, n)
    ensures base >= 8
    ensures if base <= h < base + n then Meta(s, h) == Some(Header(h)) && Incarnation(s, h) == Some(h - base + 1)
            else Meta(s, h) == None
  {
    hide Header;
    if base <= h < base + n {
      assert InRow(s, base, h);
    }
  }

  lemma LineAt(h: Hash)
    requires h >= 8
    ensures Header(h).number == h && Header(h).parent == h - 1 && Header(h).hash == h
  {
  }

  // ----- The sweep of a row -----

  function Under(s: Store, finalized: Checkpoint, pending: seq<Ticket>, active: Option<Walk>): Store {
    s.(lastFinalized := Some(finalized), sweep := Some(Sweep(finalized, pending, map[], active)))
  }

  /** One unit takes a walk a block down the row, or ends it unclassified at the anchor. */
  lemma WalkUnit(row: Store, base: nat, n: nat, finalized: Checkpoint, pending: seq<Ticket>, w: Walk)
    requires Row(row, base, n) && finalized.number < base <= w.current < base + n
    ensures SweepUnit(Under(row, finalized, pending, Some(w)))
            == if w.current == base then Unit(Under(row, finalized, pending, None), [], true)
               else Unit(Under(row, finalized, pending,
                               Some(w.(path := w.path + [w.current], current := w.current - 1))), [], false)
  {
    hide Row, Header, RemoveOne;
    var s := Under(row, finalized, pending, Some(w));
    RowAt(row, base, n, w.current);
    RowAt(row, base, n, w.current - 1);
    AnchorFails(row, base, n);
    LineAt(w.current);
    assert Meta(s, w.current) == Meta(row, w.current) && Meta(s, w.current - 1) == Meta(row, w.current - 1);
    if w.current > base {
      LineAt(w.current - 1);
    }
  }

  lemma {:induction false} WalkFails(row: Store, base: nat, n: nat, finalized: Checkpoint, pending: seq<Ticket>,
                                     w: Walk)
    requires Row(row, base, n) && finalized.number < base <= w.current < base + n
    ensures SweepUnits(Under(row, finalized, pending, Some(w)), w.current - base + 1)
            == Slice(Under(row, finalized, pending, None), [], w.current - base + 1)
    decreases w.current
  {
    hide Row, SweepUnit;
    WalkUnit(row, base, n, finalized, pending, w);
    if w.current == base {
      NoUnits(Under(row, finalized, pending, None));
    } else {
      WalkFails(row, base, n, finalized, pending, w.(path := w.path + [w.current], current := w.current - 1));
    }
  }

  lemma AnchorFails(row: Store, base: nat, n: nat)
    requires Row(row, base, n)
    ensures row.tombstones == {} && !IsRecord(row, base - 1)
  {
  }

  /** A unit does not look at the sweep in the store, which was taken out of it. */
  lemma SweepTakenOut(s: Store, t: Store, sweep: Sweep, w: Walk)
    requires t == s.(sweep := t.sweep)
    ensures Examine(s, sweep, w) == Examine(t, sweep, w)
  {
    hide RemoveOne, Memoised;
    assert forall x :: s.(sweep := x) == t.(sweep := x);
  }

  /** A ticket's first unit is its walk's. */
  lemma TicketWalks(row: Store, base: nat, n: nat, finalized: Checkpoint, k: nat, rest: seq<Ticket>)
    requires Row(row, base, n) && row.head == base + n - 1 && k + 1 < n
    ensures SweepUnits(Under(row, finalized, [Ticket(k + 1, base + k)] + rest, None), k + 1)
            == SweepUnits(Under(row, finalized, rest, Some(Walk(k + 1, base + k, base + k, []))), k + 1)
  {
    hide Row, Examine;
    RowAt(row, base, n, base + k);
    var t := Ticket(k + 1, base + k);
    var s := Under(row, finalized, [t] + rest, None);
    assert ([t] + rest)[1..] == rest;
    assert Incarnation(s, base + k) == Incarnation(row, base + k);
    assert !Skipped(s, t);
    var w := Walk(k + 1, base + k, base + k, []);
    var sweep := Sweep(finalized, rest, map[], None);
    SweepTakenOut(s, Under(row, finalized, rest, Some(w)), sweep, w);
    assert sweep.(active := Some(w)).(active := None) == sweep;
  }

  lemma TicketFails(row: Store, base: nat, n: nat, finalized: Checkpoint, k: nat)
    requires Row(row, base, n) && row.head == base + n - 1 && finalized.number < base && k + 1 < n
    ensures SweepUnits(Under(row, finalized, Tickets(base, n)[k..], None), k + 1)
            == Slice(Under(row, finalized, Tickets(base, n)[k + 1..], None), [], k + 1)
  {
    hide Row, SweepUnits, Under;
    var q := Tickets(base, n);
    assert q[k..] == [Ticket(k + 1, base + k)] + q[k + 1..];
    TicketWalks(row, base, n, finalized, k, q[k + 1..]);
    WalkFails(row, base, n, finalized, q[k + 1..], Walk(k + 1, base + k, base + k, []));
  }

  function Triangle(k: nat): nat { if k == 0 then 0 else Triangle(k - 1) + k }

  lemma {:induction false} TriangleIs(k: nat)
    ensures 2 * Triangle(k) == k * (k + 1)
  {
    if k > 0 {
      TriangleIs(k - 1);
    }
  }

  lemma {:induction false} TicketsFail(row: Store, base: nat, n: nat, finalized: Checkpoint, k: nat)
    requires Row(row, base, n) && row.head == base + n - 1 && finalized.number < base && k < n
    ensures SweepUnits(Under(row, finalized, Tickets(base, n), None), Triangle(k))
            == Slice(Under(row, finalized, Tickets(base, n)[k..], None), [], Triangle(k))
  {
    hide SweepUnits, Row;
    var s := Under(row, finalized, Tickets(base, n), None);
    if k == 0 {
      assert SweepUnits(s, 0) == Slice(s, [], 0) by { NoUnits(s); }
      assert Tickets(base, n)[0..] == Tickets(base, n);
    } else {
      TicketsFail(row, base, n, finalized, k - 1);
      TicketFails(row, base, n, finalized, k - 1);
      UnitsSum(s, Triangle(k - 1), k);
    }
  }

  lemma NoUnits(s: Store)
    ensures SweepUnits(s, 0) == Slice(s, [], 0)
  {
  }

  lemma BusyBefore(s: Store, a: nat, b: nat)
    requires a <= b && Busy(ProcessFinality(s, b).store)
    ensures Busy(ProcessFinality(s, a).store)
  {
    SlicingIsInvisible(s, a, b - a);
  }

  /** The sweep of a row of n blocks takes more than n (n - 1) / 2 units. */
  lemma RowIsBusy(row: Store, base: nat, n: nat, finalized: Checkpoint, budget: nat)
    requires Row(row, base, n) && row.head == base + n - 1 && n > 0 && finalized.number < base
    requires 2 * budget <= (n - 1) * n
    ensures Busy(ProcessFinality(BeginSweep(row, finalized), budget).store)
  {
    assert Busy(ProcessFinality(BeginSweep(row, finalized), Triangle(n - 1)).store) by {
      hide SweepUnits, Triangle;
      TicketsFail(row, base, n, finalized, n - 1);
    }
    hide ProcessFinality, Busy, Triangle, BeginSweep, Row;
    TriangleIs(n - 1);
    BusyBefore(BeginSweep(row, finalized), budget, Triangle(n - 1));
  }

  // ----- The run -----

  /** The blocks after the first, one execution event each. */
  function Growing(base: nat, n: nat): seq<Command>
    requires n > 0
  {
    if n == 1 then [] else Growing(base, n - 1) + [Executes(base + n - 1)]
  }

  /** Room for the row. */
  predicate Roomy(limits: Limits, n: nat) { ValidLimits(limits) && n <= limits.cache }

  ghost predicate Grown(p: State, base: nat, n: nat, limits: Limits) {
    && Calm(p) && Row(p.store, base, n) && Quiet(p.store) && p.store.limits == limits && p.store.head == base
    && p.store.projectionCount == n && p.store.nextIncarnation == n + 1 && p.shared.published.canonical == Proj(base)
  }

  lemma FirstGrown(base: nat, limits: Limits)
    requires base >= 8
    ensures Grown(First(base, limits), base, 1, limits)
  {
    assert Span(base, 1) == {base};
    TruthSize(Plain().chain, 0, base);
    assert InRow(First(base, limits).store, base, base);
    assert Tickets(base, 1) == [Ticket(1, base)];
  }

  lemma PutOne(p: State, base: nat, n: nat, h: Hash, x: Hash)
    requires Quiet(p.store) && h == base + n && h !in p.store.candidates && p.store.nextIncarnation == n + 1
    requires base <= x <= h && (x != h ==> InRow(p.store, base, x))
    ensures InRow(Put(p, h), base, x)
  {
    hide Put, Header;
    PutEntry(p, h, x);
  }

  lemma PutInRow(p: State, base: nat, n: nat, limits: Limits)
    requires Grown(p, base, n, limits) && n > 0
    ensures Row(Put(p, base + n), base, n + 1) && Quiet(Put(p, base + n))
  {
    hide Put, Header, InRow, Quiet, Span, Tickets;
    var h := base + n;
    PutFields(p, h);
    MoreTickets(base, n);
    assert Quiet(Put(p, h)) ==> Put(p, h).deferred == map[] by { QuietDefersNothing(Put(p, h)); }
    forall x | x in Span(base, n + 1)
      ensures InRow(Put(p, h), base, x)
    {
      PutOne(p, base, n, h, x);
    }
  }

  lemma MoreTickets(base: nat, n: nat)
    ensures Tickets(base, n + 1) == Tickets(base, n) + [Ticket(n + 1, base + n)]
  {
  }

  lemma QuietDefersNothing(s: Store)
    ensures Quiet(s) ==> s.deferred == map[]
  {
  }

  lemma GrowPut(p: State, base: nat, n: nat, limits: Limits)
    requires Grown(p, base, n, limits) && n > 0 && Roomy(limits, n + 1)
    ensures var put := Put(p, base + n);
            && TrimProjections(put) == Trim(put, [], true) && MetadataLen(put) == n + 1 && put.limits == limits
            && Row(put, base, n + 1) && Quiet(put) && put.head == base && put.projectionCount == n + 1
            && put.nextIncarnation == n + 2
  {
    hide Put, Row, Quiet, Header;
    RowHolds(p.store, base, n);
    PutFields(p, base + n);
    PutInRow(p, base, n, limits);
    RowSize(Put(p, base + n), base, n + 1);
  }

  lemma GrowStep(p: State, base: nat, n: nat, limits: Limits)
    requires Grown(p, base, n, limits) && n > 0 && Roomy(limits, n + 1)
    ensures Grown(Next(p, Executes(base + n)), base, n + 1, limits)
  {
    hide Put, Next, Row, Header, Quiet, TrimProjections, Stored, MetadataLen;
    var h := base + n;
    RowHolds(p.store, base, n);
    LineAt(h);
    LineAt(h - 1);
    GrowPut(p, base, n, limits);
    ExecutedStep(p, Span(base, n), h);
  }

  lemma RowHolds(s: Store, base: nat, n: nat)
    requires Row(s, base, n) && n > 0
    ensures base + n !in s.candidates && s.candidates.Keys == Span(base, n) && s.tombstones == {} && base >= 8
    ensures (forall x :: x in Span(base, n) ==> Stored(s, x)) && Held(s, base + n - 1)
  {
    assert InRow(s, base, base + n - 1);
    assert forall x :: x in Span(base, n) ==> InRow(s, base, x);
  }

  lemma RowSize(s: Store, base: nat, n: nat)
    requires Row(s, base, n)
    ensures MetadataLen(s) == n
  {
    assert |s.candidates.Keys| == |s.candidates|;
  }

  lemma {:induction false} GrownAfter(base: nat, n: nat, limits: Limits)
    requires base >= 8 && n > 0 && Roomy(limits, n)
    ensures Grown(After(First(base, limits), Growing(base, n)), base, n, limits)
  {
    hide Grown, Next, After, Executes, First;
    var p := First(base, limits);
    if n == 1 {
      AfterNone(p);
      FirstGrown(base, limits);
    } else {
      GrownAfter(base, n - 1, limits);
      GrowStep(After(p, Growing(base, n - 1)), base, n - 1, limits);
      AfterMore(p, Growing(base, n - 1), Executes(base + n - 1));
    }
  }

  lemma LedRow(s: Store, base: nat, n: nat, h: Hash, m: nat)
    requires Row(s, base, n) && h in Span(base, n)
    ensures Row(Led(s, h, m), base, n) && Led(s, h, m).head == h && Led(s, h, m).limits == s.limits
    ensures Led(s, h, m).lastFinalized == s.lastFinalized
  {
    hide Led, Header;
    assert InRow(s, base, h);
    LedFields(s, h, m);
    forall x | x in Span(base, n)
      ensures InRow(Led(s, h, m), base, x)
    {
      assert InRow(s, base, x);
    }
  }

  /** The last block becomes the head, and something below the anchor is finalized. */
  function Rising(base: nat, n: nat, finalized: Checkpoint): seq<Command>
    requires n > 0
  {
    Growing(base, n) + [Leads(base + n - 1, Some(finalized))]
  }

  lemma NotedAnew(s: Store, finalized: Checkpoint)
    requires s.lastFinalized.None?
    ensures Noted(s, Some(finalized)) == ProcessFinality(BeginSweep(s, finalized), s.limits.budget).store
  {
    hide ProcessFinality;
  }

  lemma GrownLeads(p: State, base: nat, n: nat, limits: Limits)
    requires Grown(p, base, n, limits) && n > 0 && Roomy(limits, n)
    ensures p.store.deferred == map[] && p.store.lastFinalized.None? && WithinLimits(p.store)
    ensures Held(p.store, base + n - 1) && Stored(p.store, base + n - 1) && base >= 8
  {
    hide Row, Stored, Header;
    RowHolds(p.store, base, n);
    RowSize(p.store, base, n);
  }

  lemma RiseStep(p: State, base: nat, n: nat, limits: Limits, finalized: Checkpoint) returns (row: Store)
    requires Grown(p, base, n, limits) && n > 0 && Roomy(limits, n) && finalized.number < base
    ensures Row(row, base, n) && row.head == base + n - 1 && row.limits == limits
    ensures var r := Next(p, Leads(base + n - 1, Some(finalized)));
            Calm(r) && r.store == ProcessFinality(BeginSweep(row, finalized), limits.budget).store
  {
    hide Row, Next, Led, Noted, ProcessFinality, Header, Stored, WithinLimits, Quiet, BeginSweep, Span;
    var h := base + n - 1;
    GrownLeads(p, base, n, limits);
    LineAt(h);
    var m := LeadStep(p, h, Some(finalized));
    row := p.store;
    if n > 1 {
      row := Led(p.store, h, m);
      assert h in Span(base, n);
      LedRow(p.store, base, n, h, m);
    }
    NotedAnew(row, finalized);
  }

  // ----- Ticks -----

  function Ticks(k: nat): seq<Command> { seq(k, _ => OnTick([])) }

  predicate SameTerms(s: Store, r: Store) { r.limits == s.limits && r.lastFinalized == s.lastFinalized }

  lemma ExamineTerms(s: Store, sweep: Sweep, w: Walk)
    ensures SameTerms(s, Examine(s, sweep, w).store)
  {
    hide Memoised;
  }

  lemma {:induction false} UnitsTerms(s: Store, budget: nat)
    ensures SameTerms(s, SweepUnits(s, budget).store)
    decreases budget
  {
    hide Examine;
    if budget > 0 && Busy(s) {
      forall sweep, w
        ensures SameTerms(s, Examine(s, sweep, w).store)
      {
        ExamineTerms(s, sweep, w);
      }
      UnitsTerms(SweepUnit(s).store, budget - 1);
    }
  }

  function Times(a: nat, b: nat): nat { a * b }

  lemma {:induction false} TicksSlice(p: State, cmds: seq<Command>, start: Store, k: nat)
    requires Calm(After(p, cmds)) && After(p, cmds).store == ProcessFinality(start, start.limits.budget).store
    ensures var r := After(p, cmds + Ticks(k));
            Calm(r) && r.store == ProcessFinality(start, Times(k + 1, start.limits.budget)).store
    decreases k
  {
    hide After, Next, SweepUnits;
    var b := start.limits.budget;
    if k == 0 {
      assert cmds + Ticks(0) == cmds;
      assert Times(1, b) == b;
    } else {
      TicksSlice(p, cmds, start, k - 1);
      var q := After(p, cmds + Ticks(k - 1));
      UnitsTerms(start, Times(k, b));
      TickStep(q);
      SlicingIsInvisible(start, Times(k, b), b);
      assert Times(k, b) + b == Times(k + 1, b);
      AfterMore(p, cmds + Ticks(k - 1), OnTick([]));
      assert cmds + Ticks(k) == cmds + Ticks(k - 1) + [OnTick([])];
    }
  }

  /** The forkchoice's slice and k ticks with budget b do (k + 1) b units of work, and while that is at most
      n (n - 1) / 2 the sweep is not done. */
  lemma QuadraticWork(base: nat, n: nat, limits: Limits, finalized: Checkpoint, k: nat)
    requires base >= 8 && n > 0 && Roomy(limits, n) && finalized.number < base
    requires 2 * Times(k + 1, limits.budget) <= (n - 1) * n
    ensures var p := After(First(base, limits), Rising(base, n, finalized) + Ticks(k));
            !p.broken && p.store.lastFinalized == Some(finalized) && Busy(p.store)
  {
    hide Grown, Row, Next, After, ProcessFinality, First, Roomy, Leads, Times, Busy;
    var p := First(base, limits);
    GrownAfter(base, n, limits);
    var row := RiseStep(After(p, Growing(base, n)), base, n, limits, finalized);
    AfterMore(p, Growing(base, n), Leads(base + n - 1, Some(finalized)));
    TicksSlice(p, Rising(base, n, finalized), BeginSweep(row, finalized), k);
    RowIsBusy(row, base, n, finalized, Times(k + 1, limits.budget));
    assert SameTerms(BeginSweep(row, finalized),
                     ProcessFinality(BeginSweep(row, finalized), Times(k + 1, limits.budget)).store)
    by { SliceTerms(BeginSweep(row, finalized), Times(k + 1, limits.budget)); }
  }

  lemma SliceTerms(s: Store, budget: nat)
    ensures SameTerms(s, ProcessFinality(s, budget).store)
  {
    hide SweepUnits;
    UnitsTerms(s, budget);
  }

  lemma GrownSize(p: State, base: nat, n: nat, limits: Limits)
    requires Grown(p, base, n, limits)
    ensures !p.broken && MetadataLen(p.store) == n && |p.store.metadataOrder| == n
  {
    hide InRow;
    RowSize(p.store, base, n);
  }

  lemma FiveOn(n: nat)
    requires n >= 5
    ensures 2 * (n + n) <= (n - 1) * n
  {
  }

  /** From five blocks on one unit for each ticket and each record is not enough: there are n of either when the
      forkchoice begins the sweep, and after any number of slices that do up to 2 n units it is not done. */
  lemma LinearWorkFails(base: nat, n: nat, limits: Limits, finalized: Checkpoint, k: nat)
    requires base >= 8 && n >= 5 && Roomy(limits, n) && finalized.number < base
    requires Times(k + 1, limits.budget) <= n + n
    ensures var p := After(First(base, limits), Growing(base, n));
            !p.broken && MetadataLen(p.store) == n && |p.store.metadataOrder| == n
    ensures var p := After(First(base, limits), Rising(base, n, finalized) + Ticks(k));
            !p.broken && Busy(p.store)
  {
    hide After, First, Rising, Roomy, Times, Busy, Grown, Growing;
    GrownAfter(base, n, limits);
    GrownSize(After(First(base, limits), Growing(base, n)), base, n, limits);
    FiveOn(n);
    QuadraticWork(base, n, limits, finalized, k);
  }
}

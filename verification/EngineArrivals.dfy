/** Runs without calls: how many records routing alone gives an element. */
module EngineArrivals {
  import opened Bpmn
  import opened Routing
  import opened Records
  import opened Lifecycle
  import opened FailSafe
  import opened ErrorCatching
  import opened Engine
  import opened EngineSafety
  import opened EngineTokens

  /** How often handling the result enqueues `e`. */
  function Spawns(p: Process, r: Result, e: Id): nat {
    if r.action in {Route, Queue} then StepsTo(NextFlows(p, Route, r.item.element, r.filters), e) else 0
  }

  /** Nothing is called, and the element is not one that errors or boundary timers lead to. */
  predicate OnlyRouted(c: Config, p: Process, e: Id) {
    c.library == map[] && KindOf(p, e) !in {ErrorCatch, TimerEvent, MessageCatch}
  }

  /** Such an element gets what the routed results spawn. */
  lemma BringsRouted(c: Config, p: Process, x: Reading, e: Id)
    requires OnlyRouted(c, p, e) && x.graph == p && PickAllowed(c, p, x.result, x.pick)
    ensures Brings(c, x, e) == Spawns(p, x.result, e) && Attaches(x, e) == 0
  {
    if x.result.action == ThrowError {
      CaughtOnce(c, x, e);
    } else if x.result.action in {Wait, Form} {
      AttachedOnce(c, x, e);
    }
  }

  /** Elements that hand every token on along all their flows: start events, flow elements, forks. */
  predicate ForwardsAll(p: Process, e: Id) {
    KindOf(p, e) in {StartEvent, SequenceFlow}
    || (KindOf(p, e) == ParallelGateway && p.elements[e].direction == Diverging)
  }

  predicate Relays(p: Process, r: Result) { ForwardsAll(p, r.item.element) ==> r.action == Route && r.filters == [] }

  ghost predicate RelayNet(p: Process, n: Net) {
    && (forall r | r in n.results :: Relays(p, r))
    && (forall w | w in n.workers && w.Delivering? :: Relays(p, w.result))
  }

  lemma BusyRelays(p: Process, n: Net, i: nat, w: Worker)
    requires RelayNet(p, n) && i < |n.workers| && (w.Delivering? ==> Relays(p, w.result))
    ensures RelayNet(p, n.(workers := n.workers[i := w]))
  {
    assert forall x | x in n.workers[i := w] :: x == w || x in n.workers;
  }

  lemma NothingCalled(c: Config, s: State, e: Event)
    requires c.library == map[] && Ready(s, e)
    ensures Apply(c, s, e).process == s.process
  {
  }

  lemma PlausibleRelays(p: Process, store: seq<FlowRecord>, item: Item, r: Result)
    requires Plausible(p, store, item, r)
    ensures Relays(p, r)
  {
  }

  lemma StepRelays(c: Config, s: State, e: Event)
    requires RelayNet(s.process, s.net) && Enabled(c, s, e)
    ensures RelayNet(s.process, Apply(c, s, e).net)
  {
    match e {
      case Receive(late, pick) => assert Apply(c, s, e).net == s.net.(results := s.net.results[1..]);
      case Take(w) =>
        BusyRelays(s.process, s.net, w, Exited);
        BusyRelays(s.process, s.net, w, Executing(s.net.work[0]));
      case Execute(w, r) =>
        PlausibleRelays(s.process, s.store, s.net.workers[w].item, r);
        BusyRelays(s.process, s.net, w, Delivering(r));
      case Put(w) =>
        BusyRelays(s.process, s.net, w, Idle);
        assert s.net.workers[w] in s.net.workers;
      case Leave(w) => BusyRelays(s.process, s.net, w, Exited);
      case _ =>
    }
  }

  lemma {:induction false} ReadingsRelay(c: Config, s: State, es: seq<Event>, t: State)
    requires c.library == map[] && RelayNet(s.process, s.net) && Path(c, s, es, t)
    ensures forall x | x in Readings(c, s, es) :: Relays(s.process, x.result) && x.graph == s.process
    decreases |es|
  {
    if es != [] {
      NothingCalled(c, s, es[0]);
      StepRelays(c, s, es[0]);
      ReadingsRelay(c, Apply(c, s, es[0]), es[1..], t);
    }
  }

  /** `e` is enqueued by the elements `feeders` alone, `times` times by each of their results. */
  ghost predicate FedBy(p: Process, e: Id, feeders: set<Id>, times: nat) {
    forall r | Relays(p, r) :: Spawns(p, r, e) == if r.item.element in feeders then times else 0
  }

  lemma {:induction false} BringsPassed(c: Config, p: Process, xs: seq<Reading>, e: Id, feeders: set<Id>, times: nat)
    requires OnlyRouted(c, p, e) && FedBy(p, e, feeders, times)
    requires forall x | x in xs :: Relays(p, x.result) && x.graph == p && PickAllowed(c, p, x.result, x.pick)
    ensures BringsAll(c, xs, e) == times * Passed(ItemsOf(ResultsOf(xs)), feeders) && AttachesAll(xs, e) == 0
  {
    if xs != [] {
      BringsPassed(c, p, xs[1..], e, feeders, times);
      PassedFirst(xs, feeders);
      BringsFed(c, p, xs[0], e, feeders, times);
      Distribute(times, if xs[0].result.item.element in feeders then 1 else 0,
                 Passed(ItemsOf(ResultsOf(xs[1..])), feeders));
    }
  }

  lemma BringsFed(c: Config, p: Process, x: Reading, e: Id, feeders: set<Id>, times: nat)
    requires OnlyRouted(c, p, e) && FedBy(p, e, feeders, times)
    requires Relays(p, x.result) && x.graph == p && PickAllowed(c, p, x.result, x.pick)
    ensures Brings(c, x, e) == times * (if x.result.item.element in feeders then 1 else 0) && Attaches(x, e) == 0
  {
    BringsRouted(c, p, x, e);
  }

  lemma PassedFirst(xs: seq<Reading>, among: set<Id>)
    requires xs != []
    ensures Passed(ItemsOf(ResultsOf(xs)), among)
            == (if xs[0].result.item.element in among then 1 else 0) + Passed(ItemsOf(ResultsOf(xs[1..])), among)
  {
    assert ItemsOf(ResultsOf(xs))[1..] == ItemsOf(ResultsOf(xs[1..]));
  }

  lemma Distribute(times: nat, a: nat, b: nat)
    ensures times * (a + b) == times * a + times * b
  {
  }

  lemma BroughtByFeeders(c: Config, start: State, es: seq<Event>, s: State, e: Id, feeders: set<Id>, times: nat)
    requires Starting(c, start) && Path(c, start, es, s) && Undisturbed(s.coordinator)
    requires OnlyRouted(c, start.process, e) && FedBy(start.process, e, feeders, times)
    ensures BringsAll(c, Readings(c, start, es), e) == times * Passed(s.books.handled, feeders)
    ensures AttachesAll(Readings(c, start, es), e) == 0
  {
    RecordsAccounted(c, start, es, s, e);
    ReadingsRelay(c, start, es, s);
    BringsPassed(c, start.process, Readings(c, start, es), e, feeders, times);
  }

  /** In every run, under every schedule: the records of `e`, written or still to be written, are those
      of the start and `times` for every handled result of a feeder. */
  lemma ArrivalsPerFeeder(c: Config, start: State, es: seq<Event>, s: State, e: Id, feeders: set<Id>, times: nat)
    requires Starting(c, start) && Path(c, start, es, s) && Undisturbed(s.coordinator)
    requires OnlyRouted(c, start.process, e) && FedBy(start.process, e, feeders, times)
    ensures Arrivals(s, e) == ArrivalsAt(start.store, e) + times * Passed(s.books.handled, feeders)
  {
    BroughtByFeeders(c, start, es, s, e, feeders, times);
    RecordsAccounted(c, start, es, s, e);
  }

  /** Tokens are conserved: in a finalized run the handled results of `e` are those it was started at,
      and `times` for every handled result of a feeder. */
  lemma TokensConserved(c: Config, start: State, es: seq<Event>, s: State, e: Id, feeders: set<Id>, times: nat)
    requires Starting(c, start) && Path(c, start, es, s) && IsFinalized(s.coordinator)
    requires OnlyRouted(c, start.process, e) && FedBy(start.process, e, feeders, times)
    ensures Passed(s.books.handled, {e}) == Passed(start.books.issued, {e}) + times * Passed(s.books.handled, feeders)
  {
    BroughtByFeeders(c, start, es, s, e, feeders, times);
    HandledAccounted(c, start, es, s, e);
  }
}

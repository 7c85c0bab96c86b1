/** Once one schedule finalizes, every other one does: it cannot go on for ever, and where it stops it
    has finalized, unless the channels block it. */
module EngineConvergence {
  import opened Bpmn
  import opened Routing
  import opened Records
  import opened Lifecycle
  import opened FailSafe
  import opened Engine
  import opened EngineSafety
  import opened EngineProgress
  import opened EngineTermination
  import opened EngineConfluence

  /** Whatever the store holds, executing an element can give what its script says. */
  ghost predicate Followable(p: Process, b: Script) {
    forall store: seq<FlowRecord>, r: Result | Follows(b, r) :: Plausible(p, store, r.item, r)
  }

  ghost predicate Width(p: Process, width: nat) {
    forall id | id in p.elements :: |p.elements[id].outgoing| <= width
  }

  ghost predicate InScript(b: Script, items: seq<Item>) { forall x | x in items :: x.element in b }

  lemma StepInScript(c: Config, b: Script, s: State, e: Event)
    requires ScriptedNet(b, s.net) && InScript(b, s.books.handled) && Ready(s, e)
    ensures InScript(b, Apply(c, s, e).books.handled)
  {
    if e.Receive? {
      assert s.net.results[0] in s.net.results;
      assert Apply(c, s, e).books.handled == s.books.handled + [s.net.results[0].item];
    } else {
      OtherFrame(c, s, e);
    }
  }

  lemma {:induction false} HandledInScript(c: Config, b: Script, start: State, s: State, es: seq<Event>, t: State)
    requires OnScript(c, b, start, s) && SteadyPath(c, b, s, es, t) && IsFinalized(t.coordinator)
    requires InScript(b, s.books.handled)
    ensures InScript(b, t.books.handled)
    decreases |es|
  {
    if es != [] {
      var next := Apply(c, s, es[0]);
      assert Steady(b, es[0]);
      StepInScript(c, b, s, es[0]);
      if es[0].Receive? {
        if Judge(s.tally, s.net.results[0].item.element, false, c.maxLoops) != Fine {
          TripSticks(c, next, es[1..], t);
        }
        ReceiveOnScript(c, b, start, s, es[0].pick);
      } else {
        OtherOnScript(c, b, start, s, es[0]);
      }
      HandledInScript(c, b, start, next, es[1..], t);
    }
  }

  /** What the complete run `all` vouches for at a state of another schedule. */
  ghost predicate Vouched(c: Config, b: Script, start: State, s: State, all: seq<Id>) {
    && OnScript(c, b, start, s) && Seen(s) <= multiset(all)
    && Certificate(c, start.process, b, start, all)
    && forall e | e in all :: e in b
  }

  /** Whatever is in flight is an element the complete run has handled. */
  lemma FlyingInScript(c: Config, b: Script, start: State, s: State, all: seq<Id>, item: Item)
    requires Vouched(c, b, start, s, all) && item in InFlight(s)
    ensures item.element in b
  {
    OneMoreIssued(s, item);
    IssuedCovered(c, s.process, b, start, s, all);
    var k :| 0 <= k < |s.books.issued| && s.books.issued[k] == item by {
      assert item in multiset(s.books.handled + [item]);
      assert item in multiset(s.books.issued);
    }
    assert ElementsOf(s.books.issued)[k] == item.element;
    assert item.element in multiset(ElementsOf(s.books.issued));
    assert item.element in multiset(all);
  }

  lemma ExecutingFlies(s: State, w: nat)
    requires w < |s.net.workers| && s.net.workers[w].Executing?
    ensures s.net.workers[w].item in InFlight(s)
  {
    HeldIncludes(s.net.workers, w);
    assert s.net.workers[w].item in Held(s.net.workers);
  }

  ghost predicate WorkersInScript(b: Script, n: Net) {
    forall w | 0 <= w < |n.workers| && n.workers[w].Executing? :: n.workers[w].item.element in b
  }

  lemma VouchedWorkers(c: Config, b: Script, start: State, s: State, all: seq<Id>)
    requires Vouched(c, b, start, s, all)
    ensures WorkersInScript(b, s.net)
  {
    forall w | 0 <= w < |s.net.workers| && s.net.workers[w].Executing? ensures s.net.workers[w].item.element in b {
      ExecutingFlies(s, w);
      FlyingInScript(c, b, start, s, all, s.net.workers[w].item);
    }
  }

  lemma ScriptedExecution(c: Config, b: Script, s: State, w: nat) returns (e: Event)
    requires Followable(s.process, b) && w < |s.net.workers| && s.net.workers[w].Executing?
    requires s.net.workers[w].item.element in b
    ensures Enabled(c, s, e) && Steady(b, e)
  {
    var item := s.net.workers[w].item;
    var r := Result(b[item.element].action, item, b[item.element].filters, "");
    assert Follows(b, r) && Plausible(s.process, s.store, r.item, r);
    e := Execute(w, r);
  }

  /** A schedule that is not blocked has a step that keeps to the script. */
  lemma SteadyMoves(c: Config, b: Script, s: State) returns (e: Event)
    requires Inv(c, s) && WorkersInScript(b, s.net) && Followable(s.process, b)
    requires !Blocked(s) && !s.coordinator.Returned?
    ensures Enabled(c, s, e) && Steady(b, e)
  {
    e := UnblockedMoves(c, s);
    match e {
      case Receive(_, pick) => e := Receive(false, pick);
      case Execute(w, _) => e := ScriptedExecution(c, b, s, w);
      case _ =>
    }
  }

  lemma NextWidth(p: Process, b: Script, e: Id, width: nat)
    requires Width(p, width)
    ensures |NextOf(p, b, e)| <= width
  {
    if e in b && e in p.elements {
      AlongLength(p, p.elements[e].outgoing, b[e].filters);
    }
  }

  lemma SteadyReceivePace(c: Config, b: Script, s: State, pick: Pick, width: nat)
    requires s.coordinator.Selecting? && s.net.results != [] && Follows(b, s.net.results[0]) && Width(s.process, width)
    requires Judge(s.tally, s.net.results[0].item.element, false, c.maxLoops) == Fine
    ensures var t := Received(c, s, false, pick);
            Pace(t) < Pace(s) + 6 * width + 1 && |t.books.handled| == |s.books.handled| + 1
  {
    ReceivedScripted(c, b, s, pick);
    NextWidth(s.process, b, s.net.results[0].item.element, width);
  }

  /** Steps a schedule still has in it. */
  function StepsLeft(s: State, width: nat, total: nat): int { (total - |s.books.handled|) * (6 * width + 1) + Pace(s) }

  lemma SteadyReceive(c: Config, b: Script, start: State, s: State, pick: Pick, all: seq<Id>, width: nat)
    requires OnScript(c, b, start, s) && Seen(s) <= multiset(all) && Certificate(c, start.process, b, start, all)
    requires s.coordinator.Selecting? && s.net.results != [] && Width(s.process, width)
    ensures var t := Received(c, s, false, pick);
            && OnScript(c, b, start, t) && Seen(t) <= multiset(all)
            && Pace(t) < Pace(s) + 6 * width + 1 && |t.books.handled| == |s.books.handled| + 1
  {
    assert s.net.results[0] in s.net.results;
    Covered(c, b, start, s, all);
    GuardPasses(c, b, start, s, multiset(all));
    ReceiveOnScript(c, b, start, s, pick);
    SteadyReceivePace(c, b, s, pick, width);
  }

  lemma SteadyStep(c: Config, b: Script, start: State, s: State, e: Event, all: seq<Id>, width: nat)
    requires OnScript(c, b, start, s) && Seen(s) <= multiset(all) && Certificate(c, start.process, b, start, all)
    requires Enabled(c, s, e) && Steady(b, e) && Width(s.process, width)
    ensures OnScript(c, b, start, Apply(c, s, e)) && Seen(Apply(c, s, e)) <= multiset(all)
    ensures StepsLeft(Apply(c, s, e), width, |all|) < StepsLeft(s, width, |all|)
  {
    if e.Receive? {
      SteadyReceive(c, b, start, s, e.pick, all, width);
    } else {
      OtherOnScript(c, b, start, s, e);
      OtherStepsPace(c, s, e);
    }
    LeftFalls(s, Apply(c, s, e), width, |all|);
  }

  lemma LeftFalls(s: State, t: State, width: nat, total: nat)
    requires || (|t.books.handled| == |s.books.handled| + 1 && Pace(t) < Pace(s) + 6 * width + 1)
             || (t.books.handled == s.books.handled && Pace(t) < Pace(s))
    ensures StepsLeft(t, width, total) < StepsLeft(s, width, total)
  {
    Falls(total - |s.books.handled|, total - |t.books.handled|, 6 * width + 1, Pace(s), Pace(t));
  }

  lemma {:induction false} SteadyPathEnds(c: Config, b: Script, start: State, s: State, es: seq<Event>, t: State,
                                          all: seq<Id>, width: nat)
    requires Vouched(c, b, start, s, all) && SteadyPath(c, b, s, es, t) && Width(s.process, width)
    ensures Vouched(c, b, start, t, all) && |es| + StepsLeft(t, width, |all|) <= StepsLeft(s, width, |all|)
    decreases |es|
  {
    if es != [] {
      assert Steady(b, es[0]);
      SteadyStep(c, b, start, s, es[0], all, width);
      SteadyPathEnds(c, b, start, Apply(c, s, es[0]), es[1..], t, all, width);
    }
  }

  lemma StepsLeftNatural(s: State, width: nat, all: seq<Id>)
    requires Seen(s) <= multiset(all)
    ensures StepsLeft(s, width, |all|) >= 0
  {
    assert |Seen(s)| == |s.books.handled| && |multiset(all)| == |all|;
    assert multiset(all) == Seen(s) + (multiset(all) - Seen(s));
    Product(|all| - |s.books.handled|, 6 * width + 1);
  }

  lemma FinalizedScripted(c: Config, b: Script, start: State, es: seq<Event>, s: State)
    requires Starting(c, start) && SteadyPath(c, b, start, es, s) && IsFinalized(s.coordinator)
    ensures forall e | e in ElementsOf(s.books.handled) :: e in b
  {
    StartingOnScript(c, b, start);
    HandledInScript(c, b, start, start, es, s);
    forall e | e in ElementsOf(s.books.handled) ensures e in b {
      var k :| 0 <= k < |s.books.handled| && ElementsOf(s.books.handled)[k] == e;
      assert s.books.handled[k] in s.books.handled;
    }
  }

  lemma FinalizedVouches(c: Config, b: Script, start: State, es: seq<Event>, s: State)
    requires Starting(c, start) && SteadyPath(c, b, start, es, s) && IsFinalized(s.coordinator)
    ensures Vouched(c, b, start, start, ElementsOf(s.books.handled))
  {
    StartingOnScript(c, b, start);
    FinalizedOnScript(c, b, start, start, es, s);
    FinalizedCertifies(c, b, start, s);
    FinalizedScripted(c, b, start, es, s);
  }

  /** A schedule that can make no further step. */
  ghost predicate AtRest(c: Config, b: Script, s: State) { forall e | Enabled(c, s, e) :: !Steady(b, e) }

  lemma RestsAtEnd(c: Config, b: Script, start: State, s: State, all: seq<Id>)
    requires Vouched(c, b, start, s, all) && Followable(s.process, b) && AtRest(c, b, s)
    ensures Blocked(s) || s.coordinator == Returned(Finalized)
  {
    VouchedWorkers(c, b, start, s, all);
    if !Blocked(s) && !s.coordinator.Returned? {
      var e := SteadyMoves(c, b, s);
    }
  }

  lemma ScheduleIsFinite(c: Config, b: Script, start: State, width: nat, es: seq<Event>, s: State, all: seq<Id>)
    requires Starting(c, start) && Vouched(c, b, start, start, all) && Width(start.process, width)
    requires SteadyPath(c, b, start, es, s)
    ensures Vouched(c, b, start, s, all)
    ensures |es| <= |all| * (6 * width + 1) + 5 * |start.books.issued| + c.workers + 3
  {
    SteadyPathEnds(c, b, start, start, es, s, all, width);
    VouchedNatural(c, b, start, s, width, all);
    StepsAtStart(c, start, width, |all|);
  }

  lemma VouchedNatural(c: Config, b: Script, start: State, s: State, width: nat, all: seq<Id>)
    requires Vouched(c, b, start, s, all)
    ensures StepsLeft(s, width, |all|) >= 0
  {
    StepsLeftNatural(s, width, all);
  }

  /** Convergence. If one schedule finalizes, every other schedule of the same elements is finite, with
      the bound below, and one that can make no further step has finalized with the same elements
      handled, or is blocked on full channels. */
  lemma Convergence(c: Config, b: Script, start: State, width: nat, es: seq<Event>, s: State, es': seq<Event>,
                    s': State)
    requires Starting(c, start) && Followable(start.process, b) && Width(start.process, width)
    requires SteadyPath(c, b, start, es, s) && IsFinalized(s.coordinator)
    requires SteadyPath(c, b, start, es', s')
    ensures |es'| <= |s.books.handled| * (6 * width + 1) + 5 * |start.books.issued| + c.workers + 3
    ensures AtRest(c, b, s') ==> Blocked(s') || (s'.coordinator == Returned(Finalized) && Seen(s') == Seen(s))
  {
    var all := ElementsOf(s.books.handled);
    FinalizedVouches(c, b, start, es, s);
    ScheduleIsFinite(c, b, start, width, es', s', all);
    if AtRest(c, b, s') && !Blocked(s') {
      RestsAtEnd(c, b, start, s', all);
      Confluence(c, b, start, es, s, es', s');
    }
  }

  lemma StepsAtStart(c: Config, start: State, width: nat, total: nat)
    requires Starting(c, start)
    ensures StepsLeft(start, width, total) == total * (6 * width + 1) + 5 * |start.books.issued| + c.workers + 3
  {
    IdleWork(start.net.workers);
  }
}

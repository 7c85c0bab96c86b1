/** What every handled result does to the records: how many of each element a run writes and enqueues. */
module EngineTokens {
  import opened Bpmn
  import opened Routing
  import opened Records
  import opened Lifecycle
  import opened FailSafe
  import opened ErrorCatching
  import opened Strings
  import opened Engine
  import opened EngineSafety
  import opened EngineTheorems

  /** A result received, the process definition it was handled with, and the choices made. */
  datatype Reading = Reading(graph: Process, result: Result, pick: Pick)

  /** What was received along a path, in order. */
  ghost function Readings(c: Config, s: State, es: seq<Event>): seq<Reading>
    decreases |es|
  {
    if es == [] || !Ready(s, es[0]) then []
    else
      (if es[0].Receive? then [Reading(s.process, s.net.results[0], es[0].pick)] else [])
      + Readings(c, Apply(c, s, es[0]), es[1..])
  }

  function HopsTo(hops: seq<Hop>, e: Id): nat {
    if hops == [] then 0 else (if hops[0].element == e then 1 else 0) + HopsTo(hops[1..], e)
  }

  function StepsTo(next: seq<NextFlow>, e: Id): nat {
    if next == [] then 0 else StepsTo(next[..|next| - 1], e) + if next[|next| - 1].element == e then 1 else 0
  }

  lemma {:induction false} HopsConcat(a: seq<Hop>, b: seq<Hop>, e: Id)
    ensures HopsTo(a + b, e) == HopsTo(a, e) + HopsTo(b, e)
  {
    if a == [] {
      assert a + b == b;
    } else {
      HopsConcat(a[1..], b, e);
      assert (a + b)[1..] == a[1..] + b;
    }
  }

  lemma {:induction false} RoutedHopsTo(next: seq<NextFlow>, e: Id)
    ensures HopsTo(RoutedHops(next), e) == StepsTo(next, e)
  {
    if next != [] {
      var n, last := |next| - 1, next[|next| - 1];
      RoutedHopsTo(next[..n], e);
      assert RoutedHops(next) == RoutedHops(next[..n]) + [Hop(last.element, Routed(last.flow))];
      HopsConcat(RoutedHops(next[..n]), [Hop(last.element, Routed(last.flow))], e);
    }
  }

  /** How often a result has `e` recorded and enqueued: along the routed flows, as the catcher of a thrown
      error, as the start of a called process. */
  function Brings(c: Config, x: Reading, e: Id): nat {
    var r := x.result;
    match r.action
    case Route => StepsTo(NextFlows(x.graph, Route, r.item.element, r.filters), e)
    case Queue => StepsTo(NextFlows(x.graph, Route, r.item.element, r.filters), e)
    case ThrowError => if x.pick.catcher == Some(e) then 1 else 0
    case CallActivity =>
      if r.called in c.library && r.called != "" && e == "ca-" + r.item.element + "." + c.library[r.called].start then 1
      else 0
    case _ => 0
  }

  /** How often it has `e` recorded as an attached event that waits, without enqueueing it. */
  function Attaches(x: Reading, e: Id): nat {
    if x.result.action in {Wait, Form} then multiset(x.pick.boundary)[e] else 0
  }

  function BringsAll(c: Config, xs: seq<Reading>, e: Id): nat {
    if xs == [] then 0 else Brings(c, xs[0], e) + BringsAll(c, xs[1..], e)
  }

  function AttachesAll(xs: seq<Reading>, e: Id): nat {
    if xs == [] then 0 else Attaches(xs[0], e) + AttachesAll(xs[1..], e)
  }

  lemma {:induction false} ReadBefore(c: Config, xs: seq<Reading>, x: Reading, e: Id)
    ensures BringsAll(c, [x] + xs, e) == Brings(c, x, e) + BringsAll(c, xs, e)
    ensures AttachesAll([x] + xs, e) == Attaches(x, e) + AttachesAll(xs, e)
  {
    assert ([x] + xs)[1..] == xs;
  }

  lemma {:induction false} BoundaryCount(p: Process, host: Item, chosen: seq<Id>, e: Id)
    ensures ArrivalsAt(BoundaryRecords(p, host, chosen), e) == multiset(chosen)[e]
  {
    if chosen != [] {
      var n := |chosen| - 1;
      BoundaryCount(p, host, chosen[..n], e);
      assert chosen == chosen[..n] + [chosen[n]];
      assert BoundaryRecords(p, host, chosen)[..n] == BoundaryRecords(p, host, chosen[..n]);
    }
  }

  lemma OneHopTo(hop: Hop, e: Id)
    ensures HopsTo([hop], e) == if hop.element == e then 1 else 0
  {
    assert [hop][1..] == [];
  }

  /** A handler that comes back has done what `Brings` and `Attaches` say. */
  lemma RespondBrings(c: Config, p: Process, status: Status, r: Result, pick: Pick, e: Id)
    requires Respond(c, p, status, r, pick).exit == Continue
    ensures var reply, x := Respond(c, p, status, r, pick), Reading(p, r, pick);
            ArrivalsAt(reply.records, e) == Attaches(x, e) && HopsTo(reply.hops, e) == Brings(c, x, e)
  {
    match r.action {
      case Route => RoutedHopsTo(NextFlows(p, Route, r.item.element, r.filters), e);
      case Queue => RoutedHopsTo(NextFlows(p, Queue, r.item.element, r.filters), e);
      case Wait => BoundaryCount(p, r.item, pick.boundary, e);
      case Form => BoundaryCount(p, r.item, pick.boundary, e);
      case ThrowError =>
        if pick.catcher.Some? {
          OneHopTo(Hop(pick.catcher.value, Caught), e);
        }
      case CallActivity =>
        if r.called != "" {
          OneHopTo(Hop("ca-" + r.item.element + "." + c.library[r.called].start, Called), e);
        }
      case _ =>
    }
  }

  /** Records of `e`, written and still to be written. */
  function Arrivals(s: State, e: Id): nat { ArrivalsAt(s.store, e) + HopsTo(Todo(s.coordinator), e) }

  lemma {:induction false} NoArrivals(records: seq<FlowRecord>, e: Id)
    requires forall r | r in records :: r.element != e
    ensures ArrivalsAt(records, e) == 0
  {
    if records != [] {
      NoArrivals(records[..|records| - 1], e);
    }
  }

  lemma CarriedExit(u: State, current: Item, reply: Reply)
    ensures var t := Carried(u, current, reply);
            && (Undisturbed(t.coordinator) ==> reply.exit == Continue && Todo(t.coordinator) == reply.hops)
            && t.store == u.store + reply.records && t.books == u.books
  {
  }

  lemma ReceivedTokens(c: Config, s: State, late: bool, pick: Pick, e: Id)
    requires Ready(s, Receive(late, pick)) && Undisturbed(Received(c, s, late, pick).coordinator)
    ensures var t, x := Received(c, s, late, pick), Reading(s.process, s.net.results[0], pick);
            && t.books.issued == s.books.issued && HopsTo(Todo(s.coordinator), e) == 0
            && HopsTo(Todo(t.coordinator), e) == Brings(c, x, e)
            && ArrivalsAt(t.store, e) == ArrivalsAt(s.store, e) + Attaches(x, e)
  {
    var r := s.net.results[0];
    var reply := Respond(c, s.process, s.instance.life.status, r, pick);
    CarriedExit(Counting(s, late), r.item, reply);
    RespondBrings(c, s.process, s.instance.life.status, r, pick, e);
    ArrivalsConcat(s.store, reply.records, e);
  }

  lemma OneArrival(r: FlowRecord, x: Id)
    ensures ArrivalsAt([r], x) == if r.element == x then 1 else 0
  {
    assert [r][..0] == [];
  }

  /** Handled results of the elements `among`. */
  function Passed(items: seq<Item>, among: set<Id>): nat {
    if items == [] then 0 else (if items[0].element in among then 1 else 0) + Passed(items[1..], among)
  }

  lemma {:induction false} PassedConcat(a: seq<Item>, b: seq<Item>, among: set<Id>)
    ensures Passed(a + b, among) == Passed(a, among) + Passed(b, among)
  {
    if a == [] {
      assert a + b == b;
    } else {
      PassedConcat(a[1..], b, among);
      assert (a + b)[1..] == a[1..] + b;
    }
  }

  lemma PassedOne(items: seq<Item>, i: nat, among: set<Id>)
    requires i < |items|
    ensures Passed(items, among) == Passed(items[..i] + items[i + 1..], among)
            + if items[i].element in among then 1 else 0
    ensures multiset(items) == multiset(items[..i] + items[i + 1..]) + multiset{items[i]}
  {
    assert items == items[..i] + ([items[i]] + items[i + 1..]);
    assert ([items[i]] + items[i + 1..])[1..] == items[i + 1..];
    PassedConcat(items[..i], [items[i]] + items[i + 1..], among);
    PassedConcat(items[..i], items[i + 1..], among);
  }

  /** The order does not matter. */
  lemma {:induction false} PassedUnordered(a: seq<Item>, b: seq<Item>, among: set<Id>)
    requires multiset(a) == multiset(b)
    ensures Passed(a, among) == Passed(b, among)
  {
    assert |a| == |multiset(a)| == |multiset(b)| == |b|;
    if a != [] {
      var i := Matched(a, b);
      PassedOne(a, 0, among);
      PassedOne(b, i, among);
      PassedUnordered(a[..0] + a[1..], b[..i] + b[i + 1..], among);
    }
  }

  lemma Matched(a: seq<Item>, b: seq<Item>) returns (i: nat)
    requires multiset(a) == multiset(b) && a != []
    ensures i < |b| && b[i] == a[0]
    ensures multiset(a[..0] + a[1..]) == multiset(b[..i] + b[i + 1..])
  {
    assert a[0] in multiset(b);
    i :| 0 <= i < |b| && b[i] == a[0];
    PassedOne(a, 0, {});
    PassedOne(b, i, {});
    Cancel(multiset(a[..0] + a[1..]), multiset(b[..i] + b[i + 1..]), multiset{a[0]});
  }

  /** Items of `e` issued, and still to be issued. */
  function Issues(s: State, e: Id): nat { Passed(s.books.issued, {e}) + HopsTo(Todo(s.coordinator), e) }

  lemma OtherTokens(c: Config, s: State, e: Event, x: Id)
    requires Ready(s, e) && !e.Receive? && Undisturbed(Apply(c, s, e).coordinator)
    ensures var t := Apply(c, s, e); Arrivals(t, x) == Arrivals(s, x) && Issues(t, x) == Issues(s, x)
  {
    if e.Record? {
      var hop := s.coordinator.todo[0];
      var r := FlowRecord(hop.element, Some(s.coordinator.current.record), hop.via, s.process);
      ArrivalsConcat(s.store, [r], x);
      OneArrival(r, x);
      PassedConcat(s.books.issued, [Item(|s.store|, hop.element)], {x});
      assert [Item(|s.store|, hop.element)][1..] == [];
    }
  }

  /** Every record is accounted for, whatever is routed, caught, called or attached on the way: it was
      there at the start, or a result received since brought it. */
  lemma {:induction false} TokensLaw(c: Config, s: State, es: seq<Event>, t: State, e: Id)
    requires Path(c, s, es, t) && Undisturbed(t.coordinator)
    ensures var xs := Readings(c, s, es);
            && Arrivals(t, e) == Arrivals(s, e) + BringsAll(c, xs, e) + AttachesAll(xs, e)
            && Issues(t, e) == Issues(s, e) + BringsAll(c, xs, e)
    decreases |es|
  {
    if es != [] {
      var mid := Apply(c, s, es[0]);
      DisturbedStays(c, mid, es[1..], t);
      TokensLaw(c, mid, es[1..], t, e);
      if es[0].Receive? {
        ReceivedTokens(c, s, es[0].late, es[0].pick, e);
        ReadBefore(c, Readings(c, mid, es[1..]), Reading(s.process, s.net.results[0], es[0].pick), e);
      } else {
        OtherTokens(c, s, es[0], e);
        assert [] + Readings(c, mid, es[1..]) == Readings(c, mid, es[1..]);
      }
    }
  }

  function ResultsOf(xs: seq<Reading>): (rs: seq<Result>)
    ensures |rs| == |xs| && forall i | 0 <= i < |xs| :: rs[i] == xs[i].result
  {
    seq(|xs|, i requires 0 <= i < |xs| => xs[i].result)
  }

  lemma StepHandled(c: Config, s: State, e: Event)
    requires Ready(s, e)
    ensures Apply(c, s, e).books.handled == s.books.handled + if e.Receive? then [s.net.results[0].item] else []
  {
  }

  /** The results received are those of the items handled. */
  lemma {:induction false} ReadingsAreHandled(c: Config, s: State, es: seq<Event>, t: State)
    requires Path(c, s, es, t)
    ensures t.books.handled == s.books.handled + ItemsOf(ResultsOf(Readings(c, s, es)))
    decreases |es|
  {
    if es != [] {
      StepHandled(c, s, es[0]);
      ReadingsAreHandled(c, Apply(c, s, es[0]), es[1..], t);
      var rest := Readings(c, Apply(c, s, es[0]), es[1..]);
      if es[0].Receive? {
        ItemRead(Reading(s.process, s.net.results[0], es[0].pick), rest);
      } else {
        assert [] + rest == rest;
      }
    }
  }

  lemma ItemRead(x: Reading, rest: seq<Reading>)
    ensures ItemsOf(ResultsOf([x] + rest)) == [x.result.item] + ItemsOf(ResultsOf(rest))
  {
  }

  /** Each was handled with choices the code can make. */
  lemma {:induction false} ReadingsAreReal(c: Config, s: State, es: seq<Event>, t: State)
    requires Path(c, s, es, t)
    ensures forall x | x in Readings(c, s, es) :: PickAllowed(c, x.graph, x.result, x.pick)
    decreases |es|
  {
    if es != [] {
      ReadingsAreReal(c, Apply(c, s, es[0]), es[1..], t);
    }
  }

  /** In every run, under every schedule: the records of an element are those at the start, plus what the
      results handled since brought and attached. */
  lemma RecordsAccounted(c: Config, start: State, es: seq<Event>, s: State, e: Id)
    requires Starting(c, start) && Path(c, start, es, s) && Undisturbed(s.coordinator)
    ensures var xs := Readings(c, start, es);
            && ArrivalsAt(s.store, e) + HopsTo(Todo(s.coordinator), e)
               == ArrivalsAt(start.store, e) + BringsAll(c, xs, e) + AttachesAll(xs, e)
            && s.books.handled == ItemsOf(ResultsOf(xs))
            && forall x | x in xs :: PickAllowed(c, x.graph, x.result, x.pick)
  {
    TokensLaw(c, start, es, s, e);
    ReadingsAreHandled(c, start, es, s);
    ReadingsAreReal(c, start, es, s);
    assert s.books.handled == ItemsOf(ResultsOf(Readings(c, start, es)));
  }

  lemma FinalizedHandles(c: Config, start: State, es: seq<Event>, s: State, e: Id)
    requires Starting(c, start) && Path(c, start, es, s) && IsFinalized(s.coordinator)
    ensures Passed(s.books.handled, {e}) == Passed(s.books.issued, {e})
  {
    PendingIsExact(c, start, es, s);
    PassedUnordered(s.books.handled, s.books.issued, {e});
  }

  /** In a finalized run every element has been handled as often as it was started at and brought. */
  lemma HandledAccounted(c: Config, start: State, es: seq<Event>, s: State, e: Id)
    requires Starting(c, start) && Path(c, start, es, s) && IsFinalized(s.coordinator)
    ensures Passed(s.books.handled, {e}) == Passed(start.books.issued, {e}) + BringsAll(c, Readings(c, start, es), e)
  {
    FinalizedHandles(c, start, es, s, e);
    TokensLaw(c, start, es, s, e);
    NothingToDo(start, s, e);
  }

  lemma NothingToDo(start: State, s: State, e: Id)
    requires start.coordinator.Feeding? && IsFinalized(s.coordinator)
    ensures Issues(start, e) == Passed(start.books.issued, {e}) && Issues(s, e) == Passed(s.books.issued, {e})
  {
  }

  /** An attached message catch is recorded once by every wait of its host, and nothing else is but
      attached timers. */
  lemma AttachedOnce(c: Config, x: Reading, e: Id)
    requires PickAllowed(c, x.graph, x.result, x.pick) && x.result.action in {Wait, Form}
    ensures var host := x.result.item.element;
            var attached := e in x.graph.elements && x.graph.elements[e].attachedTo == host;
            && (attached && x.graph.elements[e].kind == MessageCatch ==> Attaches(x, e) == 1)
            && (attached && x.graph.elements[e].kind == TimerEvent ==> Attaches(x, e) <= 1)
            && (!attached || x.graph.elements[e].kind !in {MessageCatch, TimerEvent} ==> Attaches(x, e) == 0)
  {
    NoRepeats(x.pick.boundary, e);
    assert e in x.pick.boundary ==> IsBoundary(x.graph, x.result.item.element, e);
  }

  lemma {:induction false} NoRepeats(ids: seq<Id>, e: Id)
    requires forall i, j | 0 <= i < j < |ids| :: ids[i] != ids[j]
    ensures multiset(ids)[e] == if e in ids then 1 else 0
  {
    if ids != [] {
      NoRepeats(ids[..|ids| - 1], e);
      assert ids == ids[..|ids| - 1] + [ids[|ids| - 1]];
    }
  }

  /** A thrown error goes to a right catcher and to nothing else; it goes nowhere only if there is none. */
  lemma CaughtOnce(c: Config, x: Reading, e: Id)
    requires PickAllowed(c, x.graph, x.result, x.pick) && x.result.action == ThrowError
    ensures RightCatcher(x.graph, x.result.item.element, CodeOf(x.graph, x.result.item.element), x.pick.catcher)
    ensures Brings(c, x, e) == if x.pick.catcher == Some(e) then 1 else 0
  {
    CatcherExactly(x.graph, x.result.item.element, CodeOf(x.graph, x.result.item.element), x.pick.catcher);
  }

  /** Receiving a throw that something catches, within the limits, whatever else is pending: the run goes on
      with one hop, to a right catcher, and the state of the instance stays. */
  lemma CaughtErrorGoesOn(c: Config, s: State, pick: Pick)
    requires Enabled(c, s, Receive(false, pick)) && s.net.results[0].action == ThrowError
    requires s.net.results[0].item.element in s.process.elements
    requires Judge(s.tally, s.net.results[0].item.element, false, c.maxLoops) == Fine
    ensures var t, thrower := Received(c, s, false, pick), s.net.results[0].item.element;
            var code := s.process.elements[thrower].errorCode;
            && RightCatcher(s.process, thrower, code, pick.catcher)
            && (pick.catcher.Some? ==>
                  && t.coordinator == Recording(s.net.results[0].item, [Hop(pick.catcher.value, Caught)])
                  && t.instance == s.instance && t.process == s.process && t.store == s.store)
  {
    CatcherExactly(s.process, s.net.results[0].item.element,
                   CodeOf(s.process, s.net.results[0].item.element), pick.catcher);
  }
}

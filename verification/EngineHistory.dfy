/** The flow records of an instance, over all its runs, form a forest of real walks. */
module EngineHistory {
  import opened Bpmn
  import opened Routing
  import opened Records
  import opened Lifecycle
  import opened FailSafe
  import opened ErrorCatching
  import opened Prefixing
  import opened CallActivities
  import opened Engine
  import opened EngineSafety

  /** The step from element `from` is one the process definition `graph` offers. */
  ghost predicate LegalHop(graph: Process, from: Id, hop: Hop) {
    match hop.via
    case Initial => false
    case Routed(f) =>
      && from in graph.elements && f in graph.elements[from].outgoing
      && f in graph.flows && hop.element == StepAlong(graph, f).element
    case Caught => CaughtIn(graph, Scopes(graph, from), CodeOf(graph, from), Some(hop.element))
    case Called => EntryFlow(from) in graph.flows && graph.flows[EntryFlow(from)] == Flow(from, hop.element)
    case Boundary => IsBoundary(graph, from, hop.element)
  }

  ghost predicate LegalRecord(store: seq<FlowRecord>, i: nat)
    requires i < |store|
  {
    match store[i].previous
    case None => store[i].via == Initial
    case Some(j) => j < i && LegalHop(store[i].graph, store[j].element, Hop(store[i].element, store[i].via))
  }

  ghost predicate History(store: seq<FlowRecord>) { forall i | 0 <= i < |store| :: LegalRecord(store, i) }

  /** What is being written follows from a record already there. */
  ghost predicate Continues(s: State, current: Item, todo: seq<Hop>) {
    && current.record < |s.store| && s.store[current.record].element == current.element
    && forall h | h in todo :: LegalHop(s.process, current.element, h)
  }

  ghost predicate Historic(s: State) {
    && History(s.store)
    && match s.coordinator
       case Recording(current, todo) => Continues(s, current, todo)
       case Sending(_, current, todo) => Continues(s, current, todo)
       case _ => true
  }

  lemma HistoryExtends(store: seq<FlowRecord>, longer: seq<FlowRecord>)
    requires History(store) && store <= longer
    requires forall i | |store| <= i < |longer| :: LegalRecord(longer, i)
    ensures History(longer)
  {
    forall i | 0 <= i < |longer| ensures LegalRecord(longer, i) {
      if i < |store| {
        assert LegalRecord(store, i);
      }
    }
  }

  lemma RecordedHistory(s: State)
    requires Historic(s) && s.coordinator.Recording? && s.coordinator.todo != []
    ensures Historic(Recorded(s))
  {
    var current, hop := s.coordinator.current, s.coordinator.todo[0];
    var r := FlowRecord(hop.element, Some(current.record), hop.via, s.process);
    assert LegalRecord(s.store + [r], |s.store|);
    HistoryExtends(s.store, s.store + [r]);
    assert forall h | h in s.coordinator.todo[1..] :: h in s.coordinator.todo;
  }

  lemma {:induction false} AlongHops(p: Process, outgoing: seq<Id>, filters: seq<Id>, n: NextFlow)
    requires n in Along(p, outgoing, filters)
    ensures n.flow in outgoing && n.flow in p.flows && n == StepAlong(p, n.flow)
  {
    var last := outgoing[|outgoing| - 1];
    assert outgoing == outgoing[..|outgoing| - 1] + [last];
    if n in Along(p, outgoing[..|outgoing| - 1], filters) {
      AlongHops(p, outgoing[..|outgoing| - 1], filters, n);
    }
  }

  lemma RoutedLegal(p: Process, action: Action, from: Id, filters: seq<Id>)
    ensures forall h | h in RoutedHops(NextFlows(p, action, from, filters)) :: LegalHop(p, from, h)
  {
    var next := NextFlows(p, action, from, filters);
    forall n | n in next ensures LegalHop(p, from, Hop(n.element, Routed(n.flow))) {
      AlongHops(p, p.elements[from].outgoing, filters, n);
    }
  }

  /** Every reply continues the history from the element it is about. */
  ghost predicate LegalReply(r: Result, reply: Reply, before: Process) {
    && (forall h | h in reply.hops :: LegalHop(reply.process, r.item.element, h))
    && (forall x | x in reply.records ::
          x.previous == Some(r.item.record) && x.graph == before
          && LegalHop(before, r.item.element, Hop(x.element, x.via)))
  }

  lemma RespondLegal(c: Config, p: Process, status: Status, r: Result, pick: Pick)
    requires PickAllowed(c, p, r, pick)
    ensures LegalReply(r, Respond(c, p, status, r, pick), p)
  {
    match r.action {
      case Route => RoutedLegal(p, Route, r.item.element, r.filters);
      case Queue => RoutedLegal(p, Queue, r.item.element, r.filters);
      case CallActivity => CalledLegal(c, p, r, pick);
      case _ =>
    }
  }

  lemma CalledLegal(c: Config, p: Process, r: Result, pick: Pick)
    ensures LegalReply(r, RespondCall(c, p, r, pick), p)
  {
    var id, reply := r.item.element, RespondCall(c, p, r, pick);
    if reply.hops != [] {
      EntryLegal(p, id, c.library[r.called], pick.end);
    }
  }

  lemma EntryLegal(p: Process, id: Id, called: Process, end: Option<Id>)
    ensures LegalHop(Inlined(p, id, called, end), id, Hop(CalledStart(id, called), Called))
  {
  }

  lemma CarriedHistory(s: State, r: Result, reply: Reply)
    requires History(s.store) && LegalReply(r, reply, s.process)
    requires r.item.record < |s.store| && s.store[r.item.record].element == r.item.element
    ensures Historic(Carried(s, r.item, reply))
  {
    var t := Carried(s, r.item, reply);
    forall i | |s.store| <= i < |t.store| ensures LegalRecord(t.store, i) {
      assert t.store[i] in reply.records;
      assert t.store[r.item.record] == s.store[r.item.record];
    }
    HistoryExtends(s.store, t.store);
  }

  lemma ReceivedHistory(c: Config, s: State, late: bool, pick: Pick)
    requires Inv(c, s) && Historic(s) && Enabled(c, s, Receive(late, pick))
    ensures Historic(Received(c, s, late, pick))
  {
    var r := s.net.results[0];
    InFlightGenuine(s);
    RespondLegal(c, s.process, s.instance.life.status, r, pick);
    CarriedHistory(Counting(s, late), r, Respond(c, s.process, s.instance.life.status, r, pick));
  }

  lemma InFlightGenuine(s: State)
    requires Conserved(s) && s.net.results != []
    ensures var item := s.net.results[0].item;
            item.record < |s.store| && s.store[item.record].element == item.element
  {
    var item := s.net.results[0].item;
    assert ItemsOf(s.net.results)[0] == item;
    assert item in multiset(ItemsOf(s.net.results));
    assert item in InFlight(s);
    assert item in multiset(s.books.issued);
  }

  lemma StepHistory(c: Config, s: State, e: Event)
    requires Inv(c, s) && Historic(s) && Enabled(c, s, e)
    ensures Historic(Apply(c, s, e))
  {
    match e {
      case Receive(late, pick) => ReceivedHistory(c, s, late, pick);
      case Record => RecordedHistory(s);
      case _ =>
    }
  }

  lemma {:induction false} PathHistory(c: Config, s: State, es: seq<Event>, t: State)
    requires Inv(c, s) && Historic(s) && Path(c, s, es, t)
    ensures Historic(t)
    decreases |es|
  {
    if es != [] {
      StepInv(c, s, es[0]);
      StepHistory(c, s, es[0]);
      PathHistory(c, Apply(c, s, es[0]), es[1..], t);
    }
  }

  /** Run: the record of the start event. */
  function RunRecords(p: Process): seq<FlowRecord> { [FlowRecord(p.start, None, Initial, p)] }

  /** Continue: the records routed from the completed flow. */
  function ContinueRecords(p: Process, store: seq<FlowRecord>, completed: nat): (records: seq<FlowRecord>)
    requires completed < |store|
  {
    var next := NextFlows(p, Route, store[completed].element, []);
    seq(|next|, i requires 0 <= i < |next| => FlowRecord(next[i].element, Some(completed), Routed(next[i].flow), p))
  }

  function ItemsFrom(base: nat, records: seq<FlowRecord>): seq<Item> {
    seq(|records|, i requires 0 <= i < |records| => Item(base + i, records[i].element))
  }

  /** The records Run or Continue writes before the loop begins. */
  ghost predicate FirstRecords(p: Process, store: seq<FlowRecord>, records: seq<FlowRecord>) {
    || records == RunRecords(p)
    || exists k :: 0 <= k < |store| && records == ContinueRecords(p, store, k)
  }

  /** A run begins on `store` when Run or Continue has just written its first records. */
  ghost predicate Begins(c: Config, store: seq<FlowRecord>, start: State) {
    && Starting(c, start)
    && store <= start.store
    && start.books.issued == ItemsFrom(|store|, start.store[|store|..])
    && FirstRecords(start.process, store, start.store[|store|..])
  }

  lemma ContinuedLegal(p: Process, store: seq<FlowRecord>, longer: seq<FlowRecord>, k: nat)
    requires store <= longer && k < |store| && longer[|store|..] == ContinueRecords(p, store, k)
    ensures forall i | |store| <= i < |longer| :: LegalRecord(longer, i)
  {
    RoutedLegal(p, Route, store[k].element, []);
    var hops := RoutedHops(NextFlows(p, Route, store[k].element, []));
    forall i | |store| <= i < |longer| ensures LegalRecord(longer, i) {
      assert longer[i] == longer[|store|..][i - |store|];
      assert hops[i - |store|] in hops;
    }
  }

  lemma BeginsHistory(c: Config, store: seq<FlowRecord>, start: State)
    requires History(store) && Begins(c, store, start)
    ensures Historic(start)
  {
    var p, records := start.process, start.store[|store|..];
    if records == RunRecords(p) {
      assert start.store[|store|] == records[0];
    } else {
      var k :| 0 <= k < |store| && records == ContinueRecords(p, store, k);
      ContinuedLegal(p, store, start.store, k);
    }
    HistoryExtends(store, start.store);
  }

  /** Runs of one instance, each beginning on the records the one before left. */
  datatype Leg = Leg(start: State, events: seq<Event>, end: State)

  function StoreBefore(legs: seq<Leg>, i: nat): seq<FlowRecord>
    requires i < |legs|
  {
    if i == 0 then [] else legs[i - 1].end.store
  }

  ghost predicate Follows(c: Config, legs: seq<Leg>, i: nat)
    requires i < |legs|
  {
    Begins(c, StoreBefore(legs, i), legs[i].start) && Path(c, legs[i].start, legs[i].events, legs[i].end)
  }

  ghost predicate Session(c: Config, legs: seq<Leg>) { forall i | 0 <= i < |legs| :: Follows(c, legs, i) }

  /** Across any number of runs, and whatever was called, caught or timed out in between, every
      flow record continues an earlier one along an edge that was there, or starts a process. */
  lemma {:induction false} HistoryIsLegal(c: Config, legs: seq<Leg>, i: nat)
    requires Session(c, legs) && i < |legs|
    ensures History(legs[i].end.store)
    decreases i
  {
    if i > 0 {
      HistoryIsLegal(c, legs, i - 1);
    }
    assert Follows(c, legs, i);
    BeginsHistory(c, StoreBefore(legs, i), legs[i].start);
    StartingInv(c, legs[i].start);
    PathHistory(c, legs[i].start, legs[i].events, legs[i].end);
  }

  lemma {:induction false} StoreKept(c: Config, legs: seq<Leg>, i: nat, j: nat)
    requires Session(c, legs) && i < j < |legs|
    ensures |legs[i].end.store| <= |StoreBefore(legs, j)|
    decreases j
  {
    if i < j - 1 {
      StoreKept(c, legs, i, j - 1);
      assert Follows(c, legs, j - 1);
      PathGrows(c, legs[j - 1].start, legs[j - 1].events, legs[j - 1].end);
    }
  }

  lemma IssuedRange(c: Config, legs: seq<Leg>, i: nat, x: Item)
    requires Session(c, legs) && i < |legs| && x in legs[i].end.books.issued
    ensures |StoreBefore(legs, i)| <= x.record < |legs[i].end.store|
  {
    var leg := legs[i];
    assert Follows(c, legs, i);
    PathGrows(c, leg.start, leg.events, leg.end);
    StartingInv(c, leg.start);
    PathInv(c, leg.start, leg.events, leg.end);
  }

  /** No flow record is enqueued twice, neither within a run nor by a later one. */
  lemma EnqueuedAtMostOnce(c: Config, legs: seq<Leg>, i: nat, j: nat, a: nat, b: nat)
    requires Session(c, legs) && i <= j < |legs|
    requires a < |legs[i].end.books.issued| && b < |legs[j].end.books.issued| && (i, a) != (j, b)
    ensures legs[i].end.books.issued[a].record != legs[j].end.books.issued[b].record
  {
    if i < j {
      StoreKept(c, legs, i, j);
      IssuedRange(c, legs, i, legs[i].end.books.issued[a]);
      IssuedRange(c, legs, j, legs[j].end.books.issued[b]);
    } else {
      assert Follows(c, legs, i);
      StartingInv(c, legs[i].start);
      PathInv(c, legs[i].start, legs[i].events, legs[i].end);
    }
  }

  lemma {:induction false} PathGrows(c: Config, s: State, es: seq<Event>, t: State)
    requires Path(c, s, es, t)
    ensures s.store <= t.store
    ensures |s.books.issued| <= |t.books.issued| && t.books.issued[..|s.books.issued|] == s.books.issued
    ensures forall x | x in t.books.issued && x !in s.books.issued :: x.record >= |s.store|
    decreases |es|
  {
    if es != [] {
      StepGrows(c, s, es[0]);
      PathGrows(c, Apply(c, s, es[0]), es[1..], t);
    }
  }

  lemma StepGrows(c: Config, s: State, e: Event)
    requires Ready(s, e)
    ensures var t := Apply(c, s, e);
            && s.store <= t.store
            && (t.books.issued == s.books.issued
                || exists x: Item :: x.record == |s.store| && t.books.issued == s.books.issued + [x])
  {
  }

  /** The ids from the root of record `i` down to `i`. */
  ghost function Walk(store: seq<FlowRecord>, i: nat): (w: seq<nat>)
    requires History(store) && i < |store|
    ensures w != [] && w[|w| - 1] == i && forall k | 0 <= k < |w| :: w[k] <= i
  {
    assert LegalRecord(store, i);
    match store[i].previous
    case None => [i]
    case Some(j) => Walk(store, j) + [i]
  }

  /** Following PreviousID always leads to a record that starts a process, and read from there every
      hop is a routed edge, an error catch, a call or a boundary attachment. */
  lemma {:induction false} WalksAreReal(store: seq<FlowRecord>, i: nat)
    requires History(store) && i < |store|
    ensures var w := Walk(store, i);
            && store[w[0]].via == Initial && store[w[0]].previous == None
            && forall k | 0 < k < |w| ::
                 && w[k - 1] < w[k]
                 && LegalHop(store[w[k]].graph, store[w[k - 1]].element, Hop(store[w[k]].element, store[w[k]].via))
  {
    assert LegalRecord(store, i);
    if store[i].previous.Some? {
      WalksAreReal(store, store[i].previous.value);
    }
  }
}

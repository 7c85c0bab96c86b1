/** When every element's result depends on the element alone, the schedule does not matter. */
module EngineConfluence {
  import opened Bpmn
  import opened Routing
  import opened Records
  import opened Lifecycle
  import opened FailSafe
  import opened Engine
  import opened EngineSafety
  import opened EngineTermination

  datatype Behaviour = Behaviour(action: Action, filters: seq<Id>)

  /** What each element does, whenever and wherever it is executed. */
  type Script = m: map<Id, Behaviour> | forall e | e in m :: m[e].action in {Route, Queue, Complete, Skip} witness map[]

  predicate Follows(b: Script, r: Result) {
    r.item.element in b && r.action == b[r.item.element].action && r.filters == b[r.item.element].filters
  }

  /** A step before the deadline in which elements behave as scripted. */
  predicate Steady(b: Script, e: Event) {
    match e
    case Expire => false
    case Receive(late, _) => !late
    case Execute(_, r) => Follows(b, r)
    case _ => true
  }

  ghost predicate SteadyPath(c: Config, b: Script, s: State, es: seq<Event>, t: State) {
    Path(c, s, es, t) && forall e | e in es :: Steady(b, e)
  }

  ghost function Sum<T>(f: T -> multiset<Id>, s: seq<T>): multiset<Id> {
    if s == [] then multiset{} else Sum(f, s[..|s| - 1]) + f(s[|s| - 1])
  }

  lemma {:induction false} SumRemove<T>(f: T -> multiset<Id>, s: seq<T>, k: nat)
    requires k < |s|
    ensures Sum(f, s) == Sum(f, s[..k] + s[k + 1..]) + f(s[k])
  {
    var n, less := |s| - 1, s[..k] + s[k + 1..];
    if k == n {
      assert less == s[..n];
    } else {
      SumRemove(f, s[..n], k);
      assert less[..|less| - 1] == s[..n][..k] + s[..n][k + 1..] && less[|less| - 1] == s[n];
      var a := Sum(f, s[..n][..k] + s[..n][k + 1..]);
      assert Sum(f, s) == (a + f(s[k])) + f(s[n]);
      assert Sum(f, less) == a + f(s[n]);
    }
  }

  /** Handling more, in any order, produces more. */
  lemma {:induction false} SumMonotone<T>(f: T -> multiset<Id>, a: seq<T>, b: seq<T>)
    requires multiset(a) <= multiset(b)
    ensures Sum(f, a) <= Sum(f, b)
    decreases |a|
  {
    if a != [] {
      var n, x := |a| - 1, a[|a| - 1];
      assert a == a[..n] + [x];
      assert x in multiset(a) && x in multiset(b);
      var k :| 0 <= k < |b| && b[k] == x;
      assert b == b[..k] + [x] + b[k + 1..];
      assert multiset(b) == multiset(b[..k] + b[k + 1..]) + multiset{x};
      assert multiset(a) == multiset(a[..n]) + multiset{x};
      Less(multiset(a[..n]), multiset(b[..k] + b[k + 1..]), multiset{x});
      SumMonotone(f, a[..n], b[..k] + b[k + 1..]);
      SumRemove(f, b, k);
    }
  }

  lemma Less<T>(a: multiset<T>, b: multiset<T>, x: multiset<T>)
    requires a + x <= b + x
    ensures a <= b
  {
    forall e ensures a[e] <= b[e] {
      assert (a + x)[e] <= (b + x)[e];
    }
  }

  function Bag(item: Item): multiset<Id> { multiset{item.element} }

  lemma {:induction false} ElementsAsSum(items: seq<Item>)
    ensures multiset(ElementsOf(items)) == Sum(Bag, items)
  {
    if items != [] {
      var n := |items| - 1;
      ElementsAsSum(items[..n]);
      assert ElementsOf(items) == ElementsOf(items[..n]) + [items[n].element];
    }
  }

  lemma ElementsMonotone(a: seq<Item>, b: seq<Item>)
    requires multiset(a) <= multiset(b)
    ensures multiset(ElementsOf(a)) <= multiset(ElementsOf(b))
  {
    SumMonotone(Bag, a, b);
    ElementsAsSum(a);
    ElementsAsSum(b);
  }

  lemma SameElements(a: seq<Item>, b: seq<Item>)
    requires multiset(a) == multiset(b)
    ensures multiset(ElementsOf(a)) == multiset(ElementsOf(b))
  {
    ElementsMonotone(a, b);
    ElementsMonotone(b, a);
  }

  function NextOf(p: Process, b: Script, e: Id): seq<NextFlow> {
    if e in b then NextFlows(p, b[e].action, e, b[e].filters) else []
  }

  function TargetsOf(hops: seq<Hop>): (es: seq<Id>)
    ensures |es| == |hops| && forall i | 0 <= i < |hops| :: es[i] == hops[i].element
  {
    seq(|hops|, i requires 0 <= i < |hops| => hops[i].element)
  }

  /** The elements handling `e` enqueues. */
  function Spawned(p: Process, b: Script): Id -> multiset<Id> {
    e => multiset(TargetsOf(RoutedHops(NextOf(p, b, e))))
  }

  /** All elements issued or about to be, against what the start and the handled ones account for. */
  ghost predicate Accounted(p: Process, b: Script, start: State, s: State) {
    multiset(ElementsOf(s.books.issued)) + multiset(TargetsOf(Todo(s.coordinator)))
    == multiset(ElementsOf(start.books.issued)) + Sum(Spawned(p, b), ElementsOf(s.books.handled))
  }

  predicate Completes(p: Process, b: Script, e: Id) {
    && IsEndEvent(p, e) && e in b
    && (b[e].action == Complete || (b[e].action == Route && NextOf(p, b, e) == []))
  }

  ghost predicate ScriptedNet(b: Script, n: Net) {
    && (forall r | r in n.results :: Follows(b, r))
    && (forall w | w in n.workers && w.Delivering? :: Follows(b, w.result))
  }

  /** The state of the instance is settled by which elements have been handled. */
  ghost predicate StatusBySeen(p: Process, b: Script, s: State) {
    s.instance.errors == 0
    && if exists e :: e in Seen(s) && Completes(p, b, e) then s.instance.life.status == Completed
       else s.instance.life.status == InProgress
  }

  /** The run so far follows the script. */
  ghost predicate Scripted(c: Config, b: Script, start: State, s: State) {
    && s.process == start.process && !s.expired
    && Undisturbed(s.coordinator)
    && ScriptedNet(b, s.net)
    && Accounted(s.process, b, start, s)
    && StatusBySeen(s.process, b, s)
    && (forall e :: CountOf(s.tally, e) == if e == "" then 0 else Seen(s)[e])
    && (forall e | e in Seen(s) && e != "" :: Seen(s)[e] <= c.maxLoops)
  }

  ghost predicate OnScript(c: Config, b: Script, start: State, s: State) { Inv(c, s) && Scripted(c, b, start, s) }

  lemma StartingOnScript(c: Config, b: Script, start: State)
    requires Starting(c, start)
    ensures OnScript(c, b, start, start) && Seen(start) == multiset{}
  {
    StartingInv(c, start);
    assert ElementsOf(start.books.handled) == [];
    assert TargetsOf(Todo(start.coordinator)) == [];
  }

  /** An item still waiting to be handled was issued and is not among the handled ones. */
  lemma OneMoreIssued(s: State, item: Item)
    requires Conserved(s) && item in InFlight(s)
    ensures multiset(s.books.handled + [item]) <= multiset(s.books.issued)
  {
    var handled, flying := multiset(s.books.handled), InFlight(s);
    assert multiset(s.books.handled + [item]) == handled + multiset{item};
    assert handled + multiset{item} <= handled + flying;
  }

  lemma WaitingIssued(s: State)
    requires Conserved(s) && s.net.results != []
    ensures Seen(s) + multiset{s.net.results[0].item.element} <= multiset(ElementsOf(s.books.issued))
  {
    var item := s.net.results[0].item;
    assert ItemsOf(s.net.results)[0] == item;
    assert item in multiset(ItemsOf(s.net.results));
    OneMoreIssued(s, item);
    ElementsMonotone(s.books.handled + [item], s.books.issued);
    assert ElementsOf(s.books.handled + [item]) == ElementsOf(s.books.handled) + [item.element];
  }

  /** `all` accounts for itself and stays within the loop limit: the record of a complete run. */
  ghost predicate Certificate(c: Config, p: Process, b: Script, start: State, all: seq<Id>) {
    && multiset(all) == multiset(ElementsOf(start.books.issued)) + Sum(Spawned(p, b), all)
    && forall e | e in multiset(all) && e != "" :: multiset(all)[e] <= c.maxLoops
  }

  /** Nothing has been issued beyond what the handled elements account for; so an item that is
      still waiting to be handled is covered as well. */
  lemma Covered(c: Config, b: Script, start: State, s: State, all: seq<Id>)
    requires Conserved(s) && Accounted(s.process, b, start, s) && s.net.results != []
    requires Seen(s) <= multiset(all) && Certificate(c, s.process, b, start, all)
    ensures Seen(s) + multiset{s.net.results[0].item.element} <= multiset(all)
  {
    WaitingIssued(s);
    IssuedCovered(c, s.process, b, start, s, all);
  }

  lemma IssuedCovered(c: Config, p: Process, b: Script, start: State, s: State, all: seq<Id>)
    requires Accounted(p, b, start, s) && Seen(s) <= multiset(all) && Certificate(c, p, b, start, all)
    ensures multiset(ElementsOf(s.books.issued)) <= multiset(all)
  {
    SumMonotone(Spawned(p, b), ElementsOf(s.books.handled), all);
    Within(multiset(ElementsOf(s.books.issued)), multiset(TargetsOf(Todo(s.coordinator))),
           multiset(ElementsOf(start.books.issued)),
           Sum(Spawned(p, b), ElementsOf(s.books.handled)), Sum(Spawned(p, b), all));
  }

  lemma Within<T>(x: multiset<T>, y: multiset<T>, i: multiset<T>, a: multiset<T>, b: multiset<T>)
    requires x + y == i + a && a <= b
    ensures x <= i + b
  {
    assert x <= x + y;
  }

  lemma ScriptedReply(c: Config, p: Process, b: Script, status: Status, r: Result, pick: Pick)
    requires Follows(b, r)
    ensures var e, reply := r.item.element, Respond(c, p, status, r, pick);
            && reply.process == p && reply.exit == Continue && !reply.uncaught && reply.records == []
            && reply.hops == RoutedHops(NextOf(p, b, e))
            && reply.change == if Completes(p, b, e) then Finishing else Stay
  {
  }

  /** What receiving a scripted result does once the guard has passed. */
  lemma ReceivedScripted(c: Config, b: Script, s: State, pick: Pick)
    requires s.net.results != [] && Follows(b, s.net.results[0])
    requires Judge(s.tally, s.net.results[0].item.element, false, c.maxLoops) == Fine
    ensures var r, u, t := s.net.results[0], Counting(s, false), Received(c, s, false, pick);
            && t.process == s.process && t.net == u.net && t.books == u.books && t.tally == u.tally
            && t.expired == s.expired
            && t.instance == Changed(s.instance, if Completes(s.process, b, r.item.element) then Finishing else Stay)
            && t.coordinator == Onward(u.books.pending, r.item, RoutedHops(NextOf(s.process, b, r.item.element)))
  {
    ScriptedReply(c, s.process, b, s.instance.life.status, s.net.results[0], pick);
  }

  /** The guard passes when the element just received is still covered. */
  lemma GuardPasses(c: Config, b: Script, start: State, s: State, all: multiset<Id>)
    requires OnScript(c, b, start, s) && s.net.results != []
    requires Seen(s) + multiset{s.net.results[0].item.element} <= all
    requires forall e | e in all && e != "" :: all[e] <= c.maxLoops
    ensures Judge(s.tally, s.net.results[0].item.element, false, c.maxLoops) == Fine
  {
    var e := s.net.results[0].item.element;
    assert (Seen(s) + multiset{e})[e] == Seen(s)[e] + 1;
    assert all[e] >= Seen(s)[e] + 1;
  }

  lemma ReceiveOnScript(c: Config, b: Script, start: State, s: State, pick: Pick)
    requires OnScript(c, b, start, s) && s.coordinator.Selecting? && s.net.results != []
    requires Judge(s.tally, s.net.results[0].item.element, false, c.maxLoops) == Fine
    ensures var t := Received(c, s, false, pick);
            OnScript(c, b, start, t) && Seen(t) == Seen(s) + multiset{s.net.results[0].item.element}
  {
    assert s.net.results[0] in s.net.results;
    ReceivedScripted(c, b, s, pick);
    ReceivedInv(c, s, false, pick);
    SeenGrows(s, false);
    ReceiveKeepsScript(c, b, start, s, Received(c, s, false, pick));
  }

  lemma ReceiveKeepsScript(c: Config, b: Script, start: State, s: State, t: State)
    requires Scripted(c, b, start, s) && Disciplined(s.instance) && s.coordinator.Selecting? && s.net.results != []
    requires Judge(s.tally, s.net.results[0].item.element, false, c.maxLoops) == Fine
    requires Seen(t) == Seen(s) + multiset{s.net.results[0].item.element}
    requires var r, u := s.net.results[0], Counting(s, false);
             && t.process == s.process && t.net == u.net && t.books == u.books && t.tally == u.tally
             && t.expired == s.expired
             && t.instance == Changed(s.instance, if Completes(s.process, b, r.item.element) then Finishing else Stay)
             && t.coordinator == Onward(u.books.pending, r.item, RoutedHops(NextOf(s.process, b, r.item.element)))
    ensures Scripted(c, b, start, t)
  {
    Proceeds(t.coordinator, t.books.pending, s.net.results[0].item,
             RoutedHops(NextOf(s.process, b, s.net.results[0].item.element)));
    ReceiveNet(b, s);
    ReceiveAccounts(b, start, s, t);
    ReceiveStatus(b, s, t, s.net.results[0].item.element);
    ReceiveCounts(c, s, t, s.net.results[0].item.element);
  }

  lemma ReceiveNet(b: Script, s: State)
    requires ScriptedNet(b, s.net) && s.net.results != []
    ensures ScriptedNet(b, Counting(s, false).net)
  {
    assert forall q | q in s.net.results[1..] :: q in s.net.results;
  }

  lemma Proceeds(k: Coordinator, pending: int, item: Item, hops: seq<Hop>)
    requires k == Onward(pending, item, hops)
    ensures Undisturbed(k) && Todo(k) == hops
  {
  }

  lemma ReceiveCounts(c: Config, s: State, t: State, e: Id)
    requires Seen(t) == Seen(s) + multiset{e} && t.tally == Counted(s.tally, e)
    requires Judge(s.tally, e, false, c.maxLoops) == Fine
    requires forall x :: CountOf(s.tally, x) == if x == "" then 0 else Seen(s)[x]
    requires forall x | x in Seen(s) && x != "" :: Seen(s)[x] <= c.maxLoops
    ensures forall x :: CountOf(t.tally, x) == if x == "" then 0 else Seen(t)[x]
    ensures forall x | x in Seen(t) && x != "" :: Seen(t)[x] <= c.maxLoops
  {
  }

  lemma ReceiveAccounts(b: Script, start: State, s: State, t: State)
    requires Accounted(s.process, b, start, s) && s.coordinator.Selecting? && s.net.results != []
    requires t.books == Counting(s, false).books
    requires Todo(t.coordinator) == RoutedHops(NextOf(s.process, b, s.net.results[0].item.element))
    ensures Accounted(s.process, b, start, t)
  {
    var e, f := s.net.results[0].item.element, Spawned(s.process, b);
    var before, after := ElementsOf(s.books.handled), ElementsOf(t.books.handled);
    assert after == before + [e] && after[..|after| - 1] == before;
    assert TargetsOf(Todo(s.coordinator)) == [];
    Shift(multiset(ElementsOf(s.books.issued)), multiset(ElementsOf(start.books.issued)), Sum(f, before), f(e));
  }

  lemma Shift<T>(issued: multiset<T>, i: multiset<T>, sum: multiset<T>, more: multiset<T>)
    requires issued == i + sum
    ensures issued + more == i + (sum + more)
  {
  }

  lemma ReceiveStatus(b: Script, s: State, t: State, e: Id)
    requires StatusBySeen(s.process, b, s) && Disciplined(s.instance)
    requires t.process == s.process && Seen(t) == Seen(s) + multiset{e}
    requires t.instance == Changed(s.instance, if Completes(s.process, b, e) then Finishing else Stay)
    ensures StatusBySeen(t.process, b, t)
  {
    assert e in Seen(t);
    if x :| x in Seen(s) && Completes(s.process, b, x) {
      assert x in Seen(t);
    }
  }

  /** Before the deadline and without errors, the other steps leave the instance alone. */
  lemma OtherQuiet(c: Config, s: State, e: Event)
    requires Ready(s, e) && !e.Receive? && e != Expire
    requires Undisturbed(s.coordinator) && !s.expired && s.instance.errors == 0
    ensures var t := Apply(c, s, e);
            t.instance == s.instance && !t.expired && Undisturbed(t.coordinator)
  {
  }

  lemma OtherOnScript(c: Config, b: Script, start: State, s: State, e: Event)
    requires OnScript(c, b, start, s) && Enabled(c, s, e) && Steady(b, e) && !e.Receive?
    ensures OnScript(c, b, start, Apply(c, s, e)) && Seen(Apply(c, s, e)) == Seen(s)
  {
    var t := Apply(c, s, e);
    StepInv(c, s, e);
    OtherFrame(c, s, e);
    OtherQuiet(c, s, e);
    OtherNet(c, b, s, e);
    OtherBooks(c, s, e);
    SameScript(c, b, start, s, t);
  }

  lemma SameScript(c: Config, b: Script, start: State, s: State, t: State)
    requires Scripted(c, b, start, s)
    requires ScriptedNet(b, t.net) && Undisturbed(t.coordinator) && !t.expired
    requires t.process == s.process && t.instance == s.instance && t.tally == s.tally
    requires t.books.handled == s.books.handled && Planned(t) == Planned(s)
    ensures Scripted(c, b, start, t) && Seen(t) == Seen(s)
  {
    assert Accounted(s.process, b, start, t);
    assert StatusBySeen(s.process, b, t);
  }

  lemma OtherNet(c: Config, b: Script, s: State, e: Event)
    requires ScriptedNet(b, s.net) && Ready(s, e) && Steady(b, e) && !e.Receive?
    ensures ScriptedNet(b, Apply(c, s, e).net)
  {
    match e {
      case Take(w) =>
        BusyScripted(b, s.net, w, Exited);
        BusyScripted(b, s.net, w, Executing(s.net.work[0]));
      case Execute(w, r) => BusyScripted(b, s.net, w, Delivering(r));
      case Put(w) =>
        BusyScripted(b, s.net, w, Idle);
        assert s.net.workers[w] in s.net.workers;
      case Leave(w) => BusyScripted(b, s.net, w, Exited);
      case _ =>
    }
  }

  lemma BusyScripted(b: Script, n: Net, i: nat, w: Worker)
    requires ScriptedNet(b, n) && i < |n.workers| && (w.Delivering? ==> Follows(b, w.result))
    ensures ScriptedNet(b, n.(workers := n.workers[i := w]))
  {
    assert forall x | x in n.workers[i := w] :: x == w || x in n.workers;
  }

  function Planned(s: State): multiset<Id> {
    multiset(ElementsOf(s.books.issued)) + multiset(TargetsOf(Todo(s.coordinator)))
  }

  lemma OtherBooks(c: Config, s: State, e: Event)
    requires Ready(s, e) && !e.Receive? && e != Abandon
    ensures Planned(Apply(c, s, e)) == Planned(s)
  {
    var t := Apply(c, s, e);
    if e.Record? {
      RecordPlanned(s);
    } else {
      assert t.books.issued == s.books.issued;
      assert Todo(t.coordinator) == Todo(s.coordinator);
    }
  }

  lemma RecordPlanned(s: State)
    requires s.coordinator.Recording? && s.coordinator.todo != []
    ensures Planned(Recorded(s)) == Planned(s)
  {
    var todo, hop := s.coordinator.todo, s.coordinator.todo[0];
    assert ElementsOf(Recorded(s).books.issued) == ElementsOf(s.books.issued) + [hop.element];
    assert TargetsOf(todo) == [hop.element] + TargetsOf(todo[1..]);
  }

  /** A trip is final. */
  lemma {:induction false} TripSticks(c: Config, s: State, es: seq<Event>, t: State)
    requires Path(c, s, es, t) && (s.coordinator.Closing? || s.coordinator.Returned?)
    ensures (t.coordinator.Closing? || t.coordinator.Returned?) && t.coordinator.outcome == s.coordinator.outcome
    decreases |es|
  {
    if es != [] {
      TripSticks(c, Apply(c, s, es[0]), es[1..], t);
    }
  }

  /** A run that finalizes has been on script all the way. */
  lemma {:induction false} FinalizedOnScript(c: Config, b: Script, start: State, s: State, es: seq<Event>, t: State)
    requires OnScript(c, b, start, s) && SteadyPath(c, b, s, es, t)
    requires IsFinalized(t.coordinator)
    ensures OnScript(c, b, start, t)
    decreases |es|
  {
    if es != [] {
      var next := Apply(c, s, es[0]);
      assert Steady(b, es[0]);
      if es[0].Receive? {
        if Judge(s.tally, s.net.results[0].item.element, false, c.maxLoops) != Fine {
          TripSticks(c, next, es[1..], t);
        }
        ReceiveOnScript(c, b, start, s, es[0].pick);
      } else {
        OtherOnScript(c, b, start, s, es[0]);
      }
      FinalizedOnScript(c, b, start, next, es[1..], t);
    }
  }

  /** The handled elements of a finalized run account for themselves. */
  lemma FinalizedCertifies(c: Config, b: Script, start: State, t: State)
    requires OnScript(c, b, start, t) && IsFinalized(t.coordinator)
    ensures Certificate(c, start.process, b, start, ElementsOf(t.books.handled))
  {
    FinalizedHandled(c, t);
    AccountClosed(c, start.process, b, start, t);
  }

  lemma FinalizedHandled(c: Config, t: State)
    requires Inv(c, t) && IsFinalized(t.coordinator)
    ensures multiset(t.books.handled) == multiset(t.books.issued)
  {
    NothingPending(t);
  }

  lemma AccountClosed(c: Config, p: Process, b: Script, start: State, t: State)
    requires Accounted(p, b, start, t) && Todo(t.coordinator) == []
    requires multiset(t.books.handled) == multiset(t.books.issued)
    requires forall e | e in Seen(t) && e != "" :: Seen(t)[e] <= c.maxLoops
    ensures Certificate(c, p, b, start, ElementsOf(t.books.handled))
  {
    SameElements(t.books.handled, t.books.issued);
    assert TargetsOf(Todo(t.coordinator)) == [];
    var all := ElementsOf(t.books.handled);
    forall e | e in multiset(all) && e != "" ensures multiset(all)[e] <= c.maxLoops {
      assert e in Seen(t) && Seen(t)[e] <= c.maxLoops;
    }
  }

  lemma {:induction false} StaysCovered(c: Config, b: Script, start: State, s: State, es: seq<Event>, t: State,
                                        all: seq<Id>)
    requires OnScript(c, b, start, s) && SteadyPath(c, b, s, es, t)
    requires Seen(s) <= multiset(all) && Certificate(c, start.process, b, start, all)
    ensures OnScript(c, b, start, t) && Seen(t) <= multiset(all)
    decreases |es|
  {
    if es != [] {
      assert Steady(b, es[0]);
      if es[0].Receive? {
        Covered(c, b, start, s, all);
        GuardPasses(c, b, start, s, multiset(all));
        ReceiveOnScript(c, b, start, s, es[0].pick);
      } else {
        OtherOnScript(c, b, start, s, es[0]);
      }
      StaysCovered(c, b, start, Apply(c, s, es[0]), es[1..], t, all);
    }
  }

  lemma CoveredBy(c: Config, b: Script, start: State, es: seq<Event>, s: State, es': seq<Event>, s': State)
    requires Starting(c, start) && SteadyPath(c, b, start, es, s) && IsFinalized(s.coordinator)
    requires SteadyPath(c, b, start, es', s')
    ensures OnScript(c, b, start, s') && Seen(s') <= Seen(s)
  {
    StartingOnScript(c, b, start);
    FinalizedOnScript(c, b, start, start, es, s);
    FinalizedCertifies(c, b, start, s);
    StaysCovered(c, b, start, start, es', s', ElementsOf(s.books.handled));
  }

  /** Confluence. If one schedule finalizes, then no schedule trips the loop guard or fails, none
      handles an element more often, and every schedule that finalizes has handled exactly the same
      elements equally often and leaves the instance in the same state. */
  lemma Confluence(c: Config, b: Script, start: State, es: seq<Event>, s: State, es': seq<Event>, s': State)
    requires Starting(c, start)
    requires SteadyPath(c, b, start, es, s) && IsFinalized(s.coordinator)
    requires SteadyPath(c, b, start, es', s')
    ensures Undisturbed(s'.coordinator)
    ensures Seen(s') <= Seen(s)
    ensures IsFinalized(s'.coordinator) ==>
              Seen(s') == Seen(s) && s'.instance.life.status == s.instance.life.status
  {
    CoveredBy(c, b, start, es, s, es', s');
    if IsFinalized(s'.coordinator) {
      CoveredBy(c, b, start, es', s', es, s);
      SameStatus(b, s, s');
    }
  }

  lemma SameStatus(b: Script, s: State, s': State)
    requires s.process == s'.process && Seen(s) == Seen(s')
    requires StatusBySeen(s.process, b, s) && StatusBySeen(s'.process, b, s')
    ensures s.instance.life.status == s'.instance.life.status
  {
  }
}

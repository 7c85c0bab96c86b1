/** Every run ends: a bound on the results handled and on the steps taken, for every schedule. */
module EngineTermination {
  import opened Bpmn
  import opened Totals
  import opened Routing
  import opened Records
  import opened Lifecycle
  import opened FailSafe
  import opened Engine
  import opened EngineSafety

  function ElementsOf(items: seq<Item>): (es: seq<Id>)
    ensures |es| == |items| && forall i | 0 <= i < |items| :: es[i] == items[i].element
  {
    seq(|items|, i requires 0 <= i < |items| => items[i].element)
  }

  /** The process stays as it is: nothing is called, no element has the empty id the guard skips,
      and `width` bounds the outgoing flows of every element. */
  ghost predicate Fixed(c: Config, p: Process, width: nat) {
    && c.library == map[] && "" !in p.elements && width >= 1
    && forall id | id in p.elements :: |p.elements[id].outgoing| <= width
  }

  /** How often each element has been handled. */
  function Seen(s: State): multiset<Id> { multiset(ElementsOf(s.books.handled)) }

  function Budget(c: Config, p: Process): nat { |p.elements.Keys| * c.maxLoops + 1 }

  /** An element the process lacks can only have produced an error. */
  predicate Honest(p: Process, r: Result) { r.item.element in p.elements || r.action == Error }

  ghost predicate HonestNet(p: Process, n: Net) {
    && (forall r | r in n.results :: Honest(p, r))
    && (forall w | w in n.workers && w.Delivering? :: Honest(p, w.result))
  }

  ghost predicate WithinLimits(c: Config, s: State) {
    forall e | e in Seen(s) ::
      e in s.process.elements && Seen(s)[e] <= c.maxLoops && CountOf(s.tally, e) == Seen(s)[e]
  }

  ghost predicate Bounded(c: Config, s: State) {
    && HonestNet(s.process, s.net)
    && |s.books.handled| <= Budget(c, s.process)
    && (Running(s.coordinator) ==> WithinLimits(c, s) && forall e :: e !in Seen(s) ==> CountOf(s.tally, e) == 0)
  }

  lemma WithinBudget(c: Config, s: State)
    requires WithinLimits(c, s)
    ensures |s.books.handled| < Budget(c, s.process)
  {
    BoundedSize(Seen(s), s.process.elements.Keys, c.maxLoops);
  }

  lemma SeenGrows(s: State, late: bool)
    requires s.net.results != []
    ensures Seen(Counting(s, late)) == Seen(s) + multiset{s.net.results[0].item.element}
  {
    var e := s.net.results[0].item.element;
    assert ElementsOf(Counting(s, late).books.handled) == ElementsOf(s.books.handled) + [e];
  }

  /** The handler leaves the process alone, and goes on only for an element the process has. */
  lemma RespondFixed(c: Config, p: Process, width: nat, status: Status, r: Result, pick: Pick)
    requires Fixed(c, p, width) && Honest(p, r)
    ensures var reply := Respond(c, p, status, r, pick);
            reply.process == p && |reply.hops| <= width && (reply.exit == Continue ==> r.item.element in p.elements)
  {
    if r.item.element in p.elements {
      AlongLength(p, p.elements[r.item.element].outgoing, r.filters);
    }
  }

  /** What receiving leaves behind, whichever way the handler goes. */
  lemma ReceivedFrame(c: Config, s: State, width: nat, late: bool, pick: Pick)
    requires Fixed(c, s.process, width) && HonestNet(s.process, s.net) && s.net.results != []
    ensures var t, u := Received(c, s, late, pick), Counting(s, late);
            && t.process == s.process && t.net == u.net && t.books == u.books && t.tally == u.tally
            && (Running(t.coordinator) ==>
                  Judge(s.tally, s.net.results[0].item.element, late, c.maxLoops) == Fine
                  && s.net.results[0].item.element in s.process.elements)
  {
    var r := s.net.results[0];
    assert r in s.net.results;
    RespondFixed(c, s.process, width, s.instance.life.status, r, pick);
  }

  lemma ReceivedBounded(c: Config, s: State, width: nat, late: bool, pick: Pick)
    requires Fixed(c, s.process, width) && Bounded(c, s) && s.coordinator.Selecting? && s.net.results != []
    ensures Bounded(c, Received(c, s, late, pick)) && Received(c, s, late, pick).process == s.process
  {
    var t := Received(c, s, late, pick);
    WithinBudget(c, s);
    ReceivedFrame(c, s, width, late, pick);
    assert forall q | q in s.net.results[1..] :: q in s.net.results;
    if Running(t.coordinator) {
      CountedLimits(c, s, t, late);
    }
  }

  lemma CountedLimits(c: Config, s: State, t: State, late: bool)
    requires s.net.results != [] && WithinLimits(c, s) && forall e :: e !in Seen(s) ==> CountOf(s.tally, e) == 0
    requires t.process == s.process && t.books == Counting(s, late).books && t.tally == Counting(s, late).tally
    requires Judge(s.tally, s.net.results[0].item.element, late, c.maxLoops) == Fine
    requires s.net.results[0].item.element in s.process.elements && "" !in s.process.elements
    ensures WithinLimits(c, t) && forall e :: e !in Seen(t) ==> CountOf(t.tally, e) == 0
  {
    SeenGrows(s, late);
    GuardPassed(c, s, s.net.results[0], late);
    assert Seen(t) == Seen(Counting(s, late));
  }

  lemma GuardPassed(c: Config, s: State, r: Result, late: bool)
    requires WithinLimits(c, s) && forall e :: e !in Seen(s) ==> CountOf(s.tally, e) == 0
    requires Judge(s.tally, r.item.element, late, c.maxLoops) == Fine && r.item.element != ""
    ensures var e, tally := r.item.element, Counted(s.tally, r.item.element);
            && CountOf(tally, e) == Seen(s)[e] + 1 <= c.maxLoops
            && forall x | x != e :: CountOf(tally, x) == CountOf(s.tally, x)
  {
  }

  lemma BusyHonest(p: Process, n: Net, i: nat, w: Worker)
    requires HonestNet(p, n) && i < |n.workers| && (w.Delivering? ==> Honest(p, w.result))
    ensures HonestNet(p, n.(workers := n.workers[i := w]))
  {
    assert forall x | x in n.workers[i := w] :: x == w || x in n.workers;
  }

  lemma WorkerBounded(c: Config, s: State, e: Event)
    requires Bounded(c, s) && Enabled(c, s, e) && (e.Take? || e.Execute? || e.Put? || e.Leave?)
    ensures HonestNet(s.process, Apply(c, s, e).net)
  {
    match e {
      case Take(w) =>
        BusyHonest(s.process, s.net, w, Exited);
        BusyHonest(s.process, s.net, w, Executing(s.net.work[0]));
      case Execute(w, r) => BusyHonest(s.process, s.net, w, Delivering(r));
      case Put(w) =>
        BusyHonest(s.process, s.net, w, Idle);
        assert s.net.workers[w] in s.net.workers;
      case Leave(w) => BusyHonest(s.process, s.net, w, Exited);
    }
  }

  /** Every step but receiving leaves the handled items, the tally and the process alone. */
  lemma OtherFrame(c: Config, s: State, e: Event)
    requires Ready(s, e) && !e.Receive?
    ensures var t := Apply(c, s, e);
            && t.process == s.process && t.tally == s.tally && t.books.handled == s.books.handled
            && (Running(t.coordinator) ==> Running(s.coordinator))
            && (!(e.Take? || e.Execute? || e.Put? || e.Leave?) ==>
                  t.net.results == s.net.results && t.net.workers == s.net.workers)
  {
  }

  lemma StepBounded(c: Config, s: State, width: nat, e: Event)
    requires Fixed(c, s.process, width) && Bounded(c, s) && Enabled(c, s, e)
    ensures Bounded(c, Apply(c, s, e)) && Apply(c, s, e).process == s.process
  {
    if e.Receive? {
      ReceivedBounded(c, s, width, e.late, e.pick);
    } else {
      OtherFrame(c, s, e);
      if e.Take? || e.Execute? || e.Put? || e.Leave? {
        WorkerBounded(c, s, e);
      }
      assert Seen(Apply(c, s, e)) == Seen(s);
    }
  }

  function CoordinatorWork(k: Coordinator): nat {
    match k
    case Feeding(rest) => 5 * |rest| + 2
    case Selecting => 2
    case Recording(_, todo) => 6 * |todo| + 2
    case Sending(_, _, todo) => 5 + 6 * |todo| + 2
    case Closing(_) => 1
    case Returned(_) => 0
  }

  function WorkerWork(w: Worker): nat {
    match w case Exited => 0 case Idle => 1 case Delivering(_) => 3 case Executing(_) => 4
  }

  function WorkersWork(ws: seq<Worker>): nat {
    if ws == [] then 0 else WorkersWork(ws[..|ws| - 1]) + WorkerWork(ws[|ws| - 1])
  }

  lemma {:induction false} WorkersWorkUpdate(ws: seq<Worker>, i: nat, w: Worker)
    requires i < |ws|
    ensures WorkersWork(ws[i := w]) + WorkerWork(ws[i]) == WorkersWork(ws) + WorkerWork(w)
  {
    var n, next := |ws| - 1, ws[i := w];
    if i == n {
      assert next[..n] == ws[..n];
    } else {
      WorkersWorkUpdate(ws[..n], i, w);
      assert next[..n] == ws[..n][i := w];
    }
  }

  lemma {:induction false} IdleWork(ws: seq<Worker>)
    requires forall w | w in ws :: w.Idle?
    ensures WorkersWork(ws) == |ws|
  {
    if ws != [] {
      IdleWork(ws[..|ws| - 1]);
      assert ws[|ws| - 1] in ws;
    }
  }

  /** Steps left before the next result has to be handled. */
  function Pace(s: State): nat {
    CoordinatorWork(s.coordinator) + 4 * |s.net.work| + |s.net.results| + WorkersWork(s.net.workers)
    + if s.expired then 0 else 1
  }

  /** An upper bound on all steps still possible. */
  function Potential(c: Config, s: State, width: nat): int {
    (Budget(c, s.process) - |s.books.handled|) * (6 * width + 1) + Pace(s)
  }

  lemma OtherStepsPace(c: Config, s: State, e: Event)
    requires Ready(s, e) && !e.Receive?
    ensures Pace(Apply(c, s, e)) < Pace(s) && Apply(c, s, e).books.handled == s.books.handled
  {
    match e {
      case Take(w) =>
        WorkersWorkUpdate(s.net.workers, w, Exited);
        WorkersWorkUpdate(s.net.workers, w, Executing(s.net.work[0]));
      case Execute(w, r) => WorkersWorkUpdate(s.net.workers, w, Delivering(r));
      case Put(w) => WorkersWorkUpdate(s.net.workers, w, Idle);
      case Leave(w) => WorkersWorkUpdate(s.net.workers, w, Exited);
      case _ =>
    }
  }

  /** A handler leaves at most its hops to be worked off. */
  lemma CarriedWork(u: State, current: Item, reply: Reply, width: nat)
    requires |reply.hops| <= width
    ensures var t := Carried(u, current, reply);
            CoordinatorWork(t.coordinator) <= 6 * width + 2 && t.net == u.net
            && t.books == u.books && t.expired == u.expired
  {
  }

  lemma ReceivePace(c: Config, s: State, width: nat, late: bool, pick: Pick)
    requires Fixed(c, s.process, width) && Bounded(c, s) && s.coordinator.Selecting? && s.net.results != []
    ensures var t := Received(c, s, late, pick);
            Pace(t) < Pace(s) + 6 * width && |t.books.handled| == |s.books.handled| + 1
  {
    var r := s.net.results[0];
    assert r in s.net.results;
    RespondFixed(c, s.process, width, s.instance.life.status, r, pick);
    CarriedWork(Counting(s, late), r.item, Respond(c, s.process, s.instance.life.status, r, pick), width);
  }

  lemma PotentialFalls(c: Config, s: State, width: nat, e: Event)
    requires Fixed(c, s.process, width) && Bounded(c, s) && Enabled(c, s, e)
    ensures Potential(c, Apply(c, s, e), width) < Potential(c, s, width)
  {
    var t := Apply(c, s, e);
    StepBounded(c, s, width, e);
    if e.Receive? {
      ReceivePace(c, s, width, e.late, e.pick);
    } else {
      OtherStepsPace(c, s, e);
    }
    FallsTo(c, s, t, width);
  }

  lemma FallsTo(c: Config, s: State, t: State, width: nat)
    requires t.process == s.process
    requires (|t.books.handled| == |s.books.handled| + 1 && Pace(t) < Pace(s) + 6 * width + 1)
             || (t.books.handled == s.books.handled && Pace(t) < Pace(s))
    ensures Potential(c, t, width) < Potential(c, s, width)
  {
    Falls(Budget(c, s.process) - |s.books.handled|, Budget(c, s.process) - |t.books.handled|,
          6 * width + 1, Pace(s), Pace(t));
  }

  lemma Falls(left: int, left': int, k: nat, pace: nat, pace': nat)
    requires k > 0 && ((left' == left - 1 && pace' < pace + k) || (left' == left && pace' < pace))
    ensures left' * k + pace' < left * k + pace
  {
    assert (left - 1) * k == left * k - k;
  }

  lemma {:induction false} PathLength(c: Config, s: State, width: nat, es: seq<Event>, t: State)
    requires Fixed(c, s.process, width) && Bounded(c, s) && Path(c, s, es, t)
    ensures Bounded(c, t) && t.process == s.process && |es| + Potential(c, t, width) <= Potential(c, s, width)
    decreases |es|
  {
    if es != [] {
      StepBounded(c, s, width, es[0]);
      PotentialFalls(c, s, width, es[0]);
      PathLength(c, Apply(c, s, es[0]), width, es[1..], t);
    }
  }

  /** Every run ends. Whatever the schedule, no more than |Elements| * MaxLoops + 1 results are
      handled, and no run has more steps than the bound below. */
  lemma EveryRunEnds(c: Config, start: State, width: nat, es: seq<Event>, s: State)
    requires Starting(c, start) && Fixed(c, start.process, width) && Path(c, start, es, s)
    ensures |s.books.handled| <= Budget(c, start.process)
    ensures |es| <= Budget(c, start.process) * (6 * width + 1) + 5 * |start.books.issued| + c.workers + 3
  {
    StartingBounded(c, start, width);
    PathLength(c, start, width, es, s);
    PotentialNatural(c, s, width);
  }

  lemma PotentialNatural(c: Config, s: State, width: nat)
    requires |s.books.handled| <= Budget(c, s.process)
    ensures Potential(c, s, width) >= 0
  {
    Product(Budget(c, s.process) - |s.books.handled|, 6 * width + 1);
  }

  lemma StartingBounded(c: Config, start: State, width: nat)
    requires Starting(c, start)
    ensures Bounded(c, start)
    ensures Potential(c, start, width)
            == Budget(c, start.process) * (6 * width + 1) + 5 * |start.books.issued| + c.workers + 3
  {
    assert ElementsOf(start.books.handled) == [];
    IdleWork(start.net.workers);
  }

  lemma Product(a: nat, b: nat)
    ensures a * b >= 0
  {
  }
}

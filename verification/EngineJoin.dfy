/** A parallel join inside a run of the engine is the join machine of module ParallelJoin: every
    run, under every schedule, projects to a legal interleaving of arrivals and executions. */
module EngineJoin {
  import opened Bpmn
  import opened Totals
  import opened Routing
  import opened Records
  import opened Engine
  import opened EngineSafety
  import opened EngineTheorems
  import opened EngineHistory
  import opened EngineWaits
  import opened Lifecycle
  import J = ParallelJoin

  /** Arrivals at `g` are numbered in the order of their records. */
  function Rank(store: seq<FlowRecord>, record: nat, g: Id): nat
    requires record <= |store|
  {
    ArrivalsAt(store[..record], g)
  }

  /** The item has been executed: its result is in a worker's hands, in the channel, or handled. */
  ghost predicate IsDone(s: State, x: Item) {
    || x in s.books.handled
    || x in ItemsOf(s.net.results)
    || exists i :: 0 <= i < |s.net.workers| && s.net.workers[i].Delivering? && s.net.workers[i].result.item == x
  }

  predicate IsJoin(p: Process, g: Id, el: Element) {
    g in p.elements && p.elements[g] == el && el.kind == ParallelGateway && J.Synchronises(el)
  }

  ghost predicate Numbered(s: State, g: Id, i: nat) {
    exists x :: x in s.books.issued && x.element == g && x.record < |s.store| && Rank(s.store, x.record, g) == i
  }

  /** `j` is what the join machine sees of `s`. */
  ghost predicate Matches(s: State, g: Id, j: J.Join) {
    && j.created == ArrivalsAt(s.store, g)
    && j.done <= J.UpTo(j.created)
    && j.fired <= j.done
    && (forall i | i in j.done :: Numbered(s, g, i))
    && forall x | x in s.books.issued && x.element == g && x.record < |s.store| ::
         Rank(s.store, x.record, g) in j.done <==> IsDone(s, x)
  }

  /** What one step of the engine is for the join. */
  function Projected(s: State, t: State, e: Event, g: Id): seq<J.Event> {
    if e.Execute? && e.w < |s.net.workers| && s.net.workers[e.w].Executing? then
      var item := s.net.workers[e.w].item;
      if item.element == g && item.record <= |s.store| then [J.Exec(Rank(s.store, item.record, g))] else []
    else if ArrivalsAt(t.store, g) >= ArrivalsAt(s.store, g) then
      J.Repeat(ArrivalsAt(t.store, g) - ArrivalsAt(s.store, g))
    else []
  }

  predicate RoutesAt(e: Event, g: Id) { e.Execute? && e.result.item.element == g && e.result.action == Route }

  function Firings(es: seq<Event>, g: Id): nat {
    if es == [] then 0 else (if RoutesAt(es[0], g) then 1 else 0) + Firings(es[1..], g)
  }

  predicate WaitsAt(e: Event, g: Id) { AsksToWait(e) && e.result.item.element == g }

  /** Executions of `g` that ask to wait. */
  function WaitsOf(es: seq<Event>, g: Id): nat {
    if es == [] then 0 else (if WaitsAt(es[0], g) then 1 else 0) + WaitsOf(es[1..], g)
  }

  lemma {:induction false} WaitsOfTwo(es: seq<Event>, g: Id, h: Id)
    ensures WaitsOf(es, g) + (if g == h then 0 else WaitsOf(es, h)) <= Waits(es)
  {
    if es != [] {
      WaitsOfTwo(es[1..], g, h);
    }
  }

  /** The run never redefines the gateway. Calls that leave it alone are allowed. */
  ghost predicate Keeps(c: Config, s: State, es: seq<Event>, g: Id, el: Element)
    decreases |es|
  {
    && IsJoin(s.process, g, el)
    && (es != [] && Ready(s, es[0]) ==> Keeps(c, Apply(c, s, es[0]), es[1..], g, el))
  }

  ghost function Projection(c: Config, s: State, es: seq<Event>, g: Id): seq<J.Event>
    decreases |es|
  {
    if es == [] || !Ready(s, es[0]) then []
    else
      var t := Apply(c, s, es[0]);
      Projected(s, t, es[0], g) + Projection(c, t, es[1..], g)
  }

  lemma RankBelow(store: seq<FlowRecord>, record: nat, g: Id)
    requires record < |store| && store[record].element == g
    ensures Rank(store, record, g) < ArrivalsAt(store, g)
  {
    ArrivalsMonotone(store, record + 1, g);
    assert store[..record + 1][..record] == store[..record];
  }

  lemma RanksApart(store: seq<FlowRecord>, a: nat, b: nat, g: Id)
    requires a < b < |store| && store[a].element == g
    ensures Rank(store, a, g) < Rank(store, b, g)
  {
    RankBelow(store[..b], a, g);
    assert store[..b][..a] == store[..a];
  }

  lemma RankKept(store: seq<FlowRecord>, longer: seq<FlowRecord>, record: nat, g: Id)
    requires store <= longer && record <= |store|
    ensures Rank(longer, record, g) == Rank(store, record, g)
  {
    assert longer[..record] == store[..record];
  }

  lemma {:induction false} RankOnto(store: seq<FlowRecord>, rank: nat, g: Id) returns (record: nat)
    requires rank < ArrivalsAt(store, g)
    ensures record < |store| && store[record].element == g && Rank(store, record, g) == rank
  {
    var n := |store| - 1;
    if rank < ArrivalsAt(store[..n], g) {
      record := RankOnto(store[..n], rank, g);
      assert store[..n][..record] == store[..record];
    } else {
      record := n;
    }
  }

  lemma HeldBut(ws: seq<Worker>, i: nat, x: Item)
    requires i < |ws|
    ensures Held(ws)[x] == Held(ws[i := Idle])[x] + WorkerItem(ws[i])[x]
  {
    HeldUpdate(ws, i, Idle);
    assert (Held(ws[i := Idle]) + WorkerItem(ws[i]))[x] == (Held(ws) + WorkerItem(Idle))[x];
  }

  /** Two workers with the same item hold it twice. */
  lemma HeldTwice(ws: seq<Worker>, i: nat, k: nat, x: Item)
    requires i < |ws| && k < |ws| && i != k
    requires WorkerItem(ws[i]) == multiset{x} && WorkerItem(ws[k]) == multiset{x}
    ensures Held(ws)[x] >= 2
  {
    HeldBut(ws, i, x);
    HeldBut(ws[i := Idle], k, x);
  }

  lemma Places(s: State, x: Item)
    requires Conserved(s)
    ensures Copies(s, x) <= multiset(s.books.issued)[x] <= 1
  {
    Once(s.store, s.books.issued, x);
    var h, w, q := multiset(s.books.handled), Held(s.net.workers), multiset(ItemsOf(s.net.results));
    var f := CoordinatorItems(s.coordinator);
    assert (h + (f + (multiset(s.net.work) + w + q)) + s.books.dropped)[x] == multiset(s.books.issued)[x];
  }

  lemma IssuedInStore(s: State, y: Item)
    requires Conserved(s) && y in s.books.issued
    ensures y.record < |s.store| && s.store[y.record].element == y.element
  {
  }

  lemma DoneIssued(s: State, x: Item)
    requires Conserved(s) && IsDone(s, x)
    ensures x in s.books.issued
  {
    Places(s, x);
    DonePlaces(s, x);
    assert multiset(s.books.issued)[x] > 0;
  }

  function Copies(s: State, x: Item): nat {
    multiset(s.books.handled)[x] + Held(s.net.workers)[x] + multiset(ItemsOf(s.net.results))[x]
  }

  lemma DonePlaces(s: State, x: Item)
    requires IsDone(s, x)
    ensures Copies(s, x) >= 1
  {
    if x !in s.books.handled && x !in ItemsOf(s.net.results) {
      var i :| 0 <= i < |s.net.workers| && s.net.workers[i].Delivering? && s.net.workers[i].result.item == x;
      DeliveringHeld(s.net.workers, i);
    }
  }

  lemma DeliveringHeld(ws: seq<Worker>, i: nat)
    requires i < |ws| && ws[i].Delivering?
    ensures Held(ws)[ws[i].result.item] >= 1
  {
    HeldIncludes(ws, i);
    assert WorkerItem(ws[i])[ws[i].result.item] == 1;
  }

  lemma ExecutingPlaces(s: State, i: nat)
    requires i < |s.net.workers| && s.net.workers[i].Executing?
    ensures var x := s.net.workers[i].item; Copies(s, x) >= if IsDone(s, x) then 2 else 1
  {
    var x := s.net.workers[i].item;
    HeldBut(s.net.workers, i, x);
    if x !in s.books.handled && x !in ItemsOf(s.net.results) && IsDone(s, x) {
      var k :| 0 <= k < |s.net.workers| && s.net.workers[k].Delivering? && s.net.workers[k].result.item == x;
      HeldTwice(s.net.workers, i, k, x);
    }
  }

  /** What is being executed has not been executed before. */
  lemma ExecutingNotDone(s: State, i: nat)
    requires Conserved(s) && i < |s.net.workers| && s.net.workers[i].Executing?
    ensures var x := s.net.workers[i].item; !IsDone(s, x) && x in s.books.issued
  {
    Places(s, s.net.workers[i].item);
    ExecutingPlaces(s, i);
    assert multiset(s.books.issued)[s.net.workers[i].item] > 0;
  }

  lemma ReceiveKeepsDone(s: State, t: State, x: Item)
    requires s.net.results != [] && t.net == s.net.(results := s.net.results[1..])
    requires t.books.handled == s.books.handled + [s.net.results[0].item]
    ensures IsDone(t, x) <==> IsDone(s, x)
  {
    assert ItemsOf(s.net.results) == [s.net.results[0].item] + ItemsOf(t.net.results);
  }

  lemma ReceivedNet(c: Config, s: State, late: bool, pick: Pick)
    requires s.net.results != []
    ensures var t := Received(c, s, late, pick);
            && t.net == s.net.(results := s.net.results[1..])
            && t.books.handled == s.books.handled + [s.net.results[0].item]
  {
  }

  lemma PutKeepsDone(s: State, w: nat, x: Item)
    requires w < |s.net.workers| && s.net.workers[w].Delivering?
    ensures IsDone(Delivered(s, w), x) <==> IsDone(s, x)
  {
    var t, r := Delivered(s, w), s.net.workers[w].result;
    assert ItemsOf(t.net.results) == ItemsOf(s.net.results) + [r.item];
    forall i | 0 <= i < |s.net.workers| && i != w ensures t.net.workers[i] == s.net.workers[i] {}
  }

  /** A worker that delivers nothing before and after. */
  lemma WorkerKeepsDone(s: State, t: State, w: nat, x: Item)
    requires w < |s.net.workers| && !s.net.workers[w].Delivering?
    requires |t.net.workers| == |s.net.workers| && !t.net.workers[w].Delivering?
    requires t.net.workers == s.net.workers[w := t.net.workers[w]]
    requires t.net.results == s.net.results && t.books.handled == s.books.handled
    ensures IsDone(t, x) <==> IsDone(s, x)
  {
    forall i | 0 <= i < |s.net.workers| && i != w ensures t.net.workers[i] == s.net.workers[i] {}
  }

  lemma OthersKeepDone(c: Config, s: State, e: Event, x: Item)
    requires Ready(s, e) && !e.Execute?
    ensures IsDone(Apply(c, s, e), x) <==> IsDone(s, x)
  {
    match e {
      case Receive(late, pick) =>
        ReceivedNet(c, s, late, pick);
        ReceiveKeepsDone(s, Received(c, s, late, pick), x);
      case Put(w) => PutKeepsDone(s, w, x);
      case Take(w) => WorkerKeepsDone(s, Taken(s, w), w, x);
      case Leave(w) => WorkerKeepsDone(s, Busy(s, w, Exited), w, x);
      case _ =>
    }
  }

  lemma ExecuteDone(s: State, w: nat, r: Result, x: Item)
    requires w < |s.net.workers| && s.net.workers[w].Executing? && r.item == s.net.workers[w].item
    ensures IsDone(Busy(s, w, Delivering(r)), x) <==> IsDone(s, x) || x == r.item
  {
    var t := Busy(s, w, Delivering(r));
    assert t.net.workers[w].Delivering?;
    forall i | 0 <= i < |s.net.workers| && i != w ensures t.net.workers[i] == s.net.workers[i] {}
  }

  /** What a join answers. */
  lemma JoinAnswers(c: Config, s: State, e: Event, g: Id, el: Element)
    requires e.Execute? && Enabled(c, s, e) && IsJoin(s.process, g, el) && s.net.workers[e.w].item.element == g
    ensures e.result.item == s.net.workers[e.w].item
    ensures RoutesAt(e, g) <==> ArrivalsAt(s.store, g) >= |el.incoming|
    ensures RoutesAt(e, g) || WaitsAt(e, g)
  {
  }

  /** An execution at the join: a number not executed before, which fires when the gate is open. */
  lemma ExecuteMatches(s: State, t: State, g: Id, x: Item, need: nat, j: J.Join)
    requires Conserved(s) && Matches(s, g, j) && x.element == g
    requires !IsDone(s, x) && x in s.books.issued && x.record < |s.store| && s.store[x.record].element == g
    requires t.store == s.store && t.books == s.books
    requires forall y :: IsDone(t, y) <==> IsDone(s, y) || y == x
    ensures var exec := J.Exec(Rank(s.store, x.record, g));
            var k := J.Step(j, exec, need);
            && J.Enabled(j, exec) && Matches(t, g, k)
            && |k.fired| == |j.fired| + (if j.created >= need then 1 else 0) && |k.done| == |j.done| + 1
  {
    var rank := Rank(s.store, x.record, g);
    RankBelow(s.store, x.record, g);
    forall i | i in j.done ensures Numbered(t, g, i) {
      NumberedKept(s, t, g, i);
    }
    assert Numbered(t, g, rank);
    forall y | y in s.books.issued && y.element == g && y.record < |s.store|
      ensures Rank(s.store, y.record, g) == rank <==> y == x
    {
      SameRank(s, x, y, g);
    }
  }

  lemma SameRank(s: State, x: Item, y: Item, g: Id)
    requires Conserved(s) && x in s.books.issued && y in s.books.issued && x.element == y.element == g
    requires x.record < |s.store| && y.record < |s.store|
    ensures Rank(s.store, x.record, g) == Rank(s.store, y.record, g) <==> x == y
  {
    var i :| 0 <= i < |s.books.issued| && s.books.issued[i] == x;
    var k :| 0 <= k < |s.books.issued| && s.books.issued[k] == y;
    if i < k {
      RanksApart(s.store, x.record, y.record, g);
    } else if k < i {
      RanksApart(s.store, y.record, x.record, g);
    }
  }

  /** An item is in the same place, as far as having been executed goes, and keeps its number. */
  lemma OtherItem(c: Config, s: State, e: Event, g: Id, j: J.Join, y: Item)
    requires Conserved(s) && Enabled(c, s, e) && Matches(s, g, j) && (e.Execute? ==> e.result.item.element != g)
    requires var t := Apply(c, s, e); y in t.books.issued && y.element == g && y.record < |t.store|
    ensures Rank(Apply(c, s, e).store, y.record, g) in j.done <==> IsDone(Apply(c, s, e), y)
  {
    var t := Apply(c, s, e);
    StepGrows(c, s, e);
    if e.Execute? {
      ExecuteDone(s, e.w, e.result, y);
    } else {
      OthersKeepDone(c, s, e, y);
    }
    if y in s.books.issued {
      IssuedInStore(s, y);
      RankKept(s.store, t.store, y.record, g);
    } else {
      RankKept(s.store, t.store, |s.store|, g);
      assert s.store[..|s.store|] == s.store;
      if IsDone(s, y) {
        DoneIssued(s, y);
      }
    }
  }

  /** Any other step: the numbers executed stay, new records may arrive. */
  lemma OtherMatches(c: Config, s: State, e: Event, g: Id, j: J.Join)
    requires Inv(c, s) && Enabled(c, s, e) && Matches(s, g, j)
    requires e.Execute? ==> e.result.item.element != g
    ensures var t := Apply(c, s, e);
            && ArrivalsAt(t.store, g) >= ArrivalsAt(s.store, g)
            && Matches(t, g, j.(created := ArrivalsAt(t.store, g)))
  {
    var t := Apply(c, s, e);
    StepGrows(c, s, e);
    forall y | y in t.books.issued && y.element == g && y.record < |t.store|
      ensures Rank(t.store, y.record, g) in j.done <==> IsDone(t, y)
    {
      OtherItem(c, s, e, g, j, y);
    }
    MatchesGrown(s, t, g, j);
  }

  lemma MatchesGrown(s: State, t: State, g: Id, j: J.Join)
    requires Matches(s, g, j) && s.store <= t.store && forall x | x in s.books.issued :: x in t.books.issued
    requires forall y | y in t.books.issued && y.element == g && y.record < |t.store| ::
               Rank(t.store, y.record, g) in j.done <==> IsDone(t, y)
    ensures ArrivalsAt(t.store, g) >= ArrivalsAt(s.store, g)
    ensures Matches(t, g, j.(created := ArrivalsAt(t.store, g)))
  {
    ArrivalsMonotone(t.store, |s.store|, g);
    assert t.store[..|s.store|] == s.store;
    forall i | i in j.done ensures Numbered(t, g, i) {
      NumberedKept(s, t, g, i);
    }
  }

  lemma NumberedKept(s: State, t: State, g: Id, i: nat)
    requires s.store <= t.store && Numbered(s, g, i) && forall x | x in s.books.issued :: x in t.books.issued
    ensures Numbered(t, g, i)
  {
    var x :| x in s.books.issued && x.element == g && x.record < |s.store| && Rank(s.store, x.record, g) == i;
    RankKept(s.store, t.store, x.record, g);
    assert x in t.books.issued;
  }

  /** The join machine makes the step the engine makes. */
  ghost predicate Simulates(c: Config, s: State, e: Event, g: Id, need: nat, j: J.Join)
    requires Ready(s, e)
  {
    var t := Apply(c, s, e);
    var step := Projected(s, t, e, g);
    && J.Legal(j, step, need) && Matches(t, g, J.After(j, step, need))
    && |J.After(j, step, need).fired| == |j.fired| + (if RoutesAt(e, g) then 1 else 0)
    && |J.After(j, step, need).done| == |j.done| + if RoutesAt(e, g) || WaitsAt(e, g) then 1 else 0
  }

  lemma OneEvent(j: J.Join, e: J.Event, need: nat)
    requires J.Enabled(j, e)
    ensures J.Legal(j, [e], need) && J.After(j, [e], need) == J.Step(j, e, need)
  {
    assert [e][1..] == [];
  }

  lemma ExecuteMarks(s: State, w: nat, r: Result)
    requires w < |s.net.workers| && s.net.workers[w].Executing? && r.item == s.net.workers[w].item
    ensures forall y :: IsDone(Busy(s, w, Delivering(r)), y) <==> IsDone(s, y) || y == r.item
  {
    forall y ensures IsDone(Busy(s, w, Delivering(r)), y) <==> IsDone(s, y) || y == r.item {
      ExecuteDone(s, w, r, y);
    }
  }

  lemma ExecuteProjected(c: Config, s: State, e: Event, g: Id)
    requires e.Execute? && Ready(s, e) && s.net.workers[e.w].item.element == g
    requires s.net.workers[e.w].item.record < |s.store|
    ensures var t := Apply(c, s, e);
            && Projected(s, t, e, g) == [J.Exec(Rank(s.store, s.net.workers[e.w].item.record, g))]
            && t == Busy(s, e.w, Delivering(e.result))
  {
  }

  lemma ExecuteSimulates(c: Config, s: State, e: Event, g: Id, el: Element, j: J.Join)
    requires Inv(c, s) && e.Execute? && Enabled(c, s, e) && IsJoin(s.process, g, el) && Matches(s, g, j)
    requires s.net.workers[e.w].item.element == g
    ensures Simulates(c, s, e, g, |el.incoming|, j)
  {
    var t, x, need := Apply(c, s, e), e.result.item, |el.incoming|;
    ExecutingNotDone(s, e.w);
    IssuedInStore(s, s.net.workers[e.w].item);
    JoinAnswers(c, s, e, g, el);
    ExecuteMarks(s, e.w, e.result);
    ExecuteMatches(s, t, g, x, need, j);
    ExecuteProjected(c, s, e, g);
    OneEvent(j, J.Exec(Rank(s.store, x.record, g)), need);
  }

  lemma OtherProjected(c: Config, s: State, e: Event, g: Id)
    requires Enabled(c, s, e) && (e.Execute? ==> s.net.workers[e.w].item.element != g)
    requires ArrivalsAt(Apply(c, s, e).store, g) >= ArrivalsAt(s.store, g)
    ensures var t := Apply(c, s, e);
            Projected(s, t, e, g) == J.Repeat(ArrivalsAt(t.store, g) - ArrivalsAt(s.store, g))
    ensures !RoutesAt(e, g) && !WaitsAt(e, g)
  {
    if e.Execute? {
      ResultIsOfItem(c, s, e.w, e.result);
      assert Apply(c, s, e).store == s.store;
    }
  }

  lemma OtherSimulates(c: Config, s: State, e: Event, g: Id, need: nat, j: J.Join)
    requires Inv(c, s) && Enabled(c, s, e) && Matches(s, g, j)
    requires e.Execute? ==> s.net.workers[e.w].item.element != g
    ensures Simulates(c, s, e, g, need, j)
  {
    if e.Execute? {
      ResultIsOfItem(c, s, e.w, e.result);
    }
    OtherMatches(c, s, e, g, j);
    OtherProjected(c, s, e, g);
    J.RunRepeat(j, ArrivalsAt(Apply(c, s, e).store, g) - ArrivalsAt(s.store, g), need);
  }

  lemma StepMatches(c: Config, s: State, e: Event, g: Id, el: Element, j: J.Join)
    requires Inv(c, s) && Enabled(c, s, e) && IsJoin(s.process, g, el) && Matches(s, g, j)
    ensures Simulates(c, s, e, g, |el.incoming|, j)
  {
    if e.Execute? && s.net.workers[e.w].item.element == g {
      ExecuteSimulates(c, s, e, g, el, j);
    } else {
      OtherSimulates(c, s, e, g, |el.incoming|, j);
    }
  }

  /** The projection of the path is a legal interleaving for the join machine, ends in the state the
      machine computes, and routes and executes as often as the machine does. */
  ghost predicate Refines(c: Config, s: State, es: seq<Event>, t: State, g: Id, need: nat, j: J.Join) {
    var run := Projection(c, s, es, g);
    && J.Legal(j, run, need) && Matches(t, g, J.After(j, run, need))
    && |J.After(j, run, need).fired| == |j.fired| + Firings(es, g)
    && |J.After(j, run, need).done| == |j.done| + Firings(es, g) + WaitsOf(es, g)
  }

  lemma StepThenRun(c: Config, s: State, es: seq<Event>, t: State, g: Id, need: nat, j: J.Join)
    requires es != [] && Ready(s, es[0]) && Simulates(c, s, es[0], g, need, j)
    requires var mid := Apply(c, s, es[0]);
             Refines(c, mid, es[1..], t, g, need, J.After(j, Projected(s, mid, es[0], g), need))
    ensures Refines(c, s, es, t, g, need, j)
  {
    var mid := Apply(c, s, es[0]);
    J.AfterConcat(j, Projected(s, mid, es[0], g), Projection(c, mid, es[1..], g), need);
  }

  /** Every run of the engine refines the join machine, for every gateway it leaves alone. */
  lemma {:induction false} RunRefinesJoin(c: Config, s: State, es: seq<Event>, t: State, g: Id, el: Element, j: J.Join)
    requires Inv(c, s) && Path(c, s, es, t) && Keeps(c, s, es, g, el) && Matches(s, g, j)
    ensures Refines(c, s, es, t, g, |el.incoming|, j)
    decreases |es|
  {
    if es != [] {
      var mid, need := Apply(c, s, es[0]), |el.incoming|;
      StepInv(c, s, es[0]);
      StepMatches(c, s, es[0], g, el, j);
      RunRefinesJoin(c, mid, es[1..], t, g, el, J.After(j, Projected(s, mid, es[0], g), need));
      StepThenRun(c, s, es, t, g, need, j);
    }
  }

  /** Before the run nothing of it has been executed. */
  lemma BeginsMatching(c: Config, start: State, g: Id)
    requires Starting(c, start)
    ensures Matches(start, g, J.Join(ArrivalsAt(start.store, g), {}, {}))
  {
    assert ItemsOf(start.net.results) == [];
  }

  lemma {:induction false} NewIssued(c: Config, store: seq<FlowRecord>, s: State, es: seq<Event>, t: State, g: Id)
    requires Path(c, s, es, t) && |store| <= |s.store| && NewOnes(store, s, g) && BoundaryFree(s, es, c, g)
    ensures NewOnes(store, t, g)
    decreases |es|
  {
    if es != [] {
      StepNewOnes(c, store, s, es[0], g);
      NewIssued(c, store, Apply(c, s, es[0]), es[1..], t, g);
    }
  }

  /** Every record at `g` written after `store` belongs to an item of this run, and no other. */
  ghost predicate NewOnes(store: seq<FlowRecord>, s: State, g: Id) {
    && (forall i: nat | |store| <= i < |s.store| && s.store[i].element == g :: Item(i, g) in s.books.issued)
    && (forall x | x in s.books.issued :: x.record >= |store|)
  }

  /** The element at `g` is never a boundary event. */
  ghost predicate BoundaryFree(s: State, es: seq<Event>, c: Config, g: Id)
    decreases |es|
  {
    && KindOf(s.process, g) == ParallelGateway
    && (es != [] && Ready(s, es[0]) ==> BoundaryFree(Apply(c, s, es[0]), es[1..], c, g))
  }

  lemma {:induction false} KeepsBoundaryFree(c: Config, s: State, es: seq<Event>, g: Id, el: Element)
    requires Keeps(c, s, es, g, el)
    ensures BoundaryFree(s, es, c, g)
    decreases |es|
  {
    if es != [] && Ready(s, es[0]) {
      KeepsBoundaryFree(c, Apply(c, s, es[0]), es[1..], g, el);
    }
  }

  lemma RespondRecords(c: Config, p: Process, s: State, r: Result, pick: Pick, g: Id)
    requires PickAllowed(c, p, r, pick) && KindOf(p, g) == ParallelGateway
    ensures forall x | x in Respond(c, p, s.instance.life.status, r, pick).records :: x.element != g
  {
    var records := Respond(c, p, s.instance.life.status, r, pick).records;
    forall x | x in records ensures x.element != g {
      var i :| 0 <= i < |records| && records[i] == x;
      assert pick.boundary[i] in pick.boundary;
      assert IsBoundary(p, r.item.element, pick.boundary[i]);
    }
  }

  lemma StepNewOnes(c: Config, store: seq<FlowRecord>, s: State, e: Event, g: Id)
    requires Enabled(c, s, e) && |store| <= |s.store| && NewOnes(store, s, g)
    requires KindOf(s.process, g) == ParallelGateway
    ensures NewOnes(store, Apply(c, s, e), g) && |store| <= |Apply(c, s, e).store|
  {
    var t := Apply(c, s, e);
    match e {
      case Receive(late, pick) =>
        RespondRecords(c, s.process, s, s.net.results[0], pick, g);
        ReceivedRecords(c, s, late, pick, g);
        assert t.books.issued == s.books.issued;
      case Record =>
        var item := t.coordinator.item;
        assert t.books.issued == s.books.issued + [item];
        assert item in t.books.issued;
      case _ =>
        assert t.store == s.store && t.books.issued == s.books.issued;
    }
  }

  lemma ReceivedRecords(c: Config, s: State, late: bool, pick: Pick, g: Id)
    requires s.net.results != []
    requires forall x | x in Respond(c, s.process, s.instance.life.status, s.net.results[0], pick).records ::
               x.element != g
    ensures var t := Received(c, s, late, pick);
            && s.store <= t.store && forall i | |s.store| <= i < |t.store| :: t.store[i].element != g
  {
    var t := Received(c, s, late, pick);
    var records := Respond(c, s.process, s.instance.life.status, s.net.results[0], pick).records;
    forall i | |s.store| <= i < |t.store| ensures t.store[i].element != g {
      assert t.store == s.store + records;
      assert t.store[i] in records;
    }
  }

  /** A join in a run of the engine, whatever the schedule. `store` holds the records of earlier
      runs of the instance. The join routes only once as many records exist as it has incoming
      flows, and each arrival of this run routes at most once. When the run has handled everything,
      every arrival numbered `need - 1` or later has routed, and all but one of its arrivals have,
      because a second wait would have ended it; in a run that completed, all of them. */
  lemma JoinsInRuns(c: Config, store: seq<FlowRecord>, start: State, es: seq<Event>, s: State, g: Id, el: Element)
    requires Begins(c, store, start) && Path(c, start, es, s) && Keeps(c, start, es, g, el)
    ensures var before, after, need := ArrivalsAt(store, g), ArrivalsAt(s.store, g), J.AtLeastOne(|el.incoming|);
            && before <= after
            && Firings(es, g) <= after - before
            && (after < |el.incoming| ==> Firings(es, g) == 0)
            && (IsFinalized(s.coordinator) ==>
                  && (after >= need ==> Firings(es, g) >= after - if before >= need then before else need - 1)
                  && Firings(es, g) >= after - before - 1
                  && (s.instance.life.status == Completed ==> Firings(es, g) == after - before))
  {
    var k := RunOfJoin(c, start, es, s, g, el);
    BeginsNew(c, store, start, es, s, g, el);
    PendingIsExact(c, start, es, s);
    FiredAreNew(store, s, g, k);
    AllHandled(store, s, g, el, k);
    if IsFinalized(s.coordinator) {
      AtMostOneWait(c, start, es, s);
      MissedAreWaits(c, store, start, es, s, g, el);
      WaitsOfTwo(es, g, g);
    }
  }

  /** In a finalized run an arrival that has not routed has waited. */
  lemma MissedAreWaits(c: Config, store: seq<FlowRecord>, start: State, es: seq<Event>, s: State, g: Id, el: Element)
    requires Begins(c, store, start) && Path(c, start, es, s) && Keeps(c, start, es, g, el)
    requires IsFinalized(s.coordinator)
    ensures ArrivalsAt(s.store, g) - ArrivalsAt(store, g) - Firings(es, g) <= WaitsOf(es, g)
  {
    var k := RunOfJoin(c, start, es, s, g, el);
    BeginsNew(c, store, start, es, s, g, el);
    PendingIsExact(c, start, es, s);
    HandledAreAll(store, s, g, k);
  }

  /** Of all the joins of a finalized run at most one has an arrival that did not route. */
  lemma JoinsTogether(c: Config, store: seq<FlowRecord>, start: State, es: seq<Event>, s: State,
                      g: Id, eg: Element, h: Id, eh: Element)
    requires Begins(c, store, start) && Path(c, start, es, s) && IsFinalized(s.coordinator) && g != h
    requires Keeps(c, start, es, g, eg) && Keeps(c, start, es, h, eh)
    ensures ArrivalsAt(s.store, g) - ArrivalsAt(store, g) - Firings(es, g)
            + (ArrivalsAt(s.store, h) - ArrivalsAt(store, h) - Firings(es, h)) <= 1
  {
    MissedAreWaits(c, store, start, es, s, g, eg);
    MissedAreWaits(c, store, start, es, s, h, eh);
    AtMostOneWait(c, start, es, s);
    WaitsOfTwo(es, g, h);
  }

  /** When everything issued has been handled, the run has executed all its arrivals. */
  lemma HandledAreAll(store: seq<FlowRecord>, s: State, g: Id, k: J.Join)
    requires store <= s.store && NewOnes(store, s, g) && Matches(s, g, k)
    requires multiset(s.books.handled) == multiset(s.books.issued)
    ensures |k.done| >= ArrivalsAt(s.store, g) - ArrivalsAt(store, g)
  {
    var before, after := ArrivalsAt(store, g), ArrivalsAt(s.store, g);
    FiredAreNew(store, s, g, k);
    forall i | i in J.UpTo(after) - J.UpTo(before) ensures i in k.done {
      AllExecuted(store, s, g, k, i);
    }
    SubsetSize(J.UpTo(after) - J.UpTo(before), k.done);
    J.GapSize(before, after);
  }

  lemma AllHandled(store: seq<FlowRecord>, s: State, g: Id, el: Element, k: J.Join)
    requires store <= s.store && NewOnes(store, s, g) && Matches(s, g, k) && J.Sound(k, |el.incoming|)
    ensures var before, after, need := ArrivalsAt(store, g), ArrivalsAt(s.store, g), J.AtLeastOne(|el.incoming|);
            multiset(s.books.handled) == multiset(s.books.issued) && after >= need ==>
              |k.fired| >= after - if before >= need then before else need - 1
  {
    if multiset(s.books.handled) == multiset(s.books.issued) && k.created >= J.AtLeastOne(|el.incoming|) {
      forall i | ArrivalsAt(store, g) <= i < k.created ensures i in k.done {
        AllExecuted(store, s, g, k, i);
      }
      FiredAreNew(store, s, g, k);
      LateOnesFired(k, ArrivalsAt(store, g), |el.incoming|);
    }
  }

  /** The join machine's state at the end of a run. */
  lemma RunOfJoin(c: Config, start: State, es: seq<Event>, s: State, g: Id, el: Element) returns (k: J.Join)
    requires Starting(c, start) && Path(c, start, es, s) && Keeps(c, start, es, g, el)
    ensures Matches(s, g, k) && J.Sound(k, |el.incoming|) && |k.fired| == Firings(es, g)
    ensures |k.done| == Firings(es, g) + WaitsOf(es, g)
  {
    var j := J.Join(ArrivalsAt(start.store, g), {}, {});
    StartingInv(c, start);
    BeginsMatching(c, start, g);
    RunRefinesJoin(c, start, es, s, g, el, j);
    J.SoundAlways(j, Projection(c, start, es, g), |el.incoming|);
    k := J.After(j, Projection(c, start, es, g), |el.incoming|);
  }

  lemma BeginsNew(c: Config, store: seq<FlowRecord>, start: State, es: seq<Event>, s: State, g: Id, el: Element)
    requires Begins(c, store, start) && Path(c, start, es, s) && Keeps(c, start, es, g, el)
    ensures NewOnes(store, s, g) && store <= s.store
  {
    var added := start.store[|store|..];
    forall i: nat | |store| <= i < |start.store| && start.store[i].element == g
      ensures Item(i, g) in start.books.issued
    {
      assert ItemsFrom(|store|, added)[i - |store|] == Item(i, g);
    }
    KeepsBoundaryFree(c, start, es, g, el);
    NewIssued(c, store, start, es, s, g);
    PathGrows(c, start, es, s);
  }

  lemma NewNumber(store: seq<FlowRecord>, s: State, g: Id, i: nat)
    requires store <= s.store && NewOnes(store, s, g) && Numbered(s, g, i)
    ensures i >= ArrivalsAt(store, g)
  {
    var x :| x in s.books.issued && x.element == g && x.record < |s.store| && Rank(s.store, x.record, g) == i;
    var upTo := s.store[..x.record];
    ArrivalsMonotone(upTo, |store|, g);
    assert upTo[..|store|] == store;
  }

  /** Only arrivals of this run fire. */
  lemma FiredAreNew(store: seq<FlowRecord>, s: State, g: Id, k: J.Join)
    requires store <= s.store && NewOnes(store, s, g) && Matches(s, g, k)
    ensures var before, after := ArrivalsAt(store, g), ArrivalsAt(s.store, g);
            before <= after && |k.fired| <= after - before
  {
    var before, after := ArrivalsAt(store, g), ArrivalsAt(s.store, g);
    ArrivalsMonotone(s.store, |store|, g);
    assert s.store[..|store|] == store;
    forall i | i in k.fired ensures i in J.UpTo(after) - J.UpTo(before) {
      NewNumber(store, s, g, i);
    }
    SubsetSize(k.fired, J.UpTo(after) - J.UpTo(before));
    J.GapSize(before, after);
  }

  /** When everything issued has been handled, every arrival of the run has been executed. */
  lemma AllExecuted(store: seq<FlowRecord>, s: State, g: Id, k: J.Join, i: nat)
    requires store <= s.store && NewOnes(store, s, g) && Matches(s, g, k)
    requires multiset(s.books.handled) == multiset(s.books.issued)
    requires ArrivalsAt(store, g) <= i < ArrivalsAt(s.store, g)
    ensures i in k.done
  {
    var record := RankOnto(s.store, i, g);
    if record < |store| {
      RankBelow(store, record, g);
      RankKept(store, s.store, record, g);
    }
    var x := Item(record, g);
    assert x in multiset(s.books.issued);
    assert IsDone(s, x);
  }

  /** Executed arrivals numbered `need - 1` or later have fired. */
  lemma LateOnesFired(k: J.Join, before: nat, need: nat)
    requires J.Sound(k, need) && k.created >= J.AtLeastOne(need) && before <= k.created
    requires forall i | before <= i < k.created :: i in k.done
    ensures var from := if before >= J.AtLeastOne(need) then before else J.AtLeastOne(need) - 1;
            |k.fired| >= k.created - from
  {
    var from := if before >= J.AtLeastOne(need) then before else J.AtLeastOne(need) - 1;
    SubsetSize(J.UpTo(k.created) - J.UpTo(from), k.fired);
    J.GapSize(from, k.created);
  }
}

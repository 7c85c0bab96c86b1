/** What holds in every state a run can reach. */
module EngineSafety {
  import opened Bpmn
  import opened Routing
  import opened Records
  import opened Lifecycle
  import opened FailSafe
  import opened Engine

  /** The item a worker is busy with. */
  function WorkerItem(w: Worker): multiset<Item> {
    match w
    case Executing(item) => multiset{item}
    case Delivering(result) => multiset{result.item}
    case _ => multiset{}
  }

  function Held(ws: seq<Worker>): multiset<Item> {
    if ws == [] then multiset{} else Held(ws[..|ws| - 1]) + WorkerItem(ws[|ws| - 1])
  }

  function CoordinatorItems(k: Coordinator): multiset<Item> {
    match k
    case Feeding(rest) => multiset(rest)
    case Sending(item, _, _) => multiset{item}
    case _ => multiset{}
  }

  function ItemsOf(rs: seq<Result>): (items: seq<Item>)
    ensures |items| == |rs| && forall i | 0 <= i < |rs| :: items[i] == rs[i].item
  {
    seq(|rs|, i requires 0 <= i < |rs| => rs[i].item)
  }

  function NetItems(n: Net): multiset<Item> {
    multiset(n.work) + Held(n.workers) + multiset(ItemsOf(n.results))
  }

  /** Everything issued and not yet handled: not sent, queued, executing, or waiting to be read. */
  function InFlight(s: State): multiset<Item> { CoordinatorItems(s.coordinator) + NetItems(s.net) }

  lemma {:induction false} HeldUpdate(ws: seq<Worker>, i: nat, w: Worker)
    requires i < |ws|
    ensures Held(ws[i := w]) + WorkerItem(ws[i]) == Held(ws) + WorkerItem(w)
  {
    var n, next := |ws| - 1, ws[i := w];
    var front := ws[..n];
    var a, b := Held(front), WorkerItem(ws[n]);
    assert Held(ws) == a + b;
    if i == n {
      assert next[..n] == front;
      assert Held(next) == a + WorkerItem(w);
    } else {
      HeldUpdate(front, i, w);
      assert next[..n] == front[i := w];
      var d := Held(front[i := w]);
      assert Held(next) == d + b;
      Aside(d, WorkerItem(ws[i]), a, WorkerItem(w), b);
    }
  }

  lemma Aside<T>(d: multiset<T>, x: multiset<T>, a: multiset<T>, y: multiset<T>, b: multiset<T>)
    requires d + x == a + y
    ensures (d + b) + x == (a + b) + y
  {
    assert (d + b) + x == (d + x) + b;
    assert (a + b) + y == (a + y) + b;
  }

  lemma {:induction false} HeldNothing(ws: seq<Worker>)
    requires forall w | w in ws :: WorkerItem(w) == multiset{}
    ensures Held(ws) == multiset{}
  {
    if ws != [] {
      HeldNothing(ws[..|ws| - 1]);
    }
  }

  lemma {:induction false} HeldIncludes(ws: seq<Worker>, k: nat)
    requires k < |ws|
    ensures WorkerItem(ws[k]) <= Held(ws)
  {
    var n := |ws| - 1;
    if k < n {
      HeldIncludes(ws[..n], k);
      assert ws[..n][k] == ws[k];
    }
  }

  lemma PopFront<T>(s: seq<T>)
    requires s != []
    ensures multiset(s) == multiset{s[0]} + multiset(s[1..])
  {
    assert s == [s[0]] + s[1..];
  }

  /** Every item ever issued is in exactly one place, and `pending` counts those not handled. */
  ghost predicate Balanced(b: Books, inFlight: multiset<Item>) {
    && multiset(b.issued) == multiset(b.handled) + inFlight + b.dropped
    && b.pending == |b.issued| - |b.handled|
  }

  ghost predicate Conserved(s: State) {
    && Balanced(s.books, InFlight(s))
    && Genuine(s.store, s.books.issued)
    && (!s.expired ==> s.books.dropped == multiset{})
  }

  ghost predicate SomeExited(ws: seq<Worker>) { exists w :: w in ws && w.Exited? }

  ghost predicate AllExited(ws: seq<Worker>) { forall w | w in ws :: w.Exited? }

  ghost predicate Orderly(c: Config, s: State) {
    && |s.net.workers| == c.workers >= 1
    && |s.net.work| <= CAPACITY && |s.net.results| <= CAPACITY
    && (s.coordinator.Feeding? ==> s.coordinator.rest != [])
    && (s.coordinator.Selecting? ==> s.books.pending > 0)
    && (s.coordinator.Recording? ==> s.coordinator.todo != [])
    && (s.coordinator.Closing? ==> !LeavesOpen(s.coordinator.outcome))
    && (s.coordinator in {Closing(Finalized), Returned(Finalized)} ==> s.books.pending == 0)
    && (ResultClosed(s.coordinator) ==> AllExited(s.net.workers))
    && (SomeExited(s.net.workers) ==> s.expired || (WorkClosed(s.coordinator) && s.net.work == []))
  }

  /** The only histories of successful transitions a run can have. */
  ghost predicate Disciplined(k: Case) {
    && (|| (k.trail == [] && k.life.status == InProgress && !k.life.once)
        || (|k.trail| == 1 && k.life.status == k.trail[0] && k.trail[0] in {Waiting, Completed, Failed, Terminated})
        || (|k.trail| == 2 && k.trail[0] == Waiting && k.life.status == k.trail[1]
            && k.trail[1] in {Failed, Terminated}))
    && (k.life.completedOk <==> k.trail == [Completed])
    && k.errors <= 1
    && (k.errors == 1 ==> k.life.status == Failed)
  }

  ghost predicate Inv(c: Config, s: State) { Conserved(s) && Orderly(c, s) && Disciplined(s.instance) }

  lemma StartingInv(c: Config, s: State)
    requires Starting(c, s)
    ensures Inv(c, s)
  {
    HeldNothing(s.net.workers);
    assert ItemsOf(s.net.results) == [];
  }

  /** Something in flight means something pending. */
  lemma StillPending(s: State)
    requires Balanced(s.books, InFlight(s))
    ensures s.books.pending == |InFlight(s)| + |s.books.dropped|
  {
    assert |multiset(s.books.issued)| == |multiset(s.books.handled)| + |InFlight(s)| + |s.books.dropped|;
  }

  lemma NothingPending(s: State)
    requires Balanced(s.books, InFlight(s)) && s.books.pending == 0
    ensures multiset(s.books.handled) == multiset(s.books.issued)
  {
    StillPending(s);
    assert InFlight(s) == multiset{} && s.books.dropped == multiset{};
  }

  lemma MovedDiscipline(k: Case, next: Status)
    requires Disciplined(k) && next in {Waiting, Failed, Terminated}
    ensures Disciplined(Moved(k, next))
  {
  }

  lemma TryCompletedDiscipline(k: Case)
    requires Disciplined(k)
    ensures Disciplined(TryCompleted(k))
  {
  }

  lemma RespondChanges(c: Config, p: Process, status: Status, r: Result, pick: Pick)
    ensures var reply := Respond(c, p, status, r, pick);
            && (reply.change.To? ==>
                  reply.change.status in {Waiting, Failed, Terminated} && reply.change.status in Allowed(status))
            && (reply.exit == Continue ==> (reply.uncaught <==> reply.change == To(Failed)))
            && (reply.uncaught ==> reply.exit == Continue)
            && (reply.exit == Report ==> Failed in Allowed(status))
  {
  }

  lemma CarriedDiscipline(s: State, current: Item, reply: Reply)
    requires Disciplined(s.instance)
    requires reply.change.To? ==>
               reply.change.status in {Waiting, Failed, Terminated}
               && reply.change.status in Allowed(s.instance.life.status)
    requires reply.uncaught ==> reply.change == To(Failed)
    ensures Disciplined(Carried(s, current, reply).instance)
  {
    TryCompletedDiscipline(s.instance);
    if reply.change.To? {
      MovedDiscipline(s.instance, reply.change.status);
    }
  }

  lemma CountingBalanced(s: State, late: bool)
    requires Balanced(s.books, InFlight(s)) && s.coordinator.Selecting? && s.net.results != []
    ensures Balanced(Counting(s, late).books, InFlight(Counting(s, late)))
  {
    PopFront(ItemsOf(s.net.results));
    assert ItemsOf(s.net.results)[1..] == ItemsOf(s.net.results[1..]);
  }

  /** A result has been counted and its handler has not run yet. */
  ghost predicate MidReceive(c: Config, u: State) {
    && Conserved(u) && Disciplined(u.instance)
    && u.coordinator.Selecting? && u.books.pending >= 0
    && |u.net.workers| == c.workers >= 1 && |u.net.work| <= CAPACITY && |u.net.results| <= CAPACITY
    && (SomeExited(u.net.workers) ==> u.expired)
  }

  lemma CountingMid(c: Config, s: State, late: bool)
    requires Inv(c, s) && s.coordinator.Selecting? && s.net.results != []
    ensures MidReceive(c, Counting(s, late))
  {
    CountingBalanced(s, late);
    StillPending(Counting(s, late));
  }

  lemma TrippedInv(c: Config, u: State, verdict: Verdict)
    requires MidReceive(c, u)
    ensures Inv(c, u.(instance := Moved(u.instance, Failed), coordinator := Closing(Tripped(verdict))))
  {
    MovedDiscipline(u.instance, Failed);
  }

  lemma CarriedInv(c: Config, u: State, r: Result, pick: Pick)
    requires MidReceive(c, u)
    ensures Inv(c, Carried(u, r.item, Respond(c, u.process, u.instance.life.status, r, pick)))
  {
    var reply := Respond(c, u.process, u.instance.life.status, r, pick);
    RespondChanges(c, u.process, u.instance.life.status, r, pick);
    CarriedDiscipline(u, r.item, reply);
    CarriedConserved(u, r.item, reply);
    CarriedOrderly(c, u, r.item, reply);
  }

  lemma CarriedConserved(u: State, current: Item, reply: Reply)
    requires Conserved(u) && u.coordinator.Selecting?
    ensures Conserved(Carried(u, current, reply))
  {
    var t := Carried(u, current, reply);
    assert InFlight(t) == InFlight(u);
    GenuineExtends(u.store, t.store, u.books.issued);
  }

  lemma CarriedOrderly(c: Config, u: State, current: Item, reply: Reply)
    requires MidReceive(c, u)
    ensures Orderly(c, Carried(u, current, reply))
  {
  }

  lemma ReceivedInv(c: Config, s: State, late: bool, pick: Pick)
    requires Inv(c, s) && s.coordinator.Selecting? && s.net.results != []
    ensures Inv(c, Received(c, s, late, pick))
  {
    var verdict := Judge(s.tally, s.net.results[0].item.element, late, c.maxLoops);
    CountingMid(c, s, late);
    if verdict != Fine {
      TrippedInv(c, Counting(s, late), verdict);
    } else {
      CarriedInv(c, Counting(s, late), s.net.results[0], pick);
    }
  }

  lemma GenuineExtends(store: seq<FlowRecord>, longer: seq<FlowRecord>, items: seq<Item>)
    requires Genuine(store, items) && store <= longer
    ensures Genuine(longer, items)
  {
  }

  lemma RecordedInv(c: Config, s: State)
    requires Inv(c, s) && s.coordinator.Recording? && s.coordinator.todo != []
    ensures Inv(c, Recorded(s))
  {
    var t := Recorded(s);
    var item := t.coordinator.item;
    GenuineExtends(s.store, t.store, s.books.issued);
    assert Genuine(t.store, t.books.issued);
    IssueBalanced(s.books, NetItems(s.net), item);
    assert CoordinatorItems(s.coordinator) + NetItems(s.net) == NetItems(s.net);
    assert CoordinatorItems(t.coordinator) == multiset{item};
  }

  lemma IssueBalanced(b: Books, n: multiset<Item>, item: Item)
    requires Balanced(b, n)
    ensures Balanced(b.(pending := b.pending + 1, issued := b.issued + [item]), multiset{item} + n)
  {
    assert multiset(b.issued + [item]) == multiset(b.issued) + multiset{item};
  }

  lemma SentInv(c: Config, s: State)
    requires Inv(c, s) && s.coordinator.Sending? && |s.net.work| < CAPACITY
    ensures Inv(c, Sent(s))
  {
    var t, item := Sent(s), s.coordinator.item;
    assert multiset(t.net.work) == multiset(s.net.work) + multiset{item};
    StillPending(s);
    assert InFlight(t) == InFlight(s);
  }

  lemma FedInv(c: Config, s: State)
    requires Inv(c, s) && s.coordinator.Feeding? && |s.net.work| < CAPACITY
    ensures Inv(c, Fed(s))
  {
    var t, rest := Fed(s), s.coordinator.rest;
    PopFront(rest);
    assert multiset(t.net.work) == multiset(s.net.work) + multiset{rest[0]};
    StillPending(s);
    assert InFlight(t) == InFlight(s);
  }

  lemma ExitedAfter(ws: seq<Worker>, i: nat, w: Worker)
    requires i < |ws|
    ensures !w.Exited? ==> (SomeExited(ws[i := w]) ==> SomeExited(ws))
    ensures w.Exited? && AllExited(ws) ==> AllExited(ws[i := w])
    ensures AllExited(ws) ==> ws[i].Exited?
  {
    assert forall x | x in ws[i := w] :: x == w || x in ws;
    assert ws[i] in ws;
  }

  /** A worker changes what it is doing. */
  lemma BusyInv(c: Config, s: State, t: State, i: nat, w: Worker)
    requires Inv(c, s) && i < |s.net.workers| && !s.net.workers[i].Exited?
    requires t.net.workers == s.net.workers[i := w]
    requires t == s.(net := t.net, books := t.books)
    requires |t.net.work| <= CAPACITY && |t.net.results| <= CAPACITY
    requires t.books.pending == s.books.pending
    requires Conserved(t)
    requires w.Exited? ==> s.expired || (WorkClosed(s.coordinator) && t.net.work == [])
    requires s.net.work == [] ==> t.net.work == []
    ensures Inv(c, t)
  {
    ExitedAfter(s.net.workers, i, w);
  }

  /** Taking from the work channel: the item moves into the worker, or out of the net. */
  lemma TakenNet(n: Net, i: nat, w: Worker)
    requires i < |n.workers| && n.workers[i].Idle? && n.work != []
    ensures NetItems(Net(n.work[1..], n.results, n.workers[i := w])) + multiset{n.work[0]}
            == NetItems(n) + WorkerItem(w)
  {
    PopFront(n.work);
    HeldUpdate(n.workers, i, w);
    var x, rest, h, k := multiset{n.work[0]}, multiset(n.work[1..]), Held(n.workers), Held(n.workers[i := w]);
    var r, y := multiset(ItemsOf(n.results)), WorkerItem(w);
    assert k == h + y;
    assert ((rest + k) + r) + x == (((x + rest) + h) + r) + y;
  }

  lemma DeliveredNet(n: Net, i: nat)
    requires i < |n.workers| && n.workers[i].Delivering?
    ensures NetItems(Net(n.work, n.results + [n.workers[i].result], n.workers[i := Idle])) == NetItems(n)
  {
    var r := n.workers[i].result;
    HeldUpdate(n.workers, i, Idle);
    assert ItemsOf(n.results + [r]) == ItemsOf(n.results) + [r.item];
    var h, k, q, x := Held(n.workers), Held(n.workers[i := Idle]), multiset(ItemsOf(n.results)), multiset{r.item};
    assert k + x == h;
    assert multiset(ItemsOf(n.results) + [r.item]) == q + x;
    Pull(multiset(n.work), k, q, x);
  }

  lemma Pull<T>(w: multiset<T>, k: multiset<T>, q: multiset<T>, x: multiset<T>)
    ensures (w + k) + (q + x) == (w + (k + x)) + q
  {
  }

  /** A worker with the same item in hand, or none before and after. */
  lemma SameItemNet(n: Net, i: nat, w: Worker)
    requires i < |n.workers| && WorkerItem(n.workers[i]) == WorkerItem(w)
    ensures NetItems(Net(n.work, n.results, n.workers[i := w])) == NetItems(n)
  {
    HeldUpdate(n.workers, i, w);
    Cancel(Held(n.workers[i := w]), Held(n.workers), WorkerItem(w));
  }

  lemma Cancel<T>(a: multiset<T>, b: multiset<T>, x: multiset<T>)
    requires a + x == b + x
    ensures a == b
  {
    forall e ensures a[e] == b[e] {
      assert (a + x)[e] == (b + x)[e];
    }
  }

  lemma BalancedMove(b: Books, before: multiset<Item>, after: multiset<Item>, gone: multiset<Item>)
    requires Balanced(b, before) && after + gone == before
    ensures Balanced(b.(dropped := b.dropped + gone), after)
  {
    assert (multiset(b.handled) + after) + (b.dropped + gone) == (multiset(b.handled) + (after + gone)) + b.dropped;
  }

  lemma TakenInv(c: Config, s: State, i: nat)
    requires Inv(c, s) && i < |s.net.workers| && s.net.workers[i].Idle? && s.net.work != []
    ensures Inv(c, Taken(s, i))
  {
    var t := Taken(s, i);
    TakenBalanced(s, i);
    BusyInv(c, s, t, i, t.net.workers[i]);
  }

  lemma TakenBalanced(s: State, i: nat)
    requires Balanced(s.books, InFlight(s)) && i < |s.net.workers| && s.net.workers[i].Idle? && s.net.work != []
    ensures Balanced(Taken(s, i).books, InFlight(Taken(s, i)))
  {
    var item, k := s.net.work[0], CoordinatorItems(s.coordinator);
    var t := Taken(s, i);
    TakenNet(s.net, i, if s.expired then Exited else Executing(item));
    if s.expired {
      assert (k + NetItems(t.net)) + multiset{item} == k + (NetItems(t.net) + multiset{item});
      BalancedMove(s.books, InFlight(s), InFlight(t), multiset{item});
    } else {
      Cancel(NetItems(t.net), NetItems(s.net), multiset{item});
    }
  }

  lemma DeliveredInv(c: Config, s: State, i: nat)
    requires Inv(c, s) && i < |s.net.workers| && s.net.workers[i].Delivering? && |s.net.results| < CAPACITY
    ensures Inv(c, Delivered(s, i))
  {
    DeliveredNet(s.net, i);
    BusyInv(c, s, Delivered(s, i), i, Idle);
  }

  lemma SameItemInv(c: Config, s: State, i: nat, w: Worker)
    requires Inv(c, s) && i < |s.net.workers| && !s.net.workers[i].Exited?
    requires WorkerItem(s.net.workers[i]) == WorkerItem(w)
    requires w.Exited? ==> WorkClosed(s.coordinator) && s.net.work == []
    ensures Inv(c, Busy(s, i, w))
  {
    SameItemNet(s.net, i, w);
    BusyInv(c, s, Busy(s, i, w), i, w);
  }

  lemma AbandonInv(c: Config, s: State)
    requires Inv(c, s) && s.coordinator.Sending? && s.expired
    ensures Inv(c, Dropping(s, s.coordinator.item).(coordinator := Returned(Aborted)))
  {
    var n, x := NetItems(s.net), multiset{s.coordinator.item};
    assert (multiset{} + n) + x == x + n;
    BalancedMove(s.books, InFlight(s), multiset{} + n, x);
  }

  /** Steps of the coordinator that move no item. */
  lemma ControlInv(c: Config, s: State, t: State)
    requires Inv(c, s) && t == s.(coordinator := t.coordinator, instance := t.instance)
    requires !s.coordinator.Feeding? && !s.coordinator.Sending?
    requires t.coordinator.Returned? || (t.coordinator.Closing? && !LeavesOpen(t.coordinator.outcome))
    requires t.coordinator in {Closing(Finalized), Returned(Finalized)} ==> s.books.pending == 0
    requires ResultClosed(t.coordinator) ==> AllExited(s.net.workers)
    requires WorkClosed(s.coordinator) ==> WorkClosed(t.coordinator)
    requires Disciplined(t.instance)
    ensures Inv(c, t)
  {
    assert CoordinatorItems(t.coordinator) == CoordinatorItems(s.coordinator);
  }

  lemma ExpireInv(c: Config, s: State)
    requires Inv(c, s)
    ensures Inv(c, s.(expired := true))
  {
  }

  lemma JoinedInv(c: Config, s: State)
    requires Inv(c, s) && s.coordinator.Closing? && AllExited(s.net.workers)
    ensures Inv(c, Joined(s))
  {
    MovedDiscipline(s.instance, Failed);
    ControlInv(c, s, Joined(s));
  }

  lemma ExpirySeenInv(c: Config, s: State, deadline: bool)
    requires Inv(c, s) && Ready(s, SeeExpiry(deadline))
    ensures Inv(c, Apply(c, s, SeeExpiry(deadline)))
  {
    ControlInv(c, s, Apply(c, s, SeeExpiry(deadline)));
  }

  lemma ErrorSeenInv(c: Config, s: State)
    requires Inv(c, s) && Ready(s, SeeError)
    ensures Inv(c, Apply(c, s, SeeError))
  {
    ControlInv(c, s, Apply(c, s, SeeError));
  }

  predicate WorkerStep(e: Event) { e.Take? || e.Execute? || e.Put? || e.Leave? }

  lemma ResultIsOfItem(c: Config, s: State, w: nat, r: Result)
    requires Enabled(c, s, Execute(w, r))
    ensures r.item == s.net.workers[w].item
  {
  }

  lemma ExecuteInv(c: Config, s: State, w: nat, r: Result)
    requires Inv(c, s) && Ready(s, Execute(w, r)) && r.item == s.net.workers[w].item
    ensures Inv(c, Apply(c, s, Execute(w, r)))
  {
    SameItemInv(c, s, w, Delivering(r));
  }

  lemma LeaveInv(c: Config, s: State, w: nat)
    requires Inv(c, s) && Ready(s, Leave(w))
    ensures Inv(c, Apply(c, s, Leave(w)))
  {
    SameItemInv(c, s, w, Exited);
  }

  lemma WorkerStepInv(c: Config, s: State, e: Event)
    requires Inv(c, s) && Enabled(c, s, e) && WorkerStep(e)
    ensures Inv(c, Apply(c, s, e))
  {
    match e {
      case Take(w) => TakenInv(c, s, w);
      case Execute(w, r) =>
        ResultIsOfItem(c, s, w, r);
        ExecuteInv(c, s, w, r);
      case Put(w) => DeliveredInv(c, s, w);
      case Leave(w) => LeaveInv(c, s, w);
    }
  }

  /** Every step keeps the invariant. */
  lemma StepInv(c: Config, s: State, e: Event)
    requires Inv(c, s) && Enabled(c, s, e)
    ensures Inv(c, Apply(c, s, e))
  {
    if WorkerStep(e) {
      WorkerStepInv(c, s, e);
    } else {
      match e {
        case Feed => FedInv(c, s);
        case Receive(late, pick) => ReceivedInv(c, s, late, pick);
        case Record => RecordedInv(c, s);
        case Send => SentInv(c, s);
        case Abandon => AbandonInv(c, s);
        case SeeExpiry(deadline) => ExpirySeenInv(c, s, deadline);
        case SeeError => ErrorSeenInv(c, s);
        case AwaitWorkers => JoinedInv(c, s);
        case Expire => ExpireInv(c, s);
      }
    }
  }

  lemma {:induction false} PathInv(c: Config, s: State, es: seq<Event>, t: State)
    requires Inv(c, s) && Path(c, s, es, t)
    ensures Inv(c, t)
    decreases |es|
  {
    if es != [] {
      StepInv(c, s, es[0]);
      PathInv(c, Apply(c, s, es[0]), es[1..], t);
    }
  }

  /** A run that has ended otherwise does not come back. */
  lemma {:induction false} DisturbedStays(c: Config, s: State, es: seq<Event>, t: State)
    requires Path(c, s, es, t) && Undisturbed(t.coordinator)
    ensures Undisturbed(s.coordinator)
    decreases |es|
  {
    if es != [] {
      DisturbedStays(c, Apply(c, s, es[0]), es[1..], t);
    }
  }
}

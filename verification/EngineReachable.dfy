/** Continue can begin a run wide enough to reach the limits: a deadlock, and a trip of the loop guard
    that cannot shut down. */
module EngineReachable {
  import opened Bpmn
  import opened Routing
  import opened Records
  import opened Lifecycle
  import opened FailSafe
  import opened ErrorCatching
  import opened Engine
  import opened EngineSafety
  import opened EngineProgress
  import opened EngineLimits
  import opened EngineFeeding
  import opened EngineShutdown
  import opened EngineHistory

  function Name(i: nat): (name: Id)
    ensures name != "" && name[0] == 'f'
  {
    if i == 0 then "f" else Name(i - 1) + "x"
  }

  function Names(n: nat): (names: seq<Id>)
    ensures |names| == n && forall i | 0 <= i < n :: names[i] == Name(i)
  {
    seq(n, i requires 0 <= i < n => Name(i))
  }

  function NameSet(n: nat): set<Id> { set i | 0 <= i < n :: Name(i) }

  /** A fork that leads back to itself. */
  function Spinner(n: nat): Element { Element(ParallelGateway, Names(n) + ["loop"], ["loop"], direction := Diverging) }

  /** One task that leads to the fork along `n` flows. */
  function Fan(n: nat): Process {
    Process("a", map["a" := Element(UserTask, [], Names(n)), "b" := Spinner(n)],
            (map f | f in NameSet(n) :: Flow("a", "b"))["loop" := Flow("b", "b")])
  }

  lemma FanStep(n: nat, i: nat)
    requires i < n
    ensures Selected(Fan(n), [], Name(i)) && StepAlong(Fan(n), Name(i)) == NextFlow(Name(i), "b", ParallelGateway)
  {
  }

  lemma SpinStep(n: nat)
    ensures NextFlows(Fan(n), Route, "b", []) == [NextFlow("loop", "b", ParallelGateway)]
  {
    assert ["loop"][..0] == [];
    assert Along(Fan(n), [], []) == [];
  }

  lemma {:induction false} FanRoutes(n: nat, k: nat)
    requires k <= n
    ensures var next := Along(Fan(n), Names(n)[..k], []);
            |next| == k && forall i | 0 <= i < k :: next[i] == NextFlow(Name(i), "b", ParallelGateway)
  {
    if k > 0 {
      FanRoutes(n, k - 1);
      FanStep(n, k - 1);
      assert Names(n)[..k][..k - 1] == Names(n)[..k - 1];
    }
  }

  /** The store when task "a" has been executed once. */
  function FanStore(n: nat): seq<FlowRecord> { [FlowRecord("a", None, Initial, Fan(n))] }

  function FanRecords(n: nat): seq<FlowRecord> { ContinueRecords(Fan(n), FanStore(n), 0) }

  /** The run Continue begins after that. */
  function FanStart(c: Config, n: nat): State {
    var items := ItemsFrom(1, FanRecords(n));
    State(Fan(n), Case(Life(InProgress, false, false), [], 0), Feeding(items),
          Net([], [], seq(c.workers, _ => Idle)), Books(|items|, items, [], multiset{}),
          EmptyTally, FanStore(n) + FanRecords(n), false)
  }

  lemma FanBegins(c: Config, n: nat)
    requires c.workers >= 1 && n >= 1
    ensures Begins(c, FanStore(n), FanStart(c, n))
    ensures var items := FanStart(c, n).books.issued;
            |items| == n && forall i | 0 <= i < n :: items[i] == Item(1 + i, "b")
  {
    var start, records := FanStart(c, n), FanRecords(n);
    FanRoutes(n, n);
    assert Names(n)[..n] == Names(n);
    assert |records| == n && forall i | 0 <= i < n :: records[i].element == "b";
    assert start.store[|FanStore(n)|..] == records;
    assert Genuine(start.store, start.books.issued);
  }

  /** Continue can begin a run with any number of items. */
  lemma ContinueBegins(c: Config, n: nat) returns (start: State)
    requires c.workers >= 1 && n >= 1
    ensures Begins(c, FanStore(n), start) && |start.books.issued| == n
  {
    FanBegins(c, n);
    start := FanStart(c, n);
  }

  /** From a run that Continue begins, a deadlock can be reached that nothing ever resolves. */
  lemma ContinueCanDeadlock(c: Config) returns (start: State, es: seq<Event>, t: State)
    requires c.workers >= 1
    ensures Begins(c, FanStore(2 * CAPACITY + c.workers + 1), start) && Path(c, start, es, t)
    ensures Stuck(c, t) && Stuck(c, t.(expired := true))
  {
    start := ContinueBegins(c, 2 * CAPACITY + c.workers + 1);
    es, t := BegunDeadlock(c, FanStore(2 * CAPACITY + c.workers + 1), start);
  }

  lemma BegunDeadlock(c: Config, store: seq<FlowRecord>, start: State) returns (es: seq<Event>, t: State)
    requires Begins(c, store, start) && |start.books.issued| > 2 * CAPACITY + c.workers
    ensures Path(c, start, es, t) && Stuck(c, t) && Stuck(c, t.(expired := true))
  {
    es, t := DeadlockIsReachable(c, start);
  }

  /** After the deadline half the items will do. */
  lemma ContinueCanStrand(c: Config) returns (start: State, es: seq<Event>, t: State)
    requires c.workers >= 1
    ensures Begins(c, FanStore(CAPACITY + c.workers + 1), start) && Path(c, start, es, t)
    ensures t.coordinator.Feeding? && t.expired && StuckForGood(c, t)
  {
    start := ContinueBegins(c, CAPACITY + c.workers + 1);
    es, t := BegunStranded(c, FanStore(CAPACITY + c.workers + 1), start);
  }

  lemma BegunStranded(c: Config, store: seq<FlowRecord>, start: State) returns (es: seq<Event>, t: State)
    requires Begins(c, store, start) && |start.books.issued| > CAPACITY + c.workers
    ensures Path(c, start, es, t) && t.coordinator.Feeding? && t.expired && StuckForGood(c, t)
  {
    es, t := ExpiredDeadlock(c, start);
  }

  /** The first 1024 items have been executed; then more of the rest is queued. */
  lemma {:induction false} FillBehind(c: Config, start: State, m: nat) returns (es: seq<Event>, t: State)
    requires Starting(c, start) && m <= CAPACITY && CAPACITY + m < |start.books.issued|
    ensures Path(c, start, es, t) && Feeds(c, start, t, CAPACITY + m, 0)
    ensures |t.net.work| == m && forall i | 0 <= i < m :: t.net.work[i] == start.books.issued[CAPACITY + i]
    ensures |t.net.results| == CAPACITY
    ensures forall i | 0 <= i < CAPACITY ::
              t.net.results[i] == SomeResult(start.process, start.store, start.books.issued[i])
  {
    if m == 0 {
      es, t := FillResults(c, start, CAPACITY);
    } else {
      var es0, t0 := FillBehind(c, start, m - 1);
      PathStep(c, start, es0, t0, Feed);
      es, t := es0 + [Feed], Fed(t0);
    }
  }

  /** A result of the fork. */
  predicate Spins(r: Result) { r == Result(Route, r.item, [], "") && r.item.element == "b" }

  /** `n` tokens turn round at the fork: `done` results wait, `todo` items are queued. */
  predicate Turning(n: nat, s: State, done: nat, todo: nat) {
    && s.process == Fan(n) && !s.expired && s.books.pending == n
    && |s.net.results| == done && (forall r | r in s.net.results :: Spins(r))
    && |s.net.work| == todo && (forall x | x in s.net.work :: x.element == "b")
    && s.net.workers != [] && (forall w | w in s.net.workers :: w.Idle?)
  }

  /** Everything is sent, and `k` results of the fork have been handled. */
  predicate Spinning(n: nat, s: State, k: nat) {
    && CAPACITY < n && Turning(n, s, CAPACITY, n - CAPACITY)
    && s.coordinator == Selecting && CountOf(s.tally, "b") == k
  }

  lemma SpinnerResult(n: nat, store: seq<FlowRecord>, item: Item)
    requires item.element == "b"
    ensures SomeResult(Fan(n), store, item) == Result(Route, item, [], "")
    ensures Plausible(Fan(n), store, item, Result(Route, item, [], ""))
  {
  }

  lemma FedFan(c: Config, n: nat) returns (es: seq<Event>, t: State)
    requires c.workers >= 1 && CAPACITY < n <= 2 * CAPACITY
    ensures Path(c, FanStart(c, n), es, t) && Spinning(n, t, 0)
  {
    FanBegins(c, n);
    var start := FanStart(c, n);
    var es0, t0 := FillBehind(c, start, n - CAPACITY - 1);
    forall i: nat | i < CAPACITY ensures Spins(t0.net.results[i]) {
      SpinnerResult(n, start.store, start.books.issued[i]);
    }
    PathStep(c, start, es0, t0, Feed);
    es, t := es0 + [Feed], Fed(t0);
    AllFed(c, n, t0);
  }

  lemma AllFed(c: Config, n: nat, s: State)
    requires c.workers >= 1 && CAPACITY < n <= 2 * CAPACITY && Feeds(c, FanStart(c, n), s, n - 1, 0)
    requires forall i | 0 <= i < |FanStart(c, n).books.issued| :: FanStart(c, n).books.issued[i].element == "b"
    requires |FanStart(c, n).books.issued| == n
    requires |s.net.work| == n - CAPACITY - 1
    requires forall i | 0 <= i < |s.net.work| :: s.net.work[i] == FanStart(c, n).books.issued[CAPACITY + i]
    requires |s.net.results| == CAPACITY && forall i | 0 <= i < CAPACITY :: Spins(s.net.results[i])
    ensures Spinning(n, Fed(s), 0)
  {
    assert FanStart(c, n).books.issued[n - 1..] == [FanStart(c, n).books.issued[n - 1]];
  }

  const NoPick := Pick(None, [], None)

  /** The coordinator handles one result: the fork's token is queued once more. */
  lemma SpinBack(c: Config, start: State, n: nat, es: seq<Event>, s: State, k: nat) returns (es': seq<Event>, t: State)
    requires Path(c, start, es, s) && Spinning(n, s, k) && k < c.maxLoops && n < 2 * CAPACITY
    ensures Path(c, start, es', t) && Turning(n, t, CAPACITY - 1, n - CAPACITY + 1)
    ensures t.coordinator == Selecting && CountOf(t.tally, "b") == k + 1
  {
    SpinHandled(c, n, s, k);
    var a := Received(c, s, false, NoPick);
    PathStep(c, start, es, s, Receive(false, NoPick));
    PathStep(c, start, es + [Receive(false, NoPick)], a, Record);
    PathStep(c, start, es + [Receive(false, NoPick)] + [Record], Recorded(a), Send);
    es', t := es + [Receive(false, NoPick)] + [Record] + [Send], Sent(Recorded(a));
    SpinQueued(n, a);
  }

  lemma SpinHandled(c: Config, n: nat, s: State, k: nat)
    requires Spinning(n, s, k) && k < c.maxLoops
    ensures Enabled(c, s, Receive(false, NoPick))
    ensures var t := Received(c, s, false, NoPick);
            && t.coordinator == Recording(s.net.results[0].item, [Hop("b", Routed("loop"))])
            && t.process == s.process && t.net == s.net.(results := s.net.results[1..]) && !t.expired
            && t.books.pending == n - 1 && CountOf(t.tally, "b") == k + 1
  {
    assert Spins(s.net.results[0]);
    SpinStep(n);
    assert RoutedHops([NextFlow("loop", "b", ParallelGateway)]) == [Hop("b", Routed("loop"))];
  }

  lemma SpinQueued(n: nat, a: State)
    requires a.coordinator.Recording? && a.coordinator.todo == [Hop("b", Routed("loop"))] && n >= 1
    requires a.books.pending == n - 1 && Turning(n, a.(books := a.books.(pending := n)), |a.net.results|, |a.net.work|)
    ensures var t := Sent(Recorded(a));
            Turning(n, t, |a.net.results|, |a.net.work| + 1) && t.coordinator == Selecting && t.tally == a.tally
  {
  }

  /** Worker 0 executes the fork again. */
  lemma SpinOn(c: Config, start: State, n: nat, es: seq<Event>, s: State, k: nat) returns (es': seq<Event>, t: State)
    requires Path(c, start, es, s) && CAPACITY < n && Turning(n, s, CAPACITY - 1, n - CAPACITY + 1)
    requires s.coordinator == Selecting && CountOf(s.tally, "b") == k
    ensures Path(c, start, es', t) && Spinning(n, t, k)
  {
    var r := Result(Route, s.net.work[0], [], "");
    var a := Taken(s, 0);
    assert s.net.work[0].element == "b";
    SpinnerResult(n, s.store, s.net.work[0]);
    PathStep(c, start, es, s, Take(0));
    var b := Busy(a, 0, Delivering(r));
    PathStep(c, start, es + [Take(0)], a, Execute(0, r));
    PathStep(c, start, es + [Take(0)] + [Execute(0, r)], b, Put(0));
    es', t := es + [Take(0)] + [Execute(0, r)] + [Put(0)], Delivered(b, 0);
  }

  lemma {:induction false} Spin(c: Config, n: nat, k: nat) returns (es: seq<Event>, t: State)
    requires c.workers >= 1 && CAPACITY < n < 2 * CAPACITY && k <= c.maxLoops
    ensures Path(c, FanStart(c, n), es, t) && Spinning(n, t, k)
  {
    if k == 0 {
      es, t := FedFan(c, n);
    } else {
      var es0, t0 := Spin(c, n, k - 1);
      var es1, t1 := SpinBack(c, FanStart(c, n), n, es0, t0, k - 1);
      es, t := SpinOn(c, FanStart(c, n), n, es1, t1, k);
    }
  }

  lemma SpinTrips(c: Config, n: nat, s: State)
    requires Spinning(n, s, c.maxLoops)
    ensures Enabled(c, s, Receive(false, NoPick))
    ensures var t := Received(c, s, false, NoPick);
            t.coordinator == Closing(Tripped(LoopLimit("b", c.maxLoops + 1))) && t.books.pending == n - 1 && !t.expired
  {
    assert Spins(s.net.results[0]);
  }

  lemma CanTripHeavy(c: Config, n: nat) returns (es: seq<Event>, t: State)
    requires c.workers >= 1 && CAPACITY < n < 2 * CAPACITY
    ensures Path(c, FanStart(c, n), es, t)
    ensures t.coordinator == Closing(Tripped(LoopLimit("b", c.maxLoops + 1))) && t.books.pending == n - 1 && !t.expired
  {
    var es0, t0 := Spin(c, n, c.maxLoops);
    SpinTrips(c, n, t0);
    PathStep(c, FanStart(c, n), es0, t0, Receive(false, NoPick));
    es, t := es0 + [Receive(false, NoPick)], Received(c, t0, false, NoPick);
  }

  lemma HangsAfter(c: Config, start: State, es: seq<Event>, s: State)
    requires Starting(c, start) && Path(c, start, es, s)
    requires s.coordinator.Closing? && s.books.pending > CAPACITY && !s.expired
    ensures forall later, u | Path(c, s, later, u) && Unexpired(later) :: u.coordinator == s.coordinator
  {
    StartingInv(c, start);
    PathInv(c, start, es, s);
    forall later, u | Path(c, s, later, u) && Unexpired(later) ensures u.coordinator == s.coordinator {
      ShutdownHangs(c, s, later, u);
    }
  }

  /** Whatever the loop limit, a run that Continue begins with 1026 items can trip the guard with more
      than 1024 in flight: then nothing before the deadline ends it. */
  lemma ContinueCanHang(c: Config) returns (start: State, es: seq<Event>, t: State)
    requires c.workers >= 1
    ensures Begins(c, FanStore(CAPACITY + 2), start) && Path(c, start, es, t)
    ensures t.coordinator.Closing? && t.coordinator.outcome.Tripped? && t.books.pending > CAPACITY && !t.expired
    ensures forall later, u | Path(c, t, later, u) && Unexpired(later) :: u.coordinator == t.coordinator
  {
    FanBegins(c, CAPACITY + 2);
    start := FanStart(c, CAPACITY + 2);
    es, t := CanTripHeavy(c, CAPACITY + 2);
    HangsAfter(c, start, es, t);
  }

  /** And with one item more than the result channel holds, whatever the loop limit, the deadline can
      find the loop in a state from which its shutdown never returns. */
  lemma ContinueCanHangForever(c: Config) returns (start: State, es: seq<Event>, t: State)
    requires c.workers >= 1
    ensures Begins(c, FanStore(CAPACITY + 1), start) && Path(c, start, es, t)
    ensures t.coordinator == Closing(Expired(true)) && t.expired
    ensures forall later, u | Path(c, t, later, u) :: u.coordinator == t.coordinator
  {
    FanBegins(c, CAPACITY + 1);
    start := FanStart(c, CAPACITY + 1);
    var es0, t0 := FedFan(c, CAPACITY + 1);
    assert t0.net.workers[0] in t0.net.workers;
    es, t := ExpireWhileDelivering(c, start, es0, t0);
    StartingInv(c, start);
    PathInv(c, start, es, t);
    forall later, u | Path(c, t, later, u) ensures u.coordinator == t.coordinator {
      HeavyHangs(c, t, later, u);
    }
  }

  lemma ExpireWhileDelivering(c: Config, start: State, es: seq<Event>, s: State) returns (es': seq<Event>, t: State)
    requires Path(c, start, es, s) && s.coordinator.Selecting? && !s.expired && |s.net.results| == CAPACITY
    requires |s.net.work| == 1 && s.net.workers != [] && s.net.workers[0].Idle?
    ensures Path(c, start, es', t) && t.coordinator == Closing(Expired(true)) && t.expired && Load(t.net) > CAPACITY
  {
    var a := Taken(s, 0);
    PathStep(c, start, es, s, Take(0));
    var r := SomeResult(a.process, a.store, a.net.workers[0].item);
    var b := Busy(a, 0, Delivering(r));
    PathStep(c, start, es + [Take(0)], a, Execute(0, r));
    PathStep(c, start, es + [Take(0)] + [Execute(0, r)], b, Expire);
    var d := b.(expired := true);
    PathStep(c, start, es + [Take(0)] + [Execute(0, r)] + [Expire], d, SeeExpiry(true));
    es' := es + [Take(0)] + [Execute(0, r)] + [Expire] + [SeeExpiry(true)];
    t := d.(coordinator := Closing(Expired(true)));
    HeldIncludes(t.net.workers, 0);
    assert r.item in Held(t.net.workers);
  }
}

/** The run loop: one coordinator, a fixed number of workers, two bounded channels.
    Every atomic step of the program is an event; `Apply` says what it does. */
module Engine {
  import opened Bpmn
  import opened Routing
  import opened Records
  import opened Lifecycle
  import opened FailSafe
  import opened ErrorCatching
  import opened Prefixing
  import opened CallActivities
  import opened Strings
  import ParallelJoin

  const CAPACITY: nat := 1024

  /** What does not change during a run. `library` holds the processes a call can load. */
  datatype Config = Config(workers: nat, maxLoops: nat, library: map<Id, Process>)

  datatype Item = Item(record: nat, element: Id)

  datatype Result = Result(action: Action, item: Item, filters: seq<Id>, called: Id)

  /** A record still to be written and enqueued by the handler at work. */
  datatype Hop = Hop(element: Id, via: Via)

  datatype Worker = Idle | Executing(item: Item) | Delivering(result: Result) | Exited

  datatype Outcome = Finalized | Tripped(verdict: Verdict) | Expired(deadline: bool) | Reported | Aborted

  /** `Closing` waits for the workers after close(workCh); `Returned` is the end of the loop. */
  datatype Coordinator =
    | Feeding(rest: seq<Item>)
    | Selecting
    | Recording(current: Item, todo: seq<Hop>)
    | Sending(item: Item, current: Item, todo: seq<Hop>)
    | Closing(outcome: Outcome)
    | Returned(outcome: Outcome)

  /** The two channels and the workers between them. */
  datatype Net = Net(work: seq<Item>, results: seq<Result>, workers: seq<Worker>)

  /** The pending counter, and for the record: every item ever issued, those whose result was
      received, and those thrown away after the deadline. */
  datatype Books = Books(pending: int, issued: seq<Item>, handled: seq<Item>, dropped: multiset<Item>)

  /** The instance state, its successful transitions, and the errors waiting in errCh. */
  datatype Case = Case(life: Life, trail: seq<Status>, errors: nat)

  datatype State = State(
    process: Process,
    instance: Case,
    coordinator: Coordinator,
    net: Net,
    books: Books,
    tally: Tally,
    store: seq<FlowRecord>,
    expired: bool)

  /** Outcomes after which the channels were left open. */
  predicate LeavesOpen(o: Outcome) { o in {Reported, Aborted} }

  /** close(workCh) comes before waiting for the workers, close(resultCh) after it. */
  predicate WorkClosed(k: Coordinator) { k.Closing? || (k.Returned? && !LeavesOpen(k.outcome)) }

  predicate ResultClosed(k: Coordinator) { k.Returned? && !LeavesOpen(k.outcome) }

  predicate Running(k: Coordinator) { !k.Closing? && !k.Returned? }

  /** Everything has been handled. */
  predicate IsFinalized(k: Coordinator) { k in {Closing(Finalized), Returned(Finalized)} }

  predicate Undisturbed(k: Coordinator) { Running(k) || IsFinalized(k) }

  /** What the handler at work still has to enqueue. */
  function Todo(k: Coordinator): seq<Hop> {
    match k case Recording(_, todo) => todo case Sending(_, _, todo) => todo case _ => []
  }

  /** Choices the code leaves to map iteration order. */
  datatype Pick = Pick(catcher: Option<Id>, boundary: seq<Id>, end: Option<Id>)

  datatype Event =
    | Feed                               // coordinator: send one of the initial items
    | Receive(late: bool, pick: Pick)    // coordinator: take a result and handle it
    | Record                             // coordinator: write the next flow record
    | Send                               // coordinator: enqueue the record just written
    | Abandon                            // coordinator: enqueueFlow sees the expired context
    | SeeExpiry(deadline: bool)          // coordinator: the select takes the Done branch
    | SeeError                           // coordinator: the select takes the errCh branch
    | AwaitWorkers                       // coordinator: wg.Wait returns
    | Take(w: nat) | Execute(w: nat, result: Result) | Put(w: nat) | Leave(w: nat)
    | Expire                             // the clock or the caller

  /** What executing `item` may return. Elements other than those listed are an oracle. */
  predicate Plausible(p: Process, store: seq<FlowRecord>, item: Item, r: Result) {
    && r.item == item
    && if item.element !in p.elements then r.action == Error
       else
         var el := p.elements[item.element];
         match el.kind
         case ParallelGateway => r.action == ParallelJoin.Decision(p, item.element, store) && r.filters == []
         case StartEvent => r.action == Route && r.filters == []
         case SequenceFlow => r.action == Route && r.filters == []
         case SubProcess => r.action == Route && r.filters == [item.element + "_sp_entry"]
         case EndEvent =>
           if el.exitFlows != "" then r.action == Route && r.filters == Split(el.exitFlows)
           else r.action == Complete
         case ErrorEnd => r.action == ThrowError
         case TerminateEvent => r.action == Terminate
         case CallActivity =>
           if el.called == "" then r.action == Route && r.filters == []
           else r.action == Action.CallActivity && r.called == el.called
         case _ => true
  }

  function CodeOf(p: Process, id: Id): string { if id in p.elements then p.elements[id].errorCode else "" }

  predicate IsBoundary(p: Process, host: Id, b: Id) {
    b in p.elements && p.elements[b].attachedTo == host && p.elements[b].kind in {TimerEvent, MessageCatch}
  }

  /** scheduleBoundaryTimers: every attached message catch, and the timers that have a schedule. */
  ghost predicate BoundaryChoice(p: Process, host: Id, chosen: seq<Id>) {
    && (forall b | b in chosen :: IsBoundary(p, host, b))
    && (forall i, j | 0 <= i < j < |chosen| :: chosen[i] != chosen[j])
    && (forall b | IsBoundary(p, host, b) && p.elements[b].kind == MessageCatch :: b in chosen)
  }

  ghost predicate PickAllowed(c: Config, p: Process, r: Result, pick: Pick) {
    match r.action
    case Wait => BoundaryChoice(p, r.item.element, pick.boundary)
    case Form => BoundaryChoice(p, r.item.element, pick.boundary)
    case ThrowError => CaughtIn(p, Scopes(p, r.item.element), CodeOf(p, r.item.element), pick.catcher)
    case CallActivity => r.called in c.library ==> FirstEnd(c.library[r.called], pick.end)
    case _ => true
  }

  /** The event can happen as far as the coordinator, the channels and the workers go. */
  predicate Ready(s: State, e: Event) {
    match e
    case Feed => s.coordinator.Feeding? && s.coordinator.rest != [] && |s.net.work| < CAPACITY
    case Receive(_, _) => s.coordinator.Selecting? && s.net.results != []
    case Record => s.coordinator.Recording? && s.coordinator.todo != []
    case Send => s.coordinator.Sending? && |s.net.work| < CAPACITY
    case Abandon => s.coordinator.Sending? && s.expired
    case SeeExpiry(_) => s.coordinator.Selecting? && s.expired
    case SeeError => s.coordinator.Selecting? && s.instance.errors > 0
    case AwaitWorkers => s.coordinator.Closing? && forall w | w in s.net.workers :: w.Exited?
    case Take(w) => w < |s.net.workers| && s.net.workers[w].Idle? && s.net.work != []
    case Execute(w, r) => w < |s.net.workers| && s.net.workers[w].Executing?
    case Put(w) => w < |s.net.workers| && s.net.workers[w].Delivering? && |s.net.results| < CAPACITY
    case Leave(w) =>
      w < |s.net.workers| && s.net.workers[w].Idle? && s.net.work == [] && WorkClosed(s.coordinator)
    case Expire => !s.expired
  }

  /** The open choices of the event are ones the code can make. */
  ghost predicate Permitted(c: Config, s: State, e: Event)
    requires Ready(s, e)
  {
    match e
    case Receive(_, pick) => PickAllowed(c, s.process, s.net.results[0], pick)
    case Execute(w, r) => Plausible(s.process, s.store, s.net.workers[w].item, r)
    case _ => true
  }

  ghost predicate Enabled(c: Config, s: State, e: Event) { Ready(s, e) && Permitted(c, s, e) }

  /** instance.Transition: without effect when not allowed. */
  function Moved(k: Case, next: Status): Case {
    if next in Allowed(k.life.status) then k.(life := Attempt(k.life, next), trail := k.trail + [next]) else k
  }

  function TryCompleted(k: Case): Case {
    if Finish(k.life).status != k.life.status then k.(life := Finish(k.life), trail := k.trail + [Completed])
    else k.(life := Finish(k.life))
  }

  /** Where the coordinator goes after a handler with `todo` left to enqueue: an iteration that
      ends with nothing pending ends the loop. */
  function Onward(pending: int, current: Item, todo: seq<Hop>): Coordinator {
    if todo != [] then Recording(current, todo)
    else if pending == 0 then Closing(Finalized)
    else Selecting
  }

  function RoutedHops(next: seq<NextFlow>): (hops: seq<Hop>)
    ensures |hops| == |next| && forall i | 0 <= i < |next| :: hops[i] == Hop(next[i].element, Routed(next[i].flow))
  {
    seq(|next|, i requires 0 <= i < |next| => Hop(next[i].element, Routed(next[i].flow)))
  }

  function BoundaryRecords(p: Process, host: Item, chosen: seq<Id>): (records: seq<FlowRecord>)
    ensures |records| == |chosen|
    ensures forall i | 0 <= i < |chosen| :: records[i] == FlowRecord(chosen[i], Some(host.record), Boundary, p)
  {
    seq(|chosen|, i requires 0 <= i < |chosen| => FlowRecord(chosen[i], Some(host.record), Boundary, p))
  }

  /** What handling one result asks for: a state change, records written at once, records to write
      and enqueue one after the other, and how the handler comes back. */
  datatype Change = Stay | To(status: Status) | Finishing
  datatype Exit = Continue | Fail | Report
  datatype Reply = Reply(
    process: Process,
    change: Change := Stay,
    records: seq<FlowRecord> := [],
    hops: seq<Hop> := [],
    uncaught: bool := false,
    exit: Exit := Continue)

  /** handleResult: its decision on a result. */
  function Respond(c: Config, p: Process, status: Status, r: Result, pick: Pick): Reply {
    var id := r.item.element;
    match r.action
    case Route =>
      var next := NextFlows(p, Route, id, r.filters);
      Reply(p, hops := RoutedHops(next), change := if next == [] && IsEndEvent(p, id) then Finishing else Stay)
    case Queue => Reply(p, hops := RoutedHops(NextFlows(p, Queue, id, r.filters)))
    case Complete => Reply(p, change := if IsEndEvent(p, id) then Finishing else Stay)
    case Skip => Reply(p)
    case Wait => RespondWait(p, status, r, pick)
    case Form => RespondWait(p, status, r, pick)
    case Error =>
      if Failed in Allowed(status) then Reply(p, change := To(Failed), exit := Report) else Reply(p, exit := Fail)
    case ThrowError => RespondThrow(p, status, r, pick)
    case Terminate =>
      Reply(p, change := if Terminated in Allowed(status) then To(Terminated) else Stay, exit := Fail)
    case CallActivity => RespondCall(c, p, r, pick)
  }

  function RespondWait(p: Process, status: Status, r: Result, pick: Pick): Reply {
    if Waiting !in Allowed(status) then Reply(p, exit := Fail)
    else Reply(p, change := To(Waiting), records := BoundaryRecords(p, r.item, pick.boundary))
  }

  function RespondThrow(p: Process, status: Status, r: Result, pick: Pick): Reply {
    if r.item.element !in p.elements then Reply(p, exit := Fail)
    else if pick.catcher.Some? then Reply(p, hops := [Hop(pick.catcher.value, Caught)])
    else if Failed in Allowed(status) then Reply(p, change := To(Failed), uncaught := true)
    else Reply(p, exit := Fail)
  }

  /** Call activities give this action only with a called process; for any other executor that gives
      it without one, the router is asked and routes nothing. */
  function RespondCall(c: Config, p: Process, r: Result, pick: Pick): Reply {
    var id := r.item.element;
    if r.called == "" then Reply(p, hops := RoutedHops(NextFlows(p, Action.CallActivity, id, r.filters)))
    else if r.called !in c.library || c.library[r.called].start == "" then Reply(p, exit := Fail)
    else
      var called := c.library[r.called];
      Reply(Inlined(p, id, called, pick.end), hops := [Hop(CalledStart(id, called), Called)])
  }

  function Changed(k: Case, change: Change): Case {
    match change
    case Stay => k
    case To(status) => Moved(k, status)
    case Finishing => TryCompleted(k)
  }

  /** Carrying out a reply. An error put into errCh by a handler that reports is read back at once. */
  function Carried(s: State, current: Item, reply: Reply): State {
    var k := Changed(s.instance, reply.change);
    s.(process := reply.process,
       store := s.store + reply.records,
       instance := if reply.uncaught then k.(errors := k.errors + 1) else k,
       coordinator := match reply.exit
         case Continue => Onward(s.books.pending, current, reply.hops)
         case Fail => Returned(Aborted)
         case Report => Returned(Reported))
  }

  /** A result leaves the channel and is counted. */
  function Counting(s: State, late: bool): State
    requires s.net.results != []
  {
    var r := s.net.results[0];
    s.(net := s.net.(results := s.net.results[1..]),
       books := s.books.(pending := s.books.pending - 1, handled := s.books.handled + [r.item]),
       tally := if late then s.tally else Counted(s.tally, r.item.element))
  }

  /** The guard is consulted first; only a fine verdict lets the handler run. */
  function Received(c: Config, s: State, late: bool, pick: Pick): State
    requires s.net.results != []
  {
    var r := s.net.results[0];
    var verdict := Judge(s.tally, r.item.element, late, c.maxLoops);
    var u := Counting(s, late);
    if verdict != Fine then u.(instance := Moved(u.instance, Failed), coordinator := Closing(Tripped(verdict)))
    else Carried(u, r.item, Respond(c, s.process, s.instance.life.status, r, pick))
  }

  /** enqueueFlow, first half: the record is stored and counted as pending. */
  function Recorded(s: State): State
    requires s.coordinator.Recording? && s.coordinator.todo != []
  {
    var hop := s.coordinator.todo[0];
    var item := Item(|s.store|, hop.element);
    s.(store := s.store + [FlowRecord(hop.element, Some(s.coordinator.current.record), hop.via, s.process)],
       books := s.books.(pending := s.books.pending + 1, issued := s.books.issued + [item]),
       coordinator := Sending(item, s.coordinator.current, s.coordinator.todo[1..]))
  }

  /** enqueueFlow, second half. */
  function Sent(s: State): State
    requires s.coordinator.Sending?
  {
    s.(net := s.net.(work := s.net.work + [s.coordinator.item]),
       coordinator := Onward(s.books.pending, s.coordinator.current, s.coordinator.todo))
  }

  function Fed(s: State): State
    requires s.coordinator.Feeding? && s.coordinator.rest != []
  {
    var rest := s.coordinator.rest;
    s.(net := s.net.(work := s.net.work + [rest[0]]),
       coordinator := if |rest| == 1 then Selecting else Feeding(rest[1..]))
  }

  function Dropping(s: State, item: Item): State {
    s.(books := s.books.(dropped := s.books.dropped + multiset{item}))
  }

  function Busy(s: State, w: nat, worker: Worker): State
    requires w < |s.net.workers|
  {
    s.(net := s.net.(workers := s.net.workers[w := worker]))
  }

  /** A worker that takes an item after the deadline drops it and exits. */
  function Taken(s: State, w: nat): State
    requires w < |s.net.workers| && s.net.work != []
  {
    var item := s.net.work[0];
    var t := s.(net := s.net.(work := s.net.work[1..]));
    if s.expired then Dropping(Busy(t, w, Exited), item) else Busy(t, w, Executing(item))
  }

  function Delivered(s: State, w: nat): State
    requires w < |s.net.workers| && s.net.workers[w].Delivering?
  {
    Busy(s.(net := s.net.(results := s.net.results + [s.net.workers[w].result])), w, Idle)
  }

  function Joined(s: State): State
    requires s.coordinator.Closing?
  {
    s.(coordinator := Returned(s.coordinator.outcome),
       instance := if s.coordinator.outcome == Expired(true) then Moved(s.instance, Failed) else s.instance)
  }

  function Apply(c: Config, s: State, e: Event): State
    requires Ready(s, e)
  {
    match e
    case Feed => Fed(s)
    case Receive(late, pick) => Received(c, s, late, pick)
    case Record => Recorded(s)
    case Send => Sent(s)
    case Abandon => Dropping(s, s.coordinator.item).(coordinator := Returned(Aborted))
    case SeeExpiry(deadline) => s.(coordinator := Closing(Expired(deadline)))
    case SeeError => s.(instance := s.instance.(errors := s.instance.errors - 1), coordinator := Returned(Reported))
    case AwaitWorkers => Joined(s)
    case Take(w) => Taken(s, w)
    case Execute(w, r) => Busy(s, w, Delivering(r))
    case Put(w) => Delivered(s, w)
    case Leave(w) => Busy(s, w, Exited)
    case Expire => s.(expired := true)
  }

  /** The state in which runLoop begins: the initial records are written, nothing is sent yet. */
  ghost predicate Starting(c: Config, s: State) {
    && c.workers >= 1
    && s.books.issued != [] && Genuine(s.store, s.books.issued)
    && s.coordinator == Feeding(s.books.issued)
    && s.net == Net([], [], seq(c.workers, _ => Idle))
    && s.books == Books(|s.books.issued|, s.books.issued, [], multiset{})
    && s.instance == Case(Life(InProgress, false, false), [], 0)
    && s.tally == EmptyTally
    && !s.expired
  }

  /** Issued items name records in the order those were written. */
  ghost predicate Genuine(store: seq<FlowRecord>, items: seq<Item>) {
    && (forall i | 0 <= i < |items| ::
          items[i].record < |store| && store[items[i].record].element == items[i].element)
    && (forall i, j | 0 <= i < j < |items| :: items[i].record < items[j].record)
  }

  /** `es` takes the engine from `s` to `t`. */
  ghost predicate Path(c: Config, s: State, es: seq<Event>, t: State)
    decreases |es|
  {
    if es == [] then s == t
    else Enabled(c, s, es[0]) && Path(c, Apply(c, s, es[0]), es[1..], t)
  }

  lemma {:induction false} PathConcat(c: Config, s: State, a: seq<Event>, t: State, b: seq<Event>, u: State)
    requires Path(c, s, a, t) && Path(c, t, b, u)
    ensures Path(c, s, a + b, u)
    decreases |a|
  {
    if a == [] {
      assert a + b == b;
    } else {
      PathConcat(c, Apply(c, s, a[0]), a[1..], t, b, u);
      assert (a + b)[1..] == a[1..] + b;
    }
  }

  lemma {:induction false} PathSplit(c: Config, s: State, es: seq<Event>, t: State) returns (mid: State)
    requires Path(c, s, es, t) && es != []
    ensures Path(c, s, es[..|es| - 1], mid) && Enabled(c, mid, es[|es| - 1]) && t == Apply(c, mid, es[|es| - 1])
    decreases |es|
  {
    if |es| == 1 {
      mid := s;
      assert es[1..] == [];
    } else {
      mid := PathSplit(c, Apply(c, s, es[0]), es[1..], t);
      assert es[1..][..|es| - 2] == es[..|es| - 1][1..];
    }
  }
}

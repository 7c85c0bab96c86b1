/** When an instance becomes COMPLETED: with the first end event, whatever is still on its way. */
module EngineCompletion {
  import opened Bpmn
  import opened Routing
  import opened Records
  import opened Lifecycle
  import opened FailSafe
  import opened Engine
  import opened EngineSafety
  import opened EngineLimits
  import opened EngineHistory
  import opened EngineTwoTokens

  predicate IsCompleted(s: State) { s.instance.life.status == Completed }

  /** The result of an end event that has nowhere to go on to. */
  predicate EndsHere(p: Process, r: Result) {
    && IsEndEvent(p, r.item.element)
    && (r.action == Complete || (r.action == Route && NextFlows(p, Route, r.item.element, r.filters) == []))
  }

  lemma ReplyCompletes(c: Config, p: Process, status: Status, r: Result, pick: Pick)
    ensures var reply := Respond(c, p, status, r, pick);
            && (reply.change == Finishing <==> EndsHere(p, r))
            && (reply.change == Finishing ==> reply.exit == Continue && reply.hops == [] && !reply.uncaught)
  {
  }

  lemma CarriedCompletes(s: State, current: Item, reply: Reply)
    requires Disciplined(s.instance) && !IsCompleted(s)
    requires reply.change.To? ==> reply.change.status != Completed
    ensures IsCompleted(Carried(s, current, reply)) <==>
              reply.change == Finishing && s.instance.life.status == InProgress
  {
  }

  /** Handling a result completes the instance if and only if it is the result of an end event that goes
      nowhere on, in a run that is still in progress and within its limits. */
  lemma ReceiveCompletes(c: Config, s: State, late: bool, pick: Pick)
    requires Disciplined(s.instance) && s.net.results != [] && !IsCompleted(s)
    ensures var r := s.net.results[0];
            IsCompleted(Received(c, s, late, pick)) <==>
              && Judge(s.tally, r.item.element, late, c.maxLoops) == Fine
              && s.instance.life.status == InProgress && EndsHere(s.process, r)
  {
    var r := s.net.results[0];
    RespondChanges(c, s.process, s.instance.life.status, r, pick);
    ReplyCompletes(c, s.process, s.instance.life.status, r, pick);
    CarriedCompletes(Counting(s, late), r.item, Respond(c, s.process, s.instance.life.status, r, pick));
  }

  /** Nothing else completes it. */
  lemma OnlyReceiveCompletes(c: Config, s: State, e: Event)
    requires Ready(s, e) && !e.Receive? && !IsCompleted(s)
    ensures !IsCompleted(Apply(c, s, e))
  {
  }

  lemma CompletingNet(c: Config, s: State, late: bool, pick: Pick)
    requires s.net.results != [] && s.coordinator.Selecting?
    requires Judge(s.tally, s.net.results[0].item.element, late, c.maxLoops) == Fine
    requires EndsHere(s.process, s.net.results[0])
    ensures var t := Received(c, s, late, pick);
            && t.net == s.net.(results := s.net.results[1..]) && Todo(t.coordinator) == []
            && t.coordinator == if s.books.pending == 1 then Closing(Finalized) else Selecting
  {
    ReplyCompletes(c, s.process, s.instance.life.status, s.net.results[0], pick);
  }

  lemma OneFewer(s: State, t: State)
    requires s.net.results != [] && s.coordinator.Selecting? && t.net == s.net.(results := s.net.results[1..])
    requires t.coordinator in {Closing(Finalized), Selecting}
    ensures InFlight(s) == InFlight(t) + multiset{s.net.results[0].item}
  {
    PopFront(ItemsOf(s.net.results));
    assert ItemsOf(s.net.results)[1..] == ItemsOf(t.net.results);
  }

  /** The step that completes the instance, in any run: it leaves nothing in flight if and only if its
      result was the last thing in flight. Otherwise the instance is COMPLETED while that much goes on,
      and the loop does not end. */
  lemma CompletedWithTheRest(c: Config, start: State, es: seq<Event>, s: State, e: Event)
    requires Starting(c, start) && Path(c, start, es, s) && Enabled(c, s, e)
    requires !IsCompleted(s) && IsCompleted(Apply(c, s, e))
    ensures var t := Apply(c, s, e);
            && e.Receive? && EndsHere(s.process, s.net.results[0]) && Todo(t.coordinator) == []
            && InFlight(s) == InFlight(t) + multiset{s.net.results[0].item}
            && (InFlight(t) == multiset{} <==> |InFlight(s)| == 1)
            && (t.coordinator == Closing(Finalized) <==> |InFlight(s)| + |s.books.dropped| == 1)
            && (t.coordinator == Selecting <==> |InFlight(s)| + |s.books.dropped| != 1)
  {
    StartingInv(c, start);
    PathInv(c, start, es, s);
    StillPending(s);
    if !e.Receive? {
      OnlyReceiveCompletes(c, s, e);
    }
    ReceiveCompletes(c, s, e.late, e.pick);
    CompletingNet(c, s, e.late, e.pick);
    OneFewer(s, Apply(c, s, e));
  }

  /** The end event first, then the error end. */
  function EndFirst(): State { PartingStart("e", "x") }

  const Ending := Result(Complete, Item(1, "e"), [], "")

  lemma EndingReceived(s: State, pick: Pick)
    requires s == EndFirst().(coordinator := Selecting, net := Net([Item(2, "x")], [Ending], [Idle]))
    ensures Enabled(OneWorker, s, Receive(false, pick))
    ensures var t := Received(OneWorker, s, false, pick);
            IsCompleted(t) && t.coordinator == Selecting && t.net == Net([Item(2, "x")], [], [Idle])
  {
  }

  /** A run that Continue begins and that is COMPLETED with a token still waiting to be executed. */
  lemma CompletedTooEarly() returns (es: seq<Event>, t: State)
    ensures Begins(OneWorker, PartingStore("e", "x"), EndFirst()) && Path(OneWorker, EndFirst(), es, t)
    ensures IsCompleted(t) && t.coordinator == Selecting && InFlight(t) == multiset{Item(2, "x")}
  {
    var pick := Pick(None, [], None);
    PartingBegins("e", "x");
    var es0, s0 := PartingFed("e", "x");
    var es1, s1 := Handle(EndFirst(), es0, s0, Ending);
    EndingReceived(s1, pick);
    PathStep(OneWorker, EndFirst(), es1, s1, Receive(false, pick));
    es, t := es1 + [Receive(false, pick)], Received(OneWorker, s1, false, pick);
    HeldNothing(t.net.workers);
    assert ItemsOf(t.net.results) == [];
  }
}

/** What moves the instance from one state to another, and what ends the loop: exactly which results and
    steps do. */
module EngineCauses {
  import opened Bpmn
  import opened Routing
  import opened Records
  import opened Lifecycle
  import opened FailSafe
  import opened Engine
  import opened EngineSafety
  import opened EngineCompletion
  import opened EngineErrors
  import opened CallActivities

  /** The next result is within the time and loop limits. */
  predicate WithinLimits(c: Config, s: State, late: bool)
    requires s.net.results != []
  {
    !late && (s.net.results[0].item.element == ""
              || CountOf(s.tally, s.net.results[0].item.element) + 1 <= c.maxLoops)
  }

  lemma LimitsJudged(c: Config, s: State, late: bool)
    requires s.net.results != []
    ensures Judge(s.tally, s.net.results[0].item.element, late, c.maxLoops) == Fine <==> WithinLimits(c, s, late)
  {
  }

  predicate Live(s: State) { s.instance.life.status in {InProgress, Waiting} }

  lemma CarriedStatus(s: State, current: Item, reply: Reply)
    requires Disciplined(s.instance)
    requires reply.change.To? ==> reply.change.status in Allowed(s.instance.life.status)
    ensures Carried(s, current, reply).instance.life.status
            == match reply.change
               case Stay => s.instance.life.status
               case To(next) => next
               case Finishing => if s.instance.life.status == InProgress then Completed else s.instance.life.status
  {
  }

  /** An error result, or a throw by an element of the process that nothing catches. */
  predicate Raises(p: Process, r: Result, pick: Pick) {
    r.action == Error || (r.action == ThrowError && r.item.element in p.elements && pick.catcher == None)
  }

  lemma ReplyChange(c: Config, p: Process, status: Status, r: Result, pick: Pick)
    requires status in {InProgress, Waiting, Completed, Failed, Terminated}
    ensures var change, live := Respond(c, p, status, r, pick).change, status in {InProgress, Waiting};
            && (change == To(Failed) <==> Raises(p, r, pick) && live)
            && (change == To(Terminated) <==> r.action == Terminate && live)
            && (change == To(Waiting) <==> r.action in {Wait, Form} && status == InProgress)
            && (change == Finishing <==> EndsHere(p, r))
  {
  }

  /** The state after a result has been received. */
  lemma ReceivedStatus(c: Config, s: State, late: bool, pick: Pick)
    requires Disciplined(s.instance) && s.net.results != []
    ensures var r, before := s.net.results[0], s.instance.life.status;
            var after := Received(c, s, late, pick).instance.life.status;
            && (!WithinLimits(c, s, late) ==> after == if Live(s) then Failed else before)
            && (WithinLimits(c, s, late) ==>
                  after == if Raises(s.process, r, pick) then (if Live(s) then Failed else before)
                           else if r.action == Terminate then (if Live(s) then Terminated else before)
                           else if r.action in {Wait, Form} then (if before == InProgress then Waiting else before)
                           else if EndsHere(s.process, r) then (if before == InProgress then Completed else before)
                           else before)
  {
    LimitsJudged(c, s, late);
    var r := s.net.results[0];
    var reply := Respond(c, s.process, s.instance.life.status, r, pick);
    RespondChanges(c, s.process, s.instance.life.status, r, pick);
    ReplyChange(c, s.process, s.instance.life.status, r, pick);
    CarriedStatus(Counting(s, late), r.item, reply);
  }

  /** Besides that only the deadline changes the state: the run has failed when its workers have left. */
  lemma OtherStatus(c: Config, s: State, e: Event)
    requires Disciplined(s.instance) && Ready(s, e) && !e.Receive?
    ensures Apply(c, s, e).instance.life.status
            == if e == AwaitWorkers && s.coordinator == Closing(Expired(true)) && Live(s) then Failed
               else s.instance.life.status
  {
  }

  /** The handler cannot go on: the state does not allow what the result asks for, or something it needs is
      missing; and after a terminate event it never does. */
  predicate Aborts(c: Config, s: State, pick: Pick)
    requires s.net.results != []
  {
    var r := s.net.results[0];
    match r.action
    case Error => !Live(s)
    case Wait => s.instance.life.status != InProgress
    case Form => s.instance.life.status != InProgress
    case Terminate => true
    case ThrowError => r.item.element !in s.process.elements || (pick.catcher == None && !Live(s))
    case CallActivity => r.called != "" && (r.called !in c.library || c.library[r.called].start == "")
    case _ => false
  }

  /** Exactly which results end the loop, and how. */
  lemma ReceivedEnds(c: Config, s: State, late: bool, pick: Pick)
    requires Disciplined(s.instance) && s.net.results != []
    ensures var r, after := s.net.results[0], Received(c, s, late, pick).coordinator;
            && (after == Returned(Aborted) <==> WithinLimits(c, s, late) && Aborts(c, s, pick))
            && (after == Returned(Reported) <==> WithinLimits(c, s, late) && r.action == Error && Live(s))
            && (late <==> after == Closing(Tripped(TooLate)))
            && ((after.Closing? && after.outcome.Tripped?) <==> !WithinLimits(c, s, late))
            && (after.Closing? && after.outcome.Tripped? && !late ==>
                  after.outcome.verdict == LoopLimit(r.item.element, CountOf(s.tally, r.item.element) + 1))
  {
    LimitsJudged(c, s, late);
  }

  /** A call with a process that can be loaded and has a start. */
  predicate Calls(c: Config, r: Result) {
    r.action == Action.CallActivity && r.called != "" && r.called in c.library && c.library[r.called].start != ""
  }

  lemma ReplyProcess(c: Config, p: Process, status: Status, r: Result, pick: Pick)
    ensures Calls(c, r) ==>
              Respond(c, p, status, r, pick).process == Inlined(p, r.item.element, c.library[r.called], pick.end)
    ensures !Calls(c, r) ==> Respond(c, p, status, r, pick).process == p
  {
  }

  lemma ReceivedBy(c: Config, s: State, late: bool, pick: Pick)
    requires s.net.results != []
    ensures Received(c, s, late, pick).process
            == if WithinLimits(c, s, late)
               then Respond(c, s.process, s.instance.life.status, s.net.results[0], pick).process else s.process
  {
    LimitsJudged(c, s, late);
  }

  /** Only a call changes the process, and only as inlining says. */
  lemma ReceivedProcess(c: Config, s: State, late: bool, pick: Pick)
    requires s.net.results != []
    ensures var r, after := s.net.results[0], Received(c, s, late, pick).process;
            after == if WithinLimits(c, s, late) && Calls(c, r)
                     then Inlined(s.process, r.item.element, c.library[r.called], pick.end) else s.process
  {
    ReceivedBy(c, s, late, pick);
    ReplyProcess(c, s.process, s.instance.life.status, s.net.results[0], pick);
  }

  /** What a result counts for in the loop guard: once for its element, and not at all when the time is up. */
  lemma ReceivedCounts(c: Config, s: State, late: bool, pick: Pick, e: Id)
    requires s.net.results != []
    ensures CountOf(Received(c, s, late, pick).tally, e)
            == CountOf(s.tally, e) + if !late && e != "" && e == s.net.results[0].item.element then 1 else 0
  {
  }

  lemma ClosingStep(c: Config, s: State, e: Event)
    requires Disciplined(s.instance) && s.coordinator.Closing? && Ready(s, e)
    ensures var t := Apply(c, s, e);
            && (t.coordinator == s.coordinator || t.coordinator == Returned(s.coordinator.outcome))
            && (t.coordinator == s.coordinator ==> t.instance == s.instance)
            && (t.coordinator == Returned(s.coordinator.outcome) ==>
                  t.instance.life.status == if s.coordinator.outcome == Expired(true) && Live(s) then Failed
                                            else s.instance.life.status)
            && Disciplined(t.instance)
  {
  }

  /** How a shutdown ends: with the outcome it began with; and only the timeout fails the instance. */
  lemma {:induction false} ShutdownOutcome(c: Config, s: State, es: seq<Event>, t: State)
    requires Disciplined(s.instance) && s.coordinator.Closing? && Path(c, s, es, t) && t.coordinator.Returned?
    ensures t.coordinator == Returned(s.coordinator.outcome)
    ensures t.instance.life.status == if s.coordinator.outcome == Expired(true) && Live(s) then Failed
                                      else s.instance.life.status
    decreases |es|
  {
    var next := Apply(c, s, es[0]);
    ClosingStep(c, s, es[0]);
    if next.coordinator.Returned? {
      ReturnedStays(c, next, es[1..], t);
    } else {
      ShutdownOutcome(c, next, es[1..], t);
    }
  }

  /** A loop that sees its context done ends by saying why: after the timeout the instance has failed if it was
      live, after a cancel it is as it was. */
  lemma ExpiryDecides(c: Config, s: State, deadline: bool, es: seq<Event>, t: State)
    requires Disciplined(s.instance) && Ready(s, SeeExpiry(deadline))
    requires Path(c, Apply(c, s, SeeExpiry(deadline)), es, t) && t.coordinator.Returned?
    ensures t.coordinator == Returned(Expired(deadline))
    ensures t.instance.life.status == if deadline && Live(s) then Failed else s.instance.life.status
  {
    ShutdownOutcome(c, Apply(c, s, SeeExpiry(deadline)), es, t);
  }
}

/** What becomes of an uncaught error: the instance fails, and the error is read or lost. */
module EngineErrors {
  import opened Bpmn
  import opened Routing
  import opened Records
  import opened Lifecycle
  import opened FailSafe
  import opened ErrorCatching
  import opened Engine
  import opened EngineSafety
  import opened EngineProgress
  import opened EngineLimits
  import opened EngineHistory
  import opened EngineTwoTokens

  /** As long as nothing else has ended the run, the instance has failed exactly when an error is
      waiting in errCh. */
  predicate FailedUnread(s: State) {
    Undisturbed(s.coordinator) ==> (s.instance.errors == 1 <==> s.instance.life.status == Failed)
  }

  lemma CarriedUnread(s: State, current: Item, reply: Reply)
    requires Disciplined(s.instance) && FailedUnread(s) && Undisturbed(s.coordinator)
    requires reply.change.To? ==> reply.change.status in {Waiting, Failed, Terminated}
                                  && reply.change.status in Allowed(s.instance.life.status)
    requires reply.exit == Continue ==> (reply.uncaught <==> reply.change == To(Failed))
    ensures FailedUnread(Carried(s, current, reply))
  {
  }

  lemma ReceivedUnread(c: Config, s: State, late: bool, pick: Pick)
    requires Disciplined(s.instance) && FailedUnread(s) && s.coordinator.Selecting? && s.net.results != []
    ensures FailedUnread(Received(c, s, late, pick))
  {
    var r := s.net.results[0];
    RespondChanges(c, s.process, s.instance.life.status, r, pick);
    CarriedUnread(Counting(s, late), r.item, Respond(c, s.process, s.instance.life.status, r, pick));
  }

  lemma StepUnread(c: Config, s: State, e: Event)
    requires Disciplined(s.instance) && FailedUnread(s) && Ready(s, e)
    ensures FailedUnread(Apply(c, s, e))
  {
    if e.Receive? {
      ReceivedUnread(c, s, e.late, e.pick);
    }
  }

  lemma {:induction false} PathUnread(c: Config, s: State, es: seq<Event>, t: State)
    requires Inv(c, s) && FailedUnread(s) && Path(c, s, es, t)
    ensures FailedUnread(t)
    decreases |es|
  {
    if es != [] {
      StepInv(c, s, es[0]);
      StepUnread(c, s, es[0]);
      PathUnread(c, Apply(c, s, es[0]), es[1..], t);
    }
  }

  /** In every run: a run that finalizes leaves a failed instance exactly when it leaves an error
      unread. Such a run reports success. */
  lemma FailedExactlyWhenUnread(c: Config, start: State, es: seq<Event>, s: State)
    requires Starting(c, start) && Path(c, start, es, s) && Undisturbed(s.coordinator)
    ensures s.instance.errors <= 1
    ensures s.instance.errors == 1 <==> s.instance.life.status == Failed
  {
    StartingInv(c, start);
    PathInv(c, start, es, s);
    PathUnread(c, start, es, s);
  }

  /** With an error waiting, a step reads it or leaves it. */
  lemma WaitingErrorStep(c: Config, s: State, e: Event)
    requires Disciplined(s.instance) && s.instance.errors == 1 && Ready(s, e)
    requires s.coordinator.Closing? ==> !LeavesOpen(s.coordinator.outcome)
    ensures var t := Apply(c, s, e);
            if e == SeeError then t.instance.errors == 0 && t.coordinator == Returned(Reported)
            else t.instance.errors == 1 && (t.coordinator == Returned(Reported) ==> s.coordinator == Returned(Reported))
    ensures s.coordinator.Closing? || s.coordinator.Returned? ==>
              e != SeeError && (Apply(c, s, e).coordinator.Closing? || Apply(c, s, e).coordinator.Returned?)
  {
    if e.Receive? {
      RespondChanges(c, s.process, s.instance.life.status, s.net.results[0], e.pick);
    }
  }

  lemma ReturnedStays(c: Config, s: State, es: seq<Event>, t: State)
    requires Path(c, s, es, t) && s.coordinator.Returned?
    ensures t.coordinator == s.coordinator && t.instance == s.instance && SeeError !in es
    decreases |es|
  {
    if es != [] {
      ReturnedStays(c, Apply(c, s, es[0]), es[1..], t);
    }
  }

  /** An error waiting in errCh is read on exactly the schedules that take the errCh branch of the
      select; those end reporting it. On all others, and always once the loop is closing, it stays. */
  lemma {:induction false} WaitingErrorFate(c: Config, s: State, es: seq<Event>, t: State)
    requires Inv(c, s) && s.instance.errors == 1 && s.coordinator != Returned(Reported) && Path(c, s, es, t)
    ensures t.instance.errors == if SeeError in es then 0 else 1
    ensures SeeError in es <==> t.coordinator == Returned(Reported)
    ensures s.coordinator.Closing? || s.coordinator.Returned? ==> SeeError !in es
    decreases |es|
  {
    if es != [] {
      var next := Apply(c, s, es[0]);
      StepInv(c, s, es[0]);
      WaitingErrorStep(c, s, es[0]);
      if es[0] == SeeError {
        ReturnedStays(c, next, es[1..], t);
      } else {
        WaitingErrorFate(c, next, es[1..], t);
      }
    }
  }

  /** The next result is a throw that nothing catches, on an instance that can still fail. */
  ghost predicate Throws(c: Config, s: State, pick: Pick) {
    && s.net.results != []
    && var r := s.net.results[0];
    && r.action == ThrowError && r.item.element in s.process.elements && pick.catcher == None
    && Judge(s.tally, r.item.element, false, c.maxLoops) == Fine
    && Failed in Allowed(s.instance.life.status)
  }

  lemma ThrowHandled(c: Config, s: State, pick: Pick)
    requires Disciplined(s.instance) && Throws(c, s, pick)
    ensures var t := Received(c, s, false, pick);
            && t.instance.life.status == Failed && t.instance.errors == 1
            && t.coordinator == if s.books.pending == 1 then Closing(Finalized) else Selecting
  {
  }

  /** A throw without a catcher, handled after any run, and whatever comes after it. The instance has
      failed and the error waits. If its result was the last thing pending, the loop finalizes and the
      error is lost on every schedule. Otherwise it can be read at once, and it is lost on exactly the
      schedules that do not: results received first can still bring the loop to its end. */
  lemma UncaughtErrorFate(c: Config, start: State, es: seq<Event>, s: State, pick: Pick, later: seq<Event>, u: State)
    requires Starting(c, start) && Path(c, start, es, s) && Enabled(c, s, Receive(false, pick))
    requires Throws(c, s, pick)
    requires Path(c, Apply(c, s, Receive(false, pick)), later, u)
    ensures var t := Apply(c, s, Receive(false, pick));
            && t.instance.life.status == Failed && t.instance.errors == 1
            && (if |InFlight(s)| + |s.books.dropped| == 1
                then t.coordinator == Closing(Finalized) && SeeError !in later
                else t.coordinator == Selecting && Enabled(c, t, SeeError))
    ensures u.instance.errors == if SeeError in later then 0 else 1
    ensures SeeError in later <==> u.coordinator == Returned(Reported)
  {
    StartingInv(c, start);
    PathInv(c, start, es, s);
    StillPending(s);
    ThrowHandled(c, s, pick);
    StepInv(c, s, Receive(false, pick));
    WaitingErrorFate(c, Apply(c, s, Receive(false, pick)), later, u);
  }

  const Thrown := Result(ThrowError, Item(1, "x"), [], "")
  const Ending := Result(Complete, Item(2, "e"), [], "")

  /** The error end first, then the end event. */
  function BothStart(): State { PartingStart("x", "e") }

  lemma BothDelivered() returns (es: seq<Event>, s: State)
    ensures Path(OneWorker, BothStart(), es, s)
    ensures s == BothStart().(coordinator := Selecting, net := Net([], [Thrown, Ending], [Idle]))
  {
    var es0, s0 := PartingFed("x", "e");
    var es1, s1 := Handle(BothStart(), es0, s0, Thrown);
    es, s := Handle(BothStart(), es1, s1, Ending);
  }

  /** The error waits in errCh and the end event's result in the result channel. */
  predicate BothWait(s: State) {
    && s.process == Parting("x", "e") && s.coordinator == Selecting && s.net == Net([], [Ending], [Idle]) && !s.expired
    && s.instance.errors == 1 && s.instance.life.status == Failed
    && s.books.pending == 1 && CountOf(s.tally, "e") == 0
  }

  lemma ThrowReceived(s: State, pick: Pick)
    requires s == BothStart().(coordinator := Selecting, net := Net([], [Thrown, Ending], [Idle]))
    requires pick.catcher == None
    ensures Enabled(OneWorker, s, Receive(false, pick)) && BothWait(Received(OneWorker, s, false, pick))
  {
    assert ParentSubProcess(s.process, "x") == "";
  }

  lemma EndingReceived(s: State, pick: Pick)
    requires BothWait(s)
    ensures Enabled(OneWorker, s, Receive(false, pick))
    ensures var t := Received(OneWorker, s, false, pick);
            && t.coordinator == Closing(Finalized) && t.net == Net([], [], [Idle])
            && t.instance.errors == 1 && t.instance.life.status == Failed
  {
  }

  lemma ClosedDown(start: State, es: seq<Event>, s: State) returns (es': seq<Event>, t: State)
    requires Path(OneWorker, start, es, s) && s.coordinator == Closing(Finalized) && s.net == Net([], [], [Idle])
    ensures Path(OneWorker, start, es', t) && t.coordinator == Returned(Finalized) && t.instance == s.instance
  {
    var a := Busy(s, 0, Exited);
    PathStep(OneWorker, start, es, s, Leave(0));
    PathStep(OneWorker, start, es + [Leave(0)], a, AwaitWorkers);
    es', t := es + [Leave(0)] + [AwaitWorkers], Joined(a);
  }

  /** The error can be lost with other work pending, in a run that Continue begins: the end event's
      result is received before errCh is looked at. */
  lemma LostWithWorkPending() returns (es: seq<Event>, s: State, later: seq<Event>, u: State)
    ensures Begins(OneWorker, PartingStore("x", "e"), BothStart()) && Path(OneWorker, BothStart(), es, s) && BothWait(s)
    ensures Path(OneWorker, s, later, u)
    ensures u.coordinator == Returned(Finalized) && u.instance.life.status == Failed && u.instance.errors == 1
  {
    var pick := Pick(None, [], None);
    PartingBegins("x", "e");
    var es0, s0 := BothDelivered();
    ThrowReceived(s0, pick);
    PathStep(OneWorker, BothStart(), es0, s0, Receive(false, pick));
    es, s := es0 + [Receive(false, pick)], Received(OneWorker, s0, false, pick);
    assert Path(OneWorker, s, [], s);
    EndingReceived(s, pick);
    PathStep(OneWorker, s, [], s, Receive(false, pick));
    later, u := ClosedDown(s, [] + [Receive(false, pick)], Received(OneWorker, s, false, pick));
  }
}

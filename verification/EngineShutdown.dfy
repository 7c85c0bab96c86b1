/** Shutting down when the deadline may pass, or has passed and is the reason. */
module EngineShutdown {
  import opened Bpmn
  import opened Routing
  import opened Records
  import opened Lifecycle
  import opened FailSafe
  import opened Engine
  import opened EngineSafety
  import opened EngineProgress
  import opened EngineLimits

  /** Results in the channel and items in the hands of workers: nothing gets rid of these once nobody
      reads results, while queued items can still be dropped after the deadline. */
  function Load(n: Net): nat { |n.results| + |Held(n.workers)| }

  lemma HeldSizeUpdate(ws: seq<Worker>, i: nat, w: Worker)
    requires i < |ws|
    ensures |Held(ws[i := w])| + |WorkerItem(ws[i])| == |Held(ws)| + |WorkerItem(w)|
  {
    HeldUpdate(ws, i, w);
    assert |Held(ws[i := w]) + WorkerItem(ws[i])| == |Held(ws) + WorkerItem(w)|;
  }

  lemma TakeLoad(s: State, w: nat)
    requires w < |s.net.workers| && s.net.workers[w].Idle? && s.net.work != []
    ensures Load(Taken(s, w).net) == Load(s.net) + if s.expired then 0 else 1
  {
    HeldSizeUpdate(s.net.workers, w, if s.expired then Exited else Executing(s.net.work[0]));
  }

  lemma PutLoad(s: State, w: nat)
    requires w < |s.net.workers| && s.net.workers[w].Delivering?
    ensures Load(Delivered(s, w).net) == Load(s.net)
  {
    HeldSizeUpdate(s.net.workers, w, Idle);
  }

  lemma SameLoad(s: State, w: nat, worker: Worker)
    requires w < |s.net.workers| && |WorkerItem(s.net.workers[w])| == |WorkerItem(worker)|
    ensures Load(Busy(s, w, worker).net) == Load(s.net)
  {
    HeldSizeUpdate(s.net.workers, w, worker);
  }

  /** Shutting down never lightens the load, and after the deadline nothing adds to it. */
  lemma LoadKept(c: Config, s: State, e: Event)
    requires s.coordinator.Closing? && Ready(s, e) && e != AwaitWorkers
    ensures var t := Apply(c, s, e);
            && t.coordinator == s.coordinator && (s.expired ==> t.expired)
            && Load(t.net) >= Load(s.net) && (s.expired || e == Expire ==> Load(t.net) == Load(s.net))
  {
    match e {
      case Take(w) => TakeLoad(s, w);
      case Execute(w, r) => SameLoad(s, w, Delivering(r));
      case Put(w) => PutLoad(s, w);
      case Leave(w) => SameLoad(s, w, Exited);
      case Expire =>
    }
  }

  lemma AwaitMeansLight(c: Config, s: State)
    requires Orderly(c, s) && AllExited(s.net.workers)
    ensures Load(s.net) <= CAPACITY
  {
    HeldNothing(s.net.workers);
  }

  /** With more than 1024 results waiting or still to be delivered, the shutdown hangs for good:
      whatever happens later, the deadline included, it never returns. */
  lemma {:induction false} HeavyHangs(c: Config, s: State, es: seq<Event>, t: State)
    requires Inv(c, s) && s.coordinator.Closing? && Load(s.net) > CAPACITY && Path(c, s, es, t)
    ensures t.coordinator == s.coordinator
    decreases |es|
  {
    if es != [] {
      assert Enabled(c, s, es[0]);
      if es[0] == AwaitWorkers {
        AwaitMeansLight(c, s);
      } else {
        LoadKept(c, s, es[0]);
        StepInv(c, s, es[0]);
        HeavyHangs(c, Apply(c, s, es[0]), es[1..], t);
      }
    }
  }

  lemma BlockedIsHeavy(s: State)
    requires s.coordinator.Closing? && Blocked(s)
    ensures Load(s.net) > CAPACITY
  {
    var w :| w in s.net.workers && !w.Exited?;
    var k :| 0 <= k < |s.net.workers| && s.net.workers[k] == w;
    HeldIncludes(s.net.workers, k);
    assert w.result.item in Held(s.net.workers);
  }

  lemma LightIsFree(s: State)
    requires s.coordinator.Closing? && Load(s.net) <= CAPACITY
    ensures !Blocked(s)
  {
    if Blocked(s) {
      BlockedIsHeavy(s);
    }
  }

  lemma ExpiredProgress(c: Config, s: State, e: Event)
    requires s.coordinator.Closing? && s.expired && Enabled(c, s, e) && e != AwaitWorkers
    ensures NetWork(Apply(c, s, e).net) < NetWork(s.net)
  {
    match e {
      case Take(w) => StagesUpdate(s.net.workers, w, Exited);
      case Execute(w, r) => StagesUpdate(s.net.workers, w, Delivering(r));
      case Put(w) => StagesUpdate(s.net.workers, w, Idle);
      case Leave(w) => StagesUpdate(s.net.workers, w, Exited);
    }
  }

  /** After the deadline, with a load of at most 1024, the shutdown goes on to return from every state
      on the way. */
  lemma {:induction false} LightReturns(c: Config, s: State) returns (es: seq<Event>, t: State)
    requires Inv(c, s) && s.coordinator.Closing? && s.expired && Load(s.net) <= CAPACITY
    ensures Path(c, s, es, t) && t.coordinator == Returned(s.coordinator.outcome) && |es| <= NetWork(s.net) + 1
    decreases NetWork(s.net)
  {
    LightIsFree(s);
    var e := UnblockedMoves(c, s);
    var next := Apply(c, s, e);
    if e == AwaitWorkers {
      es, t := [e], next;
      assert es[1..] == [];
      assert Path(c, next, es[1..], t);
    } else {
      LoadKept(c, s, e);
      ExpiredProgress(c, s, e);
      StepInv(c, s, e);
      var rest;
      rest, t := LightReturns(c, next);
      es := [e] + rest;
      assert es[1..] == rest;
    }
  }

  ghost predicate Returns(c: Config, s: State, es: seq<Event>, t: State) {
    Path(c, s, es, t) && t.coordinator.Returned?
  }

  /** Whatever started the shutdown, and whether the deadline has passed or is still to come: it can
      return if and only if the result channel has room for every result not yet delivered. */
  lemma ReturnsExactly(c: Config, s: State)
    requires Inv(c, s) && s.coordinator.Closing?
    ensures (exists es, t :: Returns(c, s, es, t)) <==> Load(s.net) <= CAPACITY
  {
    if Load(s.net) <= CAPACITY {
      var es, t := LightCanReturn(c, s);
    } else {
      forall es, t ensures !Returns(c, s, es, t) {
        if Path(c, s, es, t) {
          HeavyHangs(c, s, es, t);
        }
      }
    }
  }

  lemma LightCanReturn(c: Config, s: State) returns (es: seq<Event>, t: State)
    requires Inv(c, s) && s.coordinator.Closing? && Load(s.net) <= CAPACITY
    ensures Returns(c, s, es, t)
  {
    if s.expired {
      es, t := LightReturns(c, s);
    } else {
      LoadKept(c, s, Expire);
      StepInv(c, s, Expire);
      var rest;
      rest, t := LightReturns(c, Apply(c, s, Expire));
      es := [Expire] + rest;
      assert es[1..] == rest;
    }
  }

  /** After the deadline every schedule agrees: none is ever stuck before it returns when the load is
      at most 1024, and none ever returns otherwise. */
  lemma {:induction false} DeadlineDecides(c: Config, s: State, es: seq<Event>, t: State)
    requires Inv(c, s) && s.coordinator.Closing? && s.expired && Path(c, s, es, t)
    ensures Load(s.net) <= CAPACITY ==> !Stuck(c, t) && |es| <= NetWork(s.net) + 1
    ensures Load(s.net) > CAPACITY ==> t.coordinator == s.coordinator
    decreases |es|
  {
    if Load(s.net) > CAPACITY {
      HeavyHangs(c, s, es, t);
    } else if es == [] {
      LightIsFree(s);
      StuckExactlyWhenBlocked(c, s);
    } else if es[0] == AwaitWorkers {
      ReturnedEnds(c, Apply(c, s, es[0]), es[1..], t);
    } else {
      LoadKept(c, s, es[0]);
      ExpiredProgress(c, s, es[0]);
      StepInv(c, s, es[0]);
      DeadlineDecides(c, Apply(c, s, es[0]), es[1..], t);
    }
  }

  /** All workers have exited and the deadline has passed: nothing happens after the return. */
  lemma ReturnedEnds(c: Config, s: State, es: seq<Event>, t: State)
    requires s.coordinator.Returned? && s.expired && AllExited(s.net.workers) && Path(c, s, es, t)
    ensures es == [] && t == s
  {
    if es != [] {
      assert Enabled(c, s, es[0]);
      assert forall k | 0 <= k < |s.net.workers| :: s.net.workers[k] in s.net.workers;
    }
  }
}

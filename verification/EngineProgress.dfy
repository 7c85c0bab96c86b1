/** When the run loop can move on, and when it is stuck for good. */
module EngineProgress {
  import opened Bpmn
  import opened Routing
  import opened Records
  import opened Lifecycle
  import opened FailSafe
  import opened ErrorCatching
  import opened CallActivities
  import opened Strings
  import opened Engine
  import opened EngineSafety
  import ParallelJoin

  /** A result every element may produce. */
  function SomeResult(p: Process, store: seq<FlowRecord>, item: Item): (r: Result)
    ensures Plausible(p, store, item, r)
  {
    if item.element !in p.elements then Result(Error, item, [], "")
    else
      var el := p.elements[item.element];
      match el.kind
      case ParallelGateway => Result(ParallelJoin.Decision(p, item.element, store), item, [], "")
      case StartEvent => Result(Route, item, [], "")
      case SequenceFlow => Result(Route, item, [], "")
      case SubProcess => Result(Route, item, [item.element + "_sp_entry"], "")
      case EndEvent =>
        if el.exitFlows != "" then Result(Route, item, Split(el.exitFlows), "") else Result(Complete, item, [], "")
      case ErrorEnd => Result(ThrowError, item, [], "")
      case TerminateEvent => Result(Terminate, item, [], "")
      case CallActivity => Result(if el.called == "" then Route else Action.CallActivity, item, [], el.called)
      case _ => Result(Skip, item, [], "")
  }

  lemma {:induction false} Enumerate(s: set<Id>) returns (q: seq<Id>)
    ensures forall x :: x in q <==> x in s
    ensures forall i, j | 0 <= i < j < |q| :: q[i] != q[j]
    decreases |s|
  {
    if s == {} {
      q := [];
    } else {
      var x :| x in s;
      var rest := Enumerate(s - {x});
      q := rest + [x];
    }
  }

  lemma {:induction false} CatcherExists(p: Process, scopes: seq<Id>, code: string) returns (c: Option<Id>)
    ensures CaughtIn(p, scopes, code, c)
  {
    if scopes == [] {
      c := None;
    } else {
      var n := |scopes| - 1;
      c := CatcherExists(p, scopes[..n], code);
      if c.Some? {
        var i :| 0 <= i < n && Catches(p, c.value, scopes[..n][i], code)
                 && forall j, y | 0 <= j < i :: !Catches(p, y, scopes[..n][j], code);
        assert Catches(p, c.value, scopes[i], code);
        assert forall j, y | 0 <= j < i :: !Catches(p, y, scopes[j], code) by {
          assert forall j | 0 <= j < i :: scopes[..n][j] == scopes[j];
        }
      } else if x :| Catches(p, x, scopes[n], code) {
        c := Some(x);
        forall j, y | 0 <= j < n ensures !Catches(p, y, scopes[j], code) {
          assert scopes[..n][j] in scopes[..n];
        }
      } else {
        forall s, x | s in scopes ensures !Catches(p, x, s, code) {
          assert s == scopes[n] || s in scopes[..n];
        }
      }
    }
  }

  /** Whatever the result, the handler has a way to run. */
  lemma PickExists(c: Config, p: Process, r: Result) returns (pick: Pick)
    ensures PickAllowed(c, p, r, pick)
  {
    var host := r.item.element;
    var hosted := set b | b in p.elements && IsBoundary(p, host, b);
    var boundary := Enumerate(hosted);
    var catcher := CatcherExists(p, Scopes(p, host), CodeOf(p, host));
    var end: Option<Id> := None;
    if r.called in c.library {
      var called := c.library[r.called];
      if e :| e in called.elements && called.elements[e].kind == EndEvent {
        end := Some(e);
      }
    }
    pick := Pick(catcher, boundary, end);
    assert BoundaryChoice(p, host, boundary) by {
      assert forall b | IsBoundary(p, host, b) :: b in hosted;
    }
  }

  /** Nothing but the passage of time can happen. */
  ghost predicate Stuck(c: Config, s: State) {
    !s.coordinator.Returned? && forall e | Enabled(c, s, e) :: e == Expire
  }

  /** Every worker has exited or holds a result the full result channel cannot take. */
  predicate Jammed(n: Net) {
    forall k | 0 <= k < |n.workers| ::
      n.workers[k].Exited? || (n.workers[k].Delivering? && |n.results| >= CAPACITY)
  }

  /** The shapes in which the loop is stuck. */
  predicate Blocked(s: State) {
    match s.coordinator
    case Feeding(_) => |s.net.work| >= CAPACITY && Jammed(s.net)
    case Sending(_, _, _) => !s.expired && |s.net.work| >= CAPACITY && Jammed(s.net)
    case Closing(_) => Jammed(s.net) && exists w :: w in s.net.workers && !w.Exited?
    case _ => false
  }

  /** Worker `k` has a step to take. */
  predicate Movable(s: State, k: nat) {
    && k < |s.net.workers|
    && match s.net.workers[k]
       case Executing(_) => true
       case Delivering(_) => |s.net.results| < CAPACITY
       case Idle => s.net.work != [] || WorkClosed(s.coordinator)
       case Exited => false
  }

  lemma MovableMoves(c: Config, s: State, k: nat) returns (e: Event)
    requires Movable(s, k)
    ensures Enabled(c, s, e) && (e.Take? || e.Execute? || e.Put? || e.Leave?)
  {
    match s.net.workers[k] {
      case Executing(item) => e := Execute(k, SomeResult(s.process, s.store, item));
      case Delivering(_) => e := Put(k);
      case Idle =>
        if s.net.work != [] {
          e := Take(k);
        } else {
          e := Leave(k);
        }
    }
  }

  lemma {:induction false} HeldSomething(ws: seq<Worker>)
    requires Held(ws) != multiset{}
    ensures exists k :: 0 <= k < |ws| && (ws[k].Executing? || ws[k].Delivering?)
  {
    var n := |ws| - 1;
    if Held(ws[..n]) != multiset{} {
      HeldSomething(ws[..n]);
      var k :| 0 <= k < n && (ws[..n][k].Executing? || ws[..n][k].Delivering?);
      assert ws[k] == ws[..n][k];
    } else {
      assert Held(ws) == WorkerItem(ws[n]);
    }
  }

  /** While the coordinator waits for results, somebody always has something to do. */
  lemma SelectingMoves(c: Config, s: State) returns (e: Event)
    requires Inv(c, s) && s.coordinator.Selecting?
    ensures Enabled(c, s, e) && e != Expire
  {
    StillPending(s);
    if s.net.results != [] {
      var pick := PickExists(c, s.process, s.net.results[0]);
      e := Receive(false, pick);
    } else if s.expired {
      e := SeeExpiry(true);
    } else if Held(s.net.workers) != multiset{} {
      HeldSomething(s.net.workers);
      var k: nat :| k < |s.net.workers| && (s.net.workers[k].Executing? || s.net.workers[k].Delivering?);
      e := MovableMoves(c, s, k);
    } else {
      NothingHeld(c, s);
      e := MovableMoves(c, s, 0);
    }
  }

  lemma NothingHeld(c: Config, s: State)
    requires Inv(c, s) && s.coordinator.Selecting? && s.net.results == [] && !s.expired
    requires Held(s.net.workers) == multiset{}
    ensures Movable(s, 0)
  {
    StillPending(s);
    assert ItemsOf(s.net.results) == [];
    assert InFlight(s) == multiset(s.net.work);
    assert !SomeExited(s.net.workers);
    assert s.net.workers[0] in s.net.workers;
    if WorkerItem(s.net.workers[0]) != multiset{} {
      HeldIncludes(s.net.workers, 0);
    }
  }

  /** The loop is stuck exactly in the blocked shapes: either every step of the coordinator needs
      room in the full work channel while every worker waits for room in the full result channel,
      or, when shutting down, some worker does. */
  lemma StuckExactlyWhenBlocked(c: Config, s: State)
    requires Inv(c, s)
    ensures Stuck(c, s) <==> Blocked(s)
  {
    if !Blocked(s) && !s.coordinator.Returned? {
      var e := UnblockedMoves(c, s);
    }
    if Blocked(s) {
      BlockedIsStuck(c, s);
    }
  }

  lemma NotJammed(s: State) returns (k: nat)
    requires !Jammed(s.net)
    requires s.net.work != [] || WorkClosed(s.coordinator)
    ensures Movable(s, k)
  {
    k :| 0 <= k < |s.net.workers|
         && !(s.net.workers[k].Exited? || (s.net.workers[k].Delivering? && |s.net.results| >= CAPACITY));
  }

  lemma UnblockedMoves(c: Config, s: State) returns (e: Event)
    requires Inv(c, s) && !Blocked(s) && !s.coordinator.Returned?
    ensures Enabled(c, s, e) && e != Expire
  {
    match s.coordinator {
      case Selecting => e := SelectingMoves(c, s);
      case Recording(_, _) => e := Record;
      case Feeding(_) =>
        if |s.net.work| < CAPACITY {
          e := Feed;
        } else {
          var k := NotJammed(s);
          e := MovableMoves(c, s, k);
        }
      case Sending(_, _, _) =>
        if |s.net.work| < CAPACITY {
          e := Send;
        } else if s.expired {
          e := Abandon;
        } else {
          var k := NotJammed(s);
          e := MovableMoves(c, s, k);
        }
      case Closing(_) =>
        if AllExited(s.net.workers) {
          e := AwaitWorkers;
        } else {
          var k := NotJammed(s);
          e := MovableMoves(c, s, k);
        }
    }
  }

  lemma NothingReady(s: State, e: Event)
    requires Blocked(s) && Ready(s, e)
    ensures e == Expire
  {
  }

  lemma BlockedIsStuck(c: Config, s: State)
    requires Inv(c, s) && Blocked(s)
    ensures Stuck(c, s)
  {
    forall e | Ready(s, e) ensures e == Expire {
      NothingReady(s, e);
    }
  }

  lemma {:induction false} AllDelivering(ws: seq<Worker>)
    requires forall w | w in ws :: w.Delivering?
    ensures |Held(ws)| == |ws|
  {
    if ws != [] {
      var n := |ws| - 1;
      AllDelivering(ws[..n]);
      assert ws[n] in ws;
    }
  }

  lemma BlockedIsFull(c: Config, s: State)
    requires Inv(c, s) && Blocked(s) && !s.expired && !s.coordinator.Closing?
    ensures s.books.pending > 2 * CAPACITY + c.workers
  {
    StillPending(s);
    assert !SomeExited(s.net.workers);
    assert s.net.workers[0] in s.net.workers;
    AllDelivering(s.net.workers);
    assert |CoordinatorItems(s.coordinator)| >= 1;
  }
}

/** Sending the initial items looks at no deadline: exactly which runs can get stuck while they do. */
module EngineFeeding {
  import opened Bpmn
  import opened Routing
  import opened Records
  import opened Lifecycle
  import opened FailSafe
  import opened Engine
  import opened EngineSafety
  import opened EngineProgress
  import opened EngineLimits

  /** The deadline has passed, `fed` items are sent and the first `gone` workers have left, each with one. */
  ghost predicate Abandoned(c: Config, start: State, s: State, fed: nat, gone: nat) {
    && fed < |start.books.issued|
    && s.coordinator == Feeding(start.books.issued[fed..])
    && s.expired && s.net.results == [] && |s.net.workers| == c.workers
    && forall k | 0 <= k < c.workers :: if k < gone then s.net.workers[k].Exited? else s.net.workers[k].Idle?
  }

  lemma {:induction false} LoseWorkers(c: Config, start: State, w: nat) returns (es: seq<Event>, t: State)
    requires Starting(c, start) && w <= c.workers && w < |start.books.issued|
    ensures Path(c, start, es, t) && Abandoned(c, start, t, w, w) && t.net.work == []
  {
    if w == 0 {
      assert Path(c, start, [], start);
      PathStep(c, start, [], start, Expire);
      es, t := [] + [Expire], start.(expired := true);
      assert start.books.issued[0..] == start.books.issued;
    } else {
      var es0, t0 := LoseWorkers(c, start, w - 1);
      PathStep(c, start, es0, t0, Feed);
      PathStep(c, start, es0 + [Feed], Fed(t0), Take(w - 1));
      es, t := es0 + [Feed] + [Take(w - 1)], Taken(Fed(t0), w - 1);
    }
  }

  lemma {:induction false} FillQueue(c: Config, start: State, m: nat) returns (es: seq<Event>, t: State)
    requires Starting(c, start) && m <= CAPACITY && c.workers + m < |start.books.issued|
    ensures Path(c, start, es, t) && Abandoned(c, start, t, c.workers + m, c.workers) && |t.net.work| == m
  {
    if m == 0 {
      es, t := LoseWorkers(c, start, c.workers);
    } else {
      var es0, t0 := FillQueue(c, start, m - 1);
      PathStep(c, start, es0, t0, Feed);
      es, t := es0 + [Feed], Fed(t0);
    }
  }

  /** Nothing can happen any more, and nothing could if the deadline passed. */
  ghost predicate StuckForGood(c: Config, s: State) { Stuck(c, s) && Stuck(c, s.(expired := true)) }

  /** After the deadline 1025 + WorkerCount items are enough: every worker leaves with one. */
  lemma ExpiredDeadlock(c: Config, start: State) returns (es: seq<Event>, t: State)
    requires Starting(c, start) && |start.books.issued| > CAPACITY + c.workers
    ensures Path(c, start, es, t) && t.coordinator.Feeding? && t.expired && StuckForGood(c, t)
  {
    es, t := FillQueue(c, start, CAPACITY);
    StartingInv(c, start);
    PathInv(c, start, es, t);
    assert Blocked(t);
    StuckExactlyWhenBlocked(c, t);
    assert t.(expired := true) == t;
  }

  function Leavers(ws: seq<Worker>): nat {
    if ws == [] then 0 else Leavers(ws[..|ws| - 1]) + if ws[|ws| - 1].Exited? then 1 else 0
  }

  lemma {:induction false} LeaversUpdate(ws: seq<Worker>, i: nat, w: Worker)
    requires i < |ws|
    ensures Leavers(ws[i := w]) + (if ws[i].Exited? then 1 else 0) == Leavers(ws) + if w.Exited? then 1 else 0
  {
    var n, next := |ws| - 1, ws[i := w];
    if i == n {
      assert next[..n] == ws[..n];
    } else {
      LeaversUpdate(ws[..n], i, w);
      assert next[..n] == ws[..n][i := w];
    }
  }

  lemma {:induction false} NoLeavers(ws: seq<Worker>)
    requires forall w | w in ws :: w.Idle?
    ensures Leavers(ws) == 0
  {
    if ws != [] {
      NoLeavers(ws[..|ws| - 1]);
      assert ws[|ws| - 1] in ws;
    }
  }

  /** While the initial items are being sent nothing is handled, and whoever left dropped one item. */
  ghost predicate LeftWithOne(s: State) {
    s.coordinator.Feeding? ==> s.books.handled == [] && |s.books.dropped| == Leavers(s.net.workers)
  }

  lemma StepLeft(c: Config, s: State, e: Event)
    requires LeftWithOne(s) && Ready(s, e)
    ensures LeftWithOne(Apply(c, s, e))
  {
    if s.coordinator.Feeding? {
      match e {
        case Take(w) =>
          LeaversUpdate(s.net.workers, w, Exited);
          LeaversUpdate(s.net.workers, w, Executing(s.net.work[0]));
        case Execute(w, r) => LeaversUpdate(s.net.workers, w, Delivering(r));
        case Put(w) => LeaversUpdate(s.net.workers, w, Idle);
        case _ =>
      }
    } else {
      NeverFeedsAgain(c, s, e);
    }
  }

  lemma NeverFeedsAgain(c: Config, s: State, e: Event)
    requires !s.coordinator.Feeding? && Ready(s, e)
    ensures !Apply(c, s, e).coordinator.Feeding?
  {
  }

  lemma {:induction false} PathLeft(c: Config, s: State, es: seq<Event>, t: State)
    requires LeftWithOne(s) && Path(c, s, es, t)
    ensures LeftWithOne(t)
    decreases |es|
  {
    if es != [] {
      StepLeft(c, s, es[0]);
      PathLeft(c, Apply(c, s, es[0]), es[1..], t);
    }
  }

  lemma {:induction false} HeldOrLeft(ws: seq<Worker>)
    requires forall w | w in ws :: w.Exited? || w.Delivering?
    ensures |Held(ws)| + Leavers(ws) == |ws|
  {
    if ws != [] {
      HeldOrLeft(ws[..|ws| - 1]);
      assert ws[|ws| - 1] in ws;
    }
  }

  /** What blocks the sending has a full work channel, and a worker for every item held or dropped. */
  lemma FeedingIsFull(s: State, workers: nat)
    requires s.coordinator.Feeding? && s.coordinator.rest != [] && Blocked(s) && LeftWithOne(s)
    requires Balanced(s.books, InFlight(s)) && |s.net.workers| == workers
    ensures s.books.pending == |s.books.issued| > CAPACITY + workers
  {
    StillPending(s);
    forall w | w in s.net.workers ensures w.Exited? || w.Delivering? {
      var k :| 0 <= k < |s.net.workers| && s.net.workers[k] == w;
    }
    HeldOrLeft(s.net.workers);
  }

  lemma FeedingIssues(c: Config, s: State, e: Event)
    requires Ready(s, e) && Apply(c, s, e).coordinator.Feeding?
    ensures s.coordinator.Feeding? && Apply(c, s, e).books.issued == s.books.issued
  {
  }

  lemma {:induction false} StillFeeding(c: Config, s: State, es: seq<Event>, t: State)
    requires Path(c, s, es, t) && t.coordinator.Feeding?
    ensures s.coordinator.Feeding? && t.books.issued == s.books.issued
    decreases |es|
  {
    if es != [] {
      StillFeeding(c, Apply(c, s, es[0]), es[1..], t);
      FeedingIssues(c, s, es[0]);
    }
  }

  lemma StartingLeft(c: Config, start: State)
    requires Starting(c, start)
    ensures LeftWithOne(start)
  {
    NoLeavers(start.net.workers);
  }

  /** Wherever a run is stuck while sending, it began with this many items. */
  lemma StuckFeedingBound(c: Config, start: State, es: seq<Event>, s: State)
    requires Starting(c, start) && Path(c, start, es, s) && s.coordinator.Feeding? && Stuck(c, s)
    ensures s.books.pending == |start.books.issued| > CAPACITY + c.workers + if s.expired then 0 else CAPACITY
  {
    StartingInv(c, start);
    PathInv(c, start, es, s);
    StartingLeft(c, start);
    PathLeft(c, start, es, s);
    StillFeeding(c, start, es, s);
    StuckExactlyWhenBlocked(c, s);
    FeedingIsFull(s, c.workers);
    if !s.expired {
      BlockedIsFull(c, s);
    }
  }

  ghost predicate SticksFeeding(c: Config, start: State, es: seq<Event>, s: State) {
    Path(c, start, es, s) && s.coordinator.Feeding? && StuckForGood(c, s)
  }

  /** A run can get stuck for good while sending its initial items if and only if these are more than
      1024 + WorkerCount; before the deadline, if and only if they are more than 2048 + WorkerCount. */
  lemma FeedingDeadlockExactly(c: Config, start: State)
    requires Starting(c, start)
    ensures (exists es, s :: SticksFeeding(c, start, es, s)) <==> |start.books.issued| > CAPACITY + c.workers
    ensures (exists es, s :: SticksFeeding(c, start, es, s) && !s.expired)
            <==> |start.books.issued| > 2 * CAPACITY + c.workers
  {
    forall es, s | SticksFeeding(c, start, es, s)
      ensures |start.books.issued| > CAPACITY + c.workers + if s.expired then 0 else CAPACITY
    {
      StuckFeedingBound(c, start, es, s);
    }
    if |start.books.issued| > CAPACITY + c.workers {
      var es, s := ExpiredDeadlock(c, start);
      assert SticksFeeding(c, start, es, s);
    }
    if |start.books.issued| > 2 * CAPACITY + c.workers {
      var es, s := DeadlockIsReachable(c, start);
      assert SticksFeeding(c, start, es, s) && !s.expired;
    }
  }

  /** A run that is not shutting down can go on as long as no more than 2048 + WorkerCount items are
      pending, and after the deadline as long as no more than 1024 + WorkerCount are. */
  lemma NoDeadlockWithinBound(c: Config, start: State, es: seq<Event>, s: State)
    requires Starting(c, start) && Path(c, start, es, s) && Running(s.coordinator)
    requires s.books.pending <= CAPACITY + c.workers + if s.expired then 0 else CAPACITY
    ensures !Stuck(c, s)
  {
    if Stuck(c, s) {
      StartingInv(c, start);
      PathInv(c, start, es, s);
      StuckExactlyWhenBlocked(c, s);
      if s.coordinator.Feeding? {
        StuckFeedingBound(c, start, es, s);
      } else {
        BlockedIsFull(c, s);
      }
    }
  }
}

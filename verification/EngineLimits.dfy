/** The bounds are tight: a reachable deadlock, and the exact condition under which shutting
    down before the deadline succeeds. */
module EngineLimits {
  import opened Bpmn
  import opened Routing
  import opened Records
  import opened Lifecycle
  import opened FailSafe
  import opened Engine
  import opened EngineSafety
  import opened EngineProgress

  lemma PathStep(c: Config, s: State, es: seq<Event>, t: State, e: Event)
    requires Path(c, s, es, t) && Enabled(c, t, e)
    ensures Path(c, s, es + [e], Apply(c, t, e))
  {
    var u := Apply(c, t, e);
    assert [e][1..] == [];
    assert Path(c, u, [e][1..], u);
    PathConcat(c, s, es, t, [e], u);
  }

  /** The loop is still sending its initial items and nothing else has happened to the books. */
  ghost predicate Feeds(c: Config, start: State, s: State, fed: nat, working: nat) {
    && fed < |start.books.issued|
    && s.coordinator == Feeding(start.books.issued[fed..])
    && s == start.(coordinator := s.coordinator, net := s.net)
    && |s.net.workers| == c.workers && working <= c.workers
    && (forall k | 0 <= k < c.workers :: if k < working then s.net.workers[k].Delivering? else s.net.workers[k].Idle?)
  }

  /** Feed one item and let worker `w` execute it. */
  lemma FeedAndExecute(c: Config, start: State, es: seq<Event>, s: State, fed: nat, w: nat)
      returns (es': seq<Event>, t: State)
    requires Starting(c, start) && Path(c, start, es, s) && Feeds(c, start, s, fed, w) && s.net.work == []
    requires fed + 1 < |start.books.issued| && w < c.workers
    ensures Path(c, start, es', t) && Feeds(c, start, t, fed + 1, w + 1)
    ensures t.net.work == [] && t.net.results == s.net.results
    ensures t.net.workers[w] == Delivering(SomeResult(start.process, start.store, start.books.issued[fed]))
  {
    var a := Fed(s);
    PathStep(c, start, es, s, Feed);
    var b := Taken(a, w);
    PathStep(c, start, es + [Feed], a, Take(w));
    var r := SomeResult(b.process, b.store, b.net.workers[w].item);
    t := Busy(b, w, Delivering(r));
    PathStep(c, start, es + [Feed] + [Take(w)], b, Execute(w, r));
    es' := es + [Feed] + [Take(w)] + [Execute(w, r)];
  }

  /** Fill the result channel through worker 0. */
  lemma {:induction false} FillResults(c: Config, start: State, n: nat) returns (es: seq<Event>, t: State)
    requires Starting(c, start) && n <= CAPACITY && n < |start.books.issued|
    ensures Path(c, start, es, t) && Feeds(c, start, t, n, 0) && t.net.work == [] && |t.net.results| == n
    ensures forall i | 0 <= i < n :: t.net.results[i] == SomeResult(start.process, start.store, start.books.issued[i])
  {
    if n == 0 {
      es, t := [], start;
      assert start.books.issued[0..] == start.books.issued;
    } else {
      var es0, t0 := FillResults(c, start, n - 1);
      var es1, t1 := FeedAndExecute(c, start, es0, t0, n - 1, 0);
      PathStep(c, start, es1, t1, Put(0));
      es, t := es1 + [Put(0)], Delivered(t1, 0);
    }
  }

  lemma {:induction false} FillWorkers(c: Config, start: State, w: nat) returns (es: seq<Event>, t: State)
    requires Starting(c, start) && w <= c.workers && CAPACITY + w < |start.books.issued|
    ensures Path(c, start, es, t) && Feeds(c, start, t, CAPACITY + w, w)
    ensures t.net.work == [] && |t.net.results| == CAPACITY
  {
    if w == 0 {
      es, t := FillResults(c, start, CAPACITY);
    } else {
      var es0, t0 := FillWorkers(c, start, w - 1);
      es, t := FeedAndExecute(c, start, es0, t0, CAPACITY + w - 1, w - 1);
    }
  }

  lemma {:induction false} FillWork(c: Config, start: State, n: nat) returns (es: seq<Event>, t: State)
    requires Starting(c, start) && n <= CAPACITY && CAPACITY + c.workers + n < |start.books.issued|
    ensures Path(c, start, es, t) && Feeds(c, start, t, CAPACITY + c.workers + n, c.workers)
    ensures |t.net.work| == n && |t.net.results| == CAPACITY
  {
    if n == 0 {
      es, t := FillWorkers(c, start, c.workers);
    } else {
      var es0, t0 := FillWork(c, start, n - 1);
      PathStep(c, start, es0, t0, Feed);
      es, t := es0 + [Feed], Fed(t0);
    }
  }

  /** A run that begins with 2049 + WorkerCount items or more can get stuck for good, and before the
      deadline: no later step of any kind, the deadline included, ever gets it out. */
  lemma DeadlockIsReachable(c: Config, start: State) returns (es: seq<Event>, t: State)
    requires Starting(c, start) && |start.books.issued| > 2 * CAPACITY + c.workers
    ensures Path(c, start, es, t) && t.coordinator.Feeding? && !t.expired && t.books.pending == |start.books.issued|
    ensures Stuck(c, t) && Stuck(c, t.(expired := true))
  {
    es, t := FillWork(c, start, CAPACITY);
    StartingInv(c, start);
    PathInv(c, start, es, t);
    assert Blocked(t);
    StuckExactlyWhenBlocked(c, t);
    ExpireInv(c, t);
    StuckExactlyWhenBlocked(c, t.(expired := true));
  }

  /** While the workers are awaited before the deadline, nothing enters or leaves the net. */
  lemma ShutdownStep(c: Config, s: State, e: Event)
    requires Inv(c, s) && s.coordinator.Closing? && !s.expired && Enabled(c, s, e) && e != Expire && e != AwaitWorkers
    ensures var t := Apply(c, s, e);
            t == s.(net := t.net) && (e.Take? || e.Execute? || e.Put? || e.Leave?)
  {
  }

  ghost predicate Unexpired(es: seq<Event>) { Expire !in es }

  /** After close(workCh) and before the deadline, wg.Wait never returns if more than 1024 items are
      in flight, because nobody reads the result channel any more. */
  lemma {:induction false} ShutdownHangs(c: Config, s: State, es: seq<Event>, t: State)
    requires Inv(c, s) && s.coordinator.Closing? && !s.expired && s.books.pending > CAPACITY
    requires Path(c, s, es, t) && Unexpired(es)
    ensures t.coordinator == s.coordinator
    decreases |es|
  {
    if es != [] {
      if es[0] == AwaitWorkers {
        AwaitMeansDrained(c, s);
      } else {
        assert Enabled(c, s, es[0]);
        ShutdownStep(c, s, es[0]);
        StepInv(c, s, es[0]);
        assert Unexpired(es[1..]);
        ShutdownHangs(c, Apply(c, s, es[0]), es[1..], t);
      }
    }
  }

  lemma AwaitMeansDrained(c: Config, s: State)
    requires Inv(c, s) && s.coordinator.Closing? && !s.expired && AllExited(s.net.workers)
    ensures s.books.pending <= CAPACITY
  {
    StillPending(s);
    HeldNothing(s.net.workers);
    assert s.net.workers[0] in s.net.workers;
  }

  function Stage(w: Worker): nat {
    match w case Exited => 0 case Idle => 1 case Delivering(_) => 2 case Executing(_) => 3
  }

  function Stages(ws: seq<Worker>): nat {
    if ws == [] then 0 else Stages(ws[..|ws| - 1]) + Stage(ws[|ws| - 1])
  }

  lemma {:induction false} StagesUpdate(ws: seq<Worker>, i: nat, w: Worker)
    requires i < |ws|
    ensures Stages(ws[i := w]) == Stages(ws) - Stage(ws[i]) + Stage(w)
  {
    var n, next := |ws| - 1, ws[i := w];
    if i == n {
      assert next[..n] == ws[..n];
    } else {
      StagesUpdate(ws[..n], i, w);
      assert next[..n] == ws[..n][i := w];
    }
  }

  /** What is left to do in the net: a queued item still has to be taken, executed and delivered. */
  function NetWork(n: Net): nat { 3 * |n.work| + Stages(n.workers) }

  lemma ShutdownProgress(c: Config, s: State, e: Event)
    requires Inv(c, s) && s.coordinator.Closing? && !s.expired && Enabled(c, s, e) && e != Expire && e != AwaitWorkers
    ensures NetWork(Apply(c, s, e).net) < NetWork(s.net)
  {
    ShutdownStep(c, s, e);
    match e {
      case Take(w) => StagesUpdate(s.net.workers, w, Executing(s.net.work[0]));
      case Execute(w, r) => StagesUpdate(s.net.workers, w, Delivering(r));
      case Put(w) => StagesUpdate(s.net.workers, w, Idle);
      case Leave(w) => StagesUpdate(s.net.workers, w, Exited);
    }
  }

  /** With at most 1024 items in flight shutting down always succeeds: from every state on the way
      the loop goes on to return, in at most `NetWork` + 1 steps. */
  lemma {:induction false} ShutdownReturns(c: Config, s: State) returns (es: seq<Event>, t: State)
    requires Inv(c, s) && s.coordinator.Closing? && !s.expired && s.books.pending <= CAPACITY
    ensures Path(c, s, es, t) && Unexpired(es) && t.coordinator == Returned(s.coordinator.outcome)
    ensures |es| <= NetWork(s.net) + 1
    decreases NetWork(s.net)
  {
    var e := ShutdownMove(c, s);
    var next := Apply(c, s, e);
    if e == AwaitWorkers {
      es, t := [e], next;
      assert es[1..] == [];
      assert Path(c, next, es[1..], t);
    } else {
      ShutdownStep(c, s, e);
      ShutdownProgress(c, s, e);
      StepInv(c, s, e);
      var rest;
      rest, t := ShutdownReturns(c, next);
      es := [e] + rest;
      assert es[1..] == rest;
    }
  }

  /** Shutting down before the deadline is possible if and only if the result channel can hold
      everything still in flight. */
  lemma ShutdownExactly(c: Config, s: State)
    requires Inv(c, s) && s.coordinator.Closing? && !s.expired
    ensures (exists es, t :: Path(c, s, es, t) && Unexpired(es) && t.coordinator.Returned?)
            <==> s.books.pending <= CAPACITY
  {
    if s.books.pending <= CAPACITY {
      var es, t := ShutdownReturns(c, s);
      assert Path(c, s, es, t) && Unexpired(es) && t.coordinator.Returned?;
    } else {
      forall es, t | Path(c, s, es, t) && Unexpired(es) ensures !t.coordinator.Returned? {
        ShutdownHangs(c, s, es, t);
      }
    }
  }

  lemma ShutdownMove(c: Config, s: State) returns (e: Event)
    requires Inv(c, s) && s.coordinator.Closing? && !s.expired && s.books.pending <= CAPACITY
    ensures Enabled(c, s, e) && e != Expire
  {
    if Blocked(s) {
      JammedIsHeavy(c, s);
    }
    e := UnblockedMoves(c, s);
  }

  lemma JammedIsHeavy(c: Config, s: State)
    requires Inv(c, s) && s.coordinator.Closing? && !s.expired && Blocked(s)
    ensures s.books.pending > CAPACITY
  {
    StillPending(s);
    var w :| w in s.net.workers && !w.Exited?;
    var k :| 0 <= k < |s.net.workers| && s.net.workers[k] == w;
    HeldIncludes(s.net.workers, k);
    assert |Held(s.net.workers)| >= 1 by {
      assert w.result.item in Held(s.net.workers);
    }
  }
}

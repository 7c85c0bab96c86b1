/** The safety theorems about whole runs. */
module EngineTheorems {
  import opened Bpmn
  import opened Totals
  import opened Routing
  import opened Records
  import opened Lifecycle
  import opened FailSafe
  import opened Engine
  import opened EngineSafety

  lemma {:induction false} Once(store: seq<FlowRecord>, items: seq<Item>, x: Item)
    requires Genuine(store, items)
    ensures multiset(items)[x] <= 1
  {
    if items != [] {
      var n := |items| - 1;
      assert items == items[..n] + [items[n]];
      Once(store, items[..n], x);
      assert items[n] !in items[..n];
    }
  }

  /** Exact termination detection. At every point of every run, `pending` is the number of items
      queued, executing, waiting to be read or still to be sent (plus, after the deadline, those a
      worker dropped); the loop goes on exactly while one is left, and a run that finalizes has
      handled every item it issued. */
  lemma PendingIsExact(c: Config, start: State, es: seq<Event>, s: State)
    requires Starting(c, start) && Path(c, start, es, s)
    ensures multiset(s.books.issued) == multiset(s.books.handled) + InFlight(s) + s.books.dropped
    ensures s.books.pending == |InFlight(s)| + |s.books.dropped|
    ensures s.coordinator.Selecting? ==> s.books.pending > 0
    ensures s.coordinator in {Closing(Finalized), Returned(Finalized)} ==>
              multiset(s.books.handled) == multiset(s.books.issued)
  {
    StartingInv(c, start);
    PathInv(c, start, es, s);
    StillPending(s);
    if s.books.pending == 0 {
      NothingPending(s);
    }
  }

  /** No flow record is ever handled twice. */
  lemma HandledAtMostOnce(c: Config, start: State, es: seq<Event>, s: State, i: nat, j: nat)
    requires Starting(c, start) && Path(c, start, es, s)
    requires i < j < |s.books.handled|
    ensures s.books.handled[i].record != s.books.handled[j].record
  {
    StartingInv(c, start);
    PathInv(c, start, es, s);
    HandledWasIssued(s, i);
    HandledWasIssued(s, j);
    Once(s.store, s.books.issued, s.books.handled[i]);
    assert s.books.handled[i] != s.books.handled[j] by {
      assert multiset(s.books.handled)[s.books.handled[i]] <= 1;
      if s.books.handled[i] == s.books.handled[j] {
        Twice(s.books.handled, i, j);
      }
    }
  }

  lemma HandledWasIssued(s: State, i: nat)
    requires Conserved(s) && i < |s.books.handled|
    ensures s.books.handled[i] in s.books.issued
  {
    assert s.books.handled[i] in multiset(s.books.handled);
    assert multiset(s.books.handled)[s.books.handled[i]] <= multiset(s.books.issued)[s.books.handled[i]];
  }

  /** No send meets a closed channel: close(resultCh) comes only after every worker has left for good,
      so none is about to put a result. That the coordinator itself sends and receives only while the
      channels are open is how closing is modelled, and not a result. */
  lemma ClosedChannelsAreQuiet(c: Config, start: State, es: seq<Event>, s: State, e: Event)
    requires Starting(c, start) && Path(c, start, es, s) && Ready(s, e)
    ensures e.Put? || e.Receive? ==> !ResultClosed(s.coordinator)
    ensures e.Feed? || e.Send? ==> !WorkClosed(s.coordinator)
    ensures ResultClosed(s.coordinator) ==> forall w | w in s.net.workers :: w.Exited?
  {
    StartingInv(c, start);
    PathInv(c, start, es, s);
    if e.Put? {
      assert s.net.workers[e.w] in s.net.workers;
    }
  }

  /** At most two transitions succeed in a run; it ends COMPLETED exactly when the first one was an
      end event completing it; and TryComplete reports success exactly then. */
  lemma StateDiscipline(c: Config, start: State, es: seq<Event>, s: State)
    requires Starting(c, start) && Path(c, start, es, s)
    ensures |s.instance.trail| <= 2
    ensures s.instance.life.status == Completed <==> s.instance.trail != [] && s.instance.trail[0] == Completed
    ensures s.instance.life.completedOk <==> s.instance.life.status == Completed
    ensures |s.instance.trail| == 2 ==> s.instance.trail[0] == Waiting && s.instance.trail[1] in {Failed, Terminated}
    ensures s.instance.life.status == if s.instance.trail == [] then InProgress
                                      else s.instance.trail[|s.instance.trail| - 1]
  {
    StartingInv(c, start);
    PathInv(c, start, es, s);
  }

  /** Once a run has waited it cannot complete any more; once it has completed, failed or been
      terminated its state stays. */
  lemma {:induction false} StateStays(c: Config, s: State, es: seq<Event>, t: State)
    requires Inv(c, s) && Path(c, s, es, t)
    ensures s.instance.life.status in {Completed, Failed, Terminated} ==>
              t.instance.life.status == s.instance.life.status
    ensures s.instance.life.status == Waiting ==> t.instance.life.status in {Waiting, Failed, Terminated}
    decreases |es|
  {
    if es != [] {
      var mid := Apply(c, s, es[0]);
      StepInv(c, s, es[0]);
      StepStays(c, s, es[0]);
      StateStays(c, mid, es[1..], t);
    }
  }

  predicate Settles(before: Status, after: Status) {
    && (before in {Completed, Failed, Terminated} ==> after == before)
    && (before == Waiting ==> after in {Waiting, Failed, Terminated})
  }

  lemma ReplyStays(s: State, current: Item, reply: Reply)
    requires Disciplined(s.instance)
    requires reply.change.To? ==>
               reply.change.status in {Waiting, Failed, Terminated}
               && reply.change.status in Allowed(s.instance.life.status)
    ensures Settles(s.instance.life.status, Carried(s, current, reply).instance.life.status)
  {
  }

  lemma ReceiveStays(c: Config, s: State, late: bool, pick: Pick)
    requires Disciplined(s.instance) && s.net.results != []
    ensures Settles(s.instance.life.status, Received(c, s, late, pick).instance.life.status)
  {
    var r := s.net.results[0];
    RespondChanges(c, s.process, s.instance.life.status, r, pick);
    ReplyStays(Counting(s, late), r.item, Respond(c, s.process, s.instance.life.status, r, pick));
  }

  lemma StepStays(c: Config, s: State, e: Event)
    requires Disciplined(s.instance) && Ready(s, e)
    ensures Settles(s.instance.life.status, Apply(c, s, e).instance.life.status)
  {
    if e.Receive? {
      ReceiveStays(c, s, e.late, e.pick);
    }
  }

  lemma ErrorsRead(k: Case)
    requires Disciplined(k)
    ensures k.errors <= 1 && (Failed in Allowed(k.life.status) ==> k.errors == 0)
  {
  }

  /** errCh: a handler only ever puts an error into an empty channel, so with room for one error
      per worker the send cannot block. */
  lemma ErrorChannelNeverBlocks(c: Config, start: State, es: seq<Event>, s: State, r: Result, pick: Pick)
    requires Starting(c, start) && Path(c, start, es, s)
    ensures s.instance.errors <= 1 <= c.workers
    ensures var reply := Respond(c, s.process, s.instance.life.status, r, pick);
            reply.uncaught || reply.exit == Report ==> s.instance.errors == 0
  {
    StartingInv(c, start);
    PathInv(c, start, es, s);
    RespondChanges(c, s.process, s.instance.life.status, r, pick);
    ErrorsRead(s.instance);
  }
}

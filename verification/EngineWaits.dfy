/** How many results that ask to wait a run can survive: one, and none if it completes. */
module EngineWaits {
  import opened Bpmn
  import opened Routing
  import opened Records
  import opened Lifecycle
  import opened FailSafe
  import opened Engine
  import opened EngineSafety

  /** The two actions the handler answers by making the instance wait. */
  predicate IsWait(r: Result) { r.action in {Wait, Form} }

  predicate AsksToWait(e: Event) { e.Execute? && IsWait(e.result) }

  /** Executions that ask to wait. */
  function Waits(es: seq<Event>): nat {
    if es == [] then 0 else (if AsksToWait(es[0]) then 1 else 0) + Waits(es[1..])
  }

  function Waiters(rs: seq<Result>): nat {
    if rs == [] then 0 else Waiters(rs[..|rs| - 1]) + if IsWait(rs[|rs| - 1]) then 1 else 0
  }

  function Holding(w: Worker): nat { if w.Delivering? && IsWait(w.result) then 1 else 0 }

  function HeldWaits(ws: seq<Worker>): nat {
    if ws == [] then 0 else HeldWaits(ws[..|ws| - 1]) + Holding(ws[|ws| - 1])
  }

  /** Such results not yet received. */
  function Unreceived(n: Net): nat { Waiters(n.results) + HeldWaits(n.workers) }

  /** Has the instance gone to wait? */
  function HasWaited(k: Case): nat { if k.trail != [] && k.trail[0] == Waiting then 1 else 0 }

  lemma {:induction false} WaitersFront(rs: seq<Result>)
    requires rs != []
    ensures Waiters(rs) == (if IsWait(rs[0]) then 1 else 0) + Waiters(rs[1..])
  {
    if |rs| > 1 {
      WaitersFront(rs[..|rs| - 1]);
      assert rs[1..][..|rs| - 2] == rs[..|rs| - 1][1..];
    } else {
      assert rs[..0] == [] && rs[1..] == [];
    }
  }

  lemma {:induction false} HoldingUpdate(ws: seq<Worker>, i: nat, w: Worker)
    requires i < |ws|
    ensures HeldWaits(ws[i := w]) + Holding(ws[i]) == HeldWaits(ws) + Holding(w)
  {
    var n, next := |ws| - 1, ws[i := w];
    if i == n {
      assert next[..n] == ws[..n];
    } else {
      HoldingUpdate(ws[..n], i, w);
      assert next[..n] == ws[..n][i := w];
    }
  }

  /** Handling a wait either moves an instance that has not waited yet, or ends the run. */
  lemma WaitHandled(c: Config, s: State, late: bool, pick: Pick)
    requires Disciplined(s.instance) && s.coordinator.Selecting? && s.net.results != []
    requires Undisturbed(Received(c, s, late, pick).coordinator)
    ensures var t := Received(c, s, late, pick);
            && HasWaited(s.instance) + (if IsWait(s.net.results[0]) then 1 else 0) <= HasWaited(t.instance)
            && t.net == s.net.(results := s.net.results[1..])
  {
    RespondChanges(c, s.process, s.instance.life.status, s.net.results[0], pick);
  }

  lemma StepWaits(c: Config, s: State, e: Event)
    requires Disciplined(s.instance) && Ready(s, e) && Undisturbed(Apply(c, s, e).coordinator)
    ensures var t := Apply(c, s, e);
            (if AsksToWait(e) then 1 else 0) + Unreceived(s.net) + HasWaited(s.instance)
            <= Unreceived(t.net) + HasWaited(t.instance)
  {
    match e {
      case Receive(late, pick) =>
        WaitHandled(c, s, late, pick);
        WaitersFront(s.net.results);
      case Take(w) =>
        HoldingUpdate(s.net.workers, w, Exited);
        HoldingUpdate(s.net.workers, w, Executing(s.net.work[0]));
      case Execute(w, r) => HoldingUpdate(s.net.workers, w, Delivering(r));
      case Put(w) => HoldingUpdate(s.net.workers, w, Idle);
      case Leave(w) => HoldingUpdate(s.net.workers, w, Exited);
      case _ =>
    }
  }

  lemma {:induction false} PathWaits(c: Config, s: State, es: seq<Event>, t: State)
    requires Inv(c, s) && Path(c, s, es, t) && Undisturbed(t.coordinator)
    ensures Waits(es) + Unreceived(s.net) + HasWaited(s.instance) <= Unreceived(t.net) + HasWaited(t.instance)
    decreases |es|
  {
    if es != [] {
      var mid := Apply(c, s, es[0]);
      DisturbedStays(c, mid, es[1..], t);
      StepWaits(c, s, es[0]);
      StepInv(c, s, es[0]);
      PathWaits(c, mid, es[1..], t);
    }
  }

  lemma {:induction false} NothingDelivering(ws: seq<Worker>)
    requires forall w | w in ws :: !w.Delivering?
    ensures HeldWaits(ws) == 0
  {
    if ws != [] {
      NothingDelivering(ws[..|ws| - 1]);
      assert ws[|ws| - 1] in ws;
    }
  }

  lemma NothingUnreceived(s: State)
    requires Conserved(s) && s.books.pending == 0
    ensures Unreceived(s.net) == 0
  {
    StillPending(s);
    assert |InFlight(s)| == 0;
    assert |ItemsOf(s.net.results)| == |multiset(ItemsOf(s.net.results))| == 0;
    forall w | w in s.net.workers ensures !w.Delivering? {
      var k :| 0 <= k < |s.net.workers| && s.net.workers[k] == w;
      HeldIncludes(s.net.workers, k);
    }
    NothingDelivering(s.net.workers);
  }

  /** A run that handles everything has had one execution, of whatever element, that asked to wait or to
      show a form, and none if it completes. */
  lemma AtMostOneWait(c: Config, start: State, es: seq<Event>, s: State)
    requires Starting(c, start) && Path(c, start, es, s) && IsFinalized(s.coordinator)
    ensures Waits(es) <= 1 && (s.instance.life.status == Completed ==> Waits(es) == 0)
  {
    StartingInv(c, start);
    PathInv(c, start, es, s);
    PathWaits(c, start, es, s);
    NothingUnreceived(s);
  }
}

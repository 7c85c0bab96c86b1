/** The loop and time guard consulted before every result is handled. */
module FailSafe {
  import opened Bpmn
  import opened Totals

  datatype Verdict = Fine | TooLate | LoopLimit(element: Id, count: nat)

  datatype Tally = Tally(counts: map<Id, nat>, total: nat)

  const EmptyTally := Tally(map[], 0)

  function CountOf(t: Tally, e: Id): nat { if e in t.counts then t.counts[e] else 0 }

  function Counted(t: Tally, e: Id): Tally {
    if e == "" then t else Tally(t.counts[e := CountOf(t, e) + 1], t.total + 1)
  }

  function Judge(t: Tally, e: Id, late: bool, maxLoops: nat): Verdict {
    if late then TooLate
    else if e == "" || CountOf(Counted(t, e), e) <= maxLoops then Fine
    else LoopLimit(e, CountOf(Counted(t, e), e))
  }

  class FailSafeManager {
    const maxLoops: nat
    var counts: map<Id, nat>
    var total: nat

    ghost function Now(): Tally reads this { Tally(counts, total) }

    constructor (limit: nat)
      ensures maxLoops == limit && Now() == EmptyTally
    {
      maxLoops, counts, total := limit, map[], 0;
    }

    /** `late` is the answer of the clock comparison in checkTimeout. */
    method Check(element: Id, late: bool) returns (verdict: Verdict)
      modifies this
      ensures verdict == Judge(old(Now()), element, late, maxLoops)
      ensures Now() == if late then old(Now()) else Counted(old(Now()), element)
      ensures verdict == TooLate <==> late
    {
      if late {
        return TooLate;
      }
      if element == "" {
        return Fine;
      }
      var count := if element in counts then counts[element] + 1 else 1;
      counts := counts[element := count];
      total := total + 1;
      if count > maxLoops {
        return LoopLimit(element, count);
      }
      return Fine;
    }
  }

  function CountAll(t: Tally, es: seq<Id>): Tally {
    if es == [] then t else Counted(CountAll(t, es[..|es| - 1]), es[|es| - 1])
  }

  /** Does the check of some element of `es` report the loop limit? */
  predicate Trips(es: seq<Id>, maxLoops: nat) {
    exists n | 0 <= n < |es| ::
      Judge(CountAll(EmptyTally, es[..n]), es[n], false, maxLoops).LoopLimit?
  }

  lemma {:induction false} CountsAreMultiplicities(es: seq<Id>, e: Id)
    ensures CountOf(CountAll(EmptyTally, es), e) == if e == "" then 0 else multiset(es)[e]
  {
    if es != [] {
      CountsAreMultiplicities(es[..|es| - 1], e);
      assert es == es[..|es| - 1] + [es[|es| - 1]];
    }
  }

  /** TotalExecutions is the sum of the per-element counts. */
  lemma {:induction false} TotalIsSum(es: seq<Id>)
    ensures CountAll(EmptyTally, es).total == Total(CountAll(EmptyTally, es).counts)
  {
    if es != [] {
      var before, e := CountAll(EmptyTally, es[..|es| - 1]), es[|es| - 1];
      TotalIsSum(es[..|es| - 1]);
      var after := Counted(before, e);
      if e != "" {
        TotalSplit(after.counts, e);
        assert after.counts - {e} == before.counts - {e};
        if e in before.counts {
          TotalSplit(before.counts, e);
        } else {
          assert before.counts - {e} == before.counts;
        }
      }
    }
  }

  /** The guard trips exactly when some element with an id has been seen too often. */
  lemma TripsExactlyAboveLimit(es: seq<Id>, maxLoops: nat)
    ensures Trips(es, maxLoops) <==> exists e :: e != "" && multiset(es)[e] > maxLoops
  {
    if Trips(es, maxLoops) {
      var n :| 0 <= n < |es| && Judge(CountAll(EmptyTally, es[..n]), es[n], false, maxLoops).LoopLimit?;
      TrippedAbove(es, n, maxLoops);
    }
    if e :| e != "" && multiset(es)[e] > maxLoops {
      CrossesLimit(es, e, maxLoops);
    }
  }

  lemma TrippedAbove(es: seq<Id>, n: nat, maxLoops: nat)
    requires n < |es| && Judge(CountAll(EmptyTally, es[..n]), es[n], false, maxLoops).LoopLimit?
    ensures es[n] != "" && multiset(es)[es[n]] > maxLoops
  {
    CountsAreMultiplicities(es[..n], es[n]);
    assert es == es[..n] + [es[n]] + es[n + 1..];
  }

  lemma {:induction false} CrossesLimit(es: seq<Id>, e: Id, maxLoops: nat)
    requires e != "" && multiset(es)[e] > maxLoops
    ensures Trips(es, maxLoops)
  {
    var front, last := es[..|es| - 1], es[|es| - 1];
    assert es == front + [last];
    if multiset(front)[e] > maxLoops {
      CrossesLimit(front, e, maxLoops);
      var n :| 0 <= n < |front| && Judge(CountAll(EmptyTally, front[..n]), front[n], false, maxLoops).LoopLimit?;
      assert front[..n] == es[..n];
    } else {
      CountsAreMultiplicities(front, e);
      assert es[..|es| - 1] == front;
      assert Judge(CountAll(EmptyTally, es[..|es| - 1]), es[|es| - 1], false, maxLoops).LoopLimit?;
    }
  }

  /** What a check reports after a history of checks: the loop limit exactly when the element now has been seen
      more often than it allows, with how often. */
  lemma VerdictCounts(es: seq<Id>, e: Id, maxLoops: nat)
    ensures var seen := multiset(es + [e])[e];
            Judge(CountAll(EmptyTally, es), e, false, maxLoops)
            == if e != "" && seen > maxLoops then LoopLimit(e, seen) else Fine
  {
    CountsAreMultiplicities(es, e);
  }
}

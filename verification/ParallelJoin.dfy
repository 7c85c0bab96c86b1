/** The parallel gateway: its decision on stored records, and what that decision amounts to
    when arrivals are recorded and executed in any interleaving. */
module ParallelJoin {
  import opened Bpmn
  import opened Totals
  import opened Routing
  import opened Records

  function JoinOpen(p: Process, g: Id, store: seq<FlowRecord>): bool
    requires g in p.elements
  {
    ArrivalsAt(store, g) >= |p.elements[g].incoming|
  }

  /** Does the gateway wait for its incoming flows at all? */
  predicate Synchronises(el: Element) {
    match el.direction
    case Converging => true
    case Diverging => false
    case _ => |el.outgoing| <= 1 && |el.incoming| > 1
  }

  function Decision(p: Process, g: Id, store: seq<FlowRecord>): Action {
    if g !in p.elements then Error
    else if Synchronises(p.elements[g]) && !JoinOpen(p, g, store) then Wait
    else Route
  }

  method AreAllIncomingComplete(p: Process, g: Id, store: seq<FlowRecord>) returns (complete: bool)
    ensures complete <==> g in p.elements && JoinOpen(p, g, store)
  {
    if g !in p.elements {
      return false;
    }
    var arrived := 0;
    for i := 0 to |store|
      invariant arrived == ArrivalsAt(store[..i], g)
    {
      assert store[..i + 1][..i] == store[..i];
      if store[i].element == g {
        arrived := arrived + 1;
      }
    }
    assert store[..|store|] == store;
    return arrived >= |p.elements[g].incoming|;
  }

  method Execute(p: Process, g: Id, store: seq<FlowRecord>) returns (action: Action)
    ensures action == Decision(p, g, store) && (action == Error <==> g !in p.elements) && action in {Error, Wait, Route}
    ensures g in p.elements ==>
              (action == Wait <==>
                 && (p.elements[g].direction == Converging
                     || (p.elements[g].direction in {Unspecified, Mixed}
                         && |p.elements[g].outgoing| <= 1 && |p.elements[g].incoming| > 1))
                 && ArrivalsAt(store, g) < |p.elements[g].incoming|)
  {
    if g !in p.elements {
      return Error;
    }
    var el := p.elements[g];
    match el.direction {
      case Diverging => return Route;
      case Converging =>
        var complete := AreAllIncomingComplete(p, g, store);
        return if complete then Route else Wait;
      case _ =>
    }
    if |el.outgoing| > 1 {
      return Route;
    }
    if |el.incoming| > 1 {
      var complete := AreAllIncomingComplete(p, g, store);
      if !complete {
        return Wait;
      }
    }
    return Route;
  }

  /** One gateway seen alone: its arrivals are recorded one by one and each is executed later.
      Arrivals are numbered in the order of their records. */
  datatype Event = Arrive | Exec(i: nat)

  datatype Join = Join(created: nat, done: set<nat>, fired: set<nat>)

  predicate Enabled(j: Join, e: Event) {
    e.Exec? ==> e.i < j.created && e.i !in j.done
  }

  function Step(j: Join, e: Event, need: nat): Join {
    match e
    case Arrive => j.(created := j.created + 1)
    case Exec(i) => j.(done := j.done + {i}, fired := if j.created >= need then j.fired + {i} else j.fired)
  }

  predicate Legal(j: Join, es: seq<Event>, need: nat)
    decreases |es|
  {
    es == [] || (Enabled(j, es[0]) && Legal(Step(j, es[0], need), es[1..], need))
  }

  function After(j: Join, es: seq<Event>, need: nat): Join
    decreases |es|
  {
    if es == [] then j else After(Step(j, es[0], need), es[1..], need)
  }

  const Untouched := Join(0, {}, {})

  function UpTo(n: nat): (s: set<nat>)
    ensures forall i: nat :: i in s <==> i < n
  {
    if n == 0 then {} else UpTo(n - 1) + {n - 1}
  }

  lemma {:induction false} UpToSize(n: nat)
    ensures |UpTo(n)| == n
  {
    if n > 0 {
      UpToSize(n - 1);
      assert UpTo(n) == UpTo(n - 1) + {n - 1};
    }
  }

  /** What holds of the join after any history. Executed arrivals with number `need - 1` or more
      have all fired; none has fired before `need` records existed. */
  ghost predicate Sound(j: Join, need: nat) {
    && j.done <= UpTo(j.created)
    && j.fired <= j.done
    && (j.created < need ==> j.fired == {})
    && (forall i | i in j.done && i + 1 >= need :: i in j.fired)
  }

  lemma {:induction false} SoundAlways(j: Join, es: seq<Event>, need: nat)
    requires Sound(j, need) && Legal(j, es, need)
    ensures Sound(After(j, es, need), need)
    ensures After(j, es, need).created >= j.created && After(j, es, need).fired >= j.fired
    decreases |es|
  {
    if es != [] {
      SoundAlways(Step(j, es[0], need), es[1..], need);
    }
  }

  /** Once `need` records exist the gate stays open: everything executed from then on fires. */
  lemma {:induction false} StaysOpen(j: Join, es: seq<Event>, need: nat)
    requires Sound(j, need) && Legal(j, es, need) && j.created >= need
    ensures After(j, es, need).fired == j.fired + (After(j, es, need).done - j.done)
    ensures After(j, es, need).done >= j.done
    decreases |es|
  {
    if es != [] {
      StaysOpen(Step(j, es[0], need), es[1..], need);
    }
  }

  /** Gateways without incoming flows behave like those with one. */
  function AtLeastOne(need: nat): nat { if need == 0 then 1 else need }

  /** All of `arrivals` recorded and executed, in whatever interleaving: the join fires not at all
      if there are too few, and otherwise at least `arrivals - need + 1` times. */
  lemma Firings(es: seq<Event>, need: nat, arrivals: nat)
    requires Complete(es, need, arrivals)
    ensures var fired := |After(Untouched, es, need).fired|;
            if arrivals < AtLeastOne(need) then fired == 0
            else arrivals - AtLeastOne(need) + 1 <= fired <= arrivals
  {
    SoundAlways(Untouched, es, need);
    var j := After(Untouched, es, need);
    UpToSize(arrivals);
    SubsetSize(j.fired, UpTo(arrivals));
    if arrivals >= AtLeastOne(need) {
      var early := UpTo(AtLeastOne(need) - 1);
      UpToSize(AtLeastOne(need) - 1);
      SubsetSize(UpTo(arrivals) - early, j.fired);
      assert UpTo(arrivals) == early + (UpTo(arrivals) - early);
    }
  }

  function Repeat(n: nat): seq<Event> { if n == 0 then [] else [Arrive] + Repeat(n - 1) }

  function OneByOne(from: nat, n: nat): seq<Event>
    decreases n
  {
    if n == 0 then [] else [Arrive, Exec(from)] + OneByOne(from + 1, n - 1)
  }

  function ExecAll(from: nat, n: nat): seq<Event>
    decreases n
  {
    if n == 0 then [] else [Exec(from)] + ExecAll(from + 1, n - 1)
  }

  /** The schedule that executes the first `early` arrivals at once and the others at the end. */
  function Schedule(early: nat, arrivals: nat): seq<Event>
    requires early <= arrivals
  {
    OneByOne(0, early) + Repeat(arrivals - early) + ExecAll(early, arrivals - early)
  }

  lemma {:induction false} AfterConcat(j: Join, a: seq<Event>, b: seq<Event>, need: nat)
    ensures After(j, a + b, need) == After(After(j, a, need), b, need)
    ensures Legal(j, a + b, need) <==> Legal(j, a, need) && Legal(After(j, a, need), b, need)
    decreases |a|
  {
    if a == [] {
      assert a + b == b;
    } else {
      AfterConcat(Step(j, a[0], need), a[1..], b, need);
      assert (a + b)[1..] == a[1..] + b;
    }
  }

  lemma {:induction false} RunOneByOne(from: nat, n: nat, need: nat)
    requires from + n < AtLeastOne(need)
    ensures var j, es := Join(from, UpTo(from), {}), OneByOne(from, n);
            Legal(j, es, need) && After(j, es, need) == Join(from + n, UpTo(from + n), {})
    decreases n
  {
    if n > 0 {
      RunOneByOne(from + 1, n - 1, need);
      var j, es := Join(from, UpTo(from), {}), OneByOne(from, n);
      assert UpTo(from) + {from} == UpTo(from + 1);
      assert es[1..][1..] == OneByOne(from + 1, n - 1);
      assert Step(Step(j, es[0], need), es[1..][0], need) == Join(from + 1, UpTo(from + 1), {});
    }
  }

  lemma {:induction false} RunRepeat(j: Join, n: nat, need: nat)
    ensures Legal(j, Repeat(n), need) && After(j, Repeat(n), need) == j.(created := j.created + n)
    decreases n
  {
    if n > 0 {
      RunRepeat(Step(j, Arrive, need), n - 1, need);
    }
  }

  lemma {:induction false} RunExecAll(j: Join, from: nat, n: nat, need: nat)
    requires j.created == from + n && j.done == UpTo(from) && j.created >= need
    ensures Legal(j, ExecAll(from, n), need)
    ensures After(j, ExecAll(from, n), need) == Join(j.created, UpTo(from + n), j.fired + (UpTo(from + n) - UpTo(from)))
    decreases n
  {
    if n > 0 {
      assert UpTo(from) + {from} == UpTo(from + 1);
      RunExecAll(Step(j, Exec(from), need), from + 1, n - 1, need);
      assert j.fired + {from} + (UpTo(from + n) - UpTo(from + 1)) == j.fired + (UpTo(from + n) - UpTo(from));
    } else {
      assert j.fired + (UpTo(from + n) - UpTo(from)) == j.fired;
    }
  }

  lemma RunSchedule(need: nat, early: nat, arrivals: nat)
    requires early < AtLeastOne(need) <= arrivals
    ensures Legal(Untouched, Schedule(early, arrivals), need)
    ensures After(Untouched, Schedule(early, arrivals), need)
            == Join(arrivals, UpTo(arrivals), UpTo(arrivals) - UpTo(early))
  {
    var late := arrivals - early;
    var a, b, c := OneByOne(0, early), Repeat(late), ExecAll(early, late);
    var j, k := Join(early, UpTo(early), {}), Join(arrivals, UpTo(early), {});
    assert Legal(Untouched, a, need) && After(Untouched, a, need) == j by {
      RunOneByOne(0, early, need);
    }
    assert Legal(Untouched, a + b, need) && After(Untouched, a + b, need) == k by {
      RunRepeat(j, late, need);
      AfterConcat(Untouched, a, b, need);
    }
    RunExecAll(k, early, late, need);
    AfterConcat(Untouched, a + b, c, need);
  }

  ghost predicate Complete(es: seq<Event>, need: nat, arrivals: nat) {
    && Legal(Untouched, es, need)
    && After(Untouched, es, need).created == arrivals
    && After(Untouched, es, need).done == UpTo(arrivals)
  }

  lemma CompleteBy(es: seq<Event>, need: nat, early: nat, arrivals: nat)
    requires early <= arrivals && Legal(Untouched, es, need)
    requires After(Untouched, es, need) == Join(arrivals, UpTo(arrivals), UpTo(arrivals) - UpTo(early))
    ensures Complete(es, need, arrivals) && |After(Untouched, es, need).fired| == arrivals - early
  {
    GapSize(early, arrivals);
  }

  lemma SomeSchedule(need: nat, early: nat, arrivals: nat) returns (es: seq<Event>)
    requires early < AtLeastOne(need) <= arrivals
    ensures Legal(Untouched, es, need)
    ensures After(Untouched, es, need) == Join(arrivals, UpTo(arrivals), UpTo(arrivals) - UpTo(early))
  {
    es := Schedule(early, arrivals);
    RunSchedule(need, early, arrivals);
  }

  /** Every number of firings the bounds allow really happens under some interleaving. */
  lemma EveryCountOccurs(need: nat, arrivals: nat, firings: nat)
    requires arrivals - AtLeastOne(need) + 1 <= firings <= arrivals && AtLeastOne(need) <= arrivals
    ensures exists es :: Complete(es, need, arrivals) && |After(Untouched, es, need).fired| == firings
  {
    var es := SomeSchedule(need, arrivals - firings, arrivals);
    CompleteBy(es, need, arrivals - firings, arrivals);
  }

  lemma GapSize(a: nat, b: nat)
    requires a <= b
    ensures |UpTo(b) - UpTo(a)| == b - a
  {
    UpToSize(a);
    UpToSize(b);
    assert UpTo(b) == UpTo(a) + (UpTo(b) - UpTo(a));
  }

  /** "A join fires exactly once" holds under every interleaving only when one arrival is all
      there is and all that is needed. */
  lemma FiresExactlyOnce(need: nat, arrivals: nat)
    ensures (forall es | Complete(es, need, arrivals) :: |After(Untouched, es, need).fired| == 1)
            <==> arrivals == 1 && need <= 1
  {
    if arrivals == 1 && need <= 1 {
      forall es | Complete(es, need, arrivals) ensures |After(Untouched, es, need).fired| == 1 {
        Firings(es, need, arrivals);
      }
    } else if arrivals < AtLeastOne(need) {
      RunOneByOne(0, arrivals, need);
      assert UpTo(0) == {};
      assert Complete(OneByOne(0, arrivals), need, arrivals);
    } else {
      EveryCountOccurs(need, arrivals, arrivals);
    }
  }
}

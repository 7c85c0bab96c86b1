/** Runs through flattened sub-processes: how many tokens each element there handles, and which joins
    open. */
module InnerRuns {
  import opened Bpmn
  import opened Routing
  import opened Records
  import opened Strings
  import opened Prefixing
  import opened Wiring
  import opened Reification
  import opened SubProcesses
  import opened Embedding
  import opened Documents
  import opened DocumentTheorems
  import opened Duplication
  import opened ParsedFiles
  import opened Engine
  import opened EngineTokens
  import opened EngineArrivals
  import opened EngineHistory
  import opened EngineJoin
  import opened InnerTokens
  import ParallelJoin

  /** Handled results of the inner element `n` of the sub-process `sub`. */
  function PassedAt(s: State, sub: Id, n: Id): nat { Passed(s.books.handled, {Within(sub) + n}) }

  function StartedAt(s: State, sub: Id, n: Id): nat { Passed(s.books.issued, {Within(sub) + n}) }

  /** Handled results of the inner flows that aim at `n`. */
  function PassedInto(s: State, sub: Id, p0: Process, n: Id): nat {
    Passed(s.books.handled, FlowsInto(Within(sub), p0, n))
  }

  /** A run of the parsed file, undisturbed and with nothing left to enqueue. */
  ghost predicate RunOf(c: Config, start: State, es: seq<Event>, s: State, x: Process) {
    && c.library == map[] && start.process == x
    && Starting(c, start) && Path(c, start, es, s)
    && Undisturbed(s.coordinator) && Todo(s.coordinator) == []
  }

  /** Results of inner nodes of these kinds enqueue it by routing alone. */
  predicate RoutedKind(k: ElementType) { k !in {ErrorCatch, TimerEvent, MessageCatch} }

  lemma KindWithin(doc: seq<FlowElement>, subs: seq<SubParse>, w: Process, x: Process, k: nat, n: Id)
    requires Inside(doc, subs, w, x, k)
    ensures KindOf(x, Within(doc[k].id) + n) == KindOf(subs[k].inner, n)
  {
    FileEstablishes(doc, subs, w, x, k);
    KindInside(Assembled(doc, subs), w, x, Within(doc[k].id), subs[k].inner, n);
  }

  /** How many records an inner node has, at any point of any run. */
  lemma NodeArrivals(doc: seq<FlowElement>, subs: seq<SubParse>, w: Process, x: Process, k: nat, w0: Process, n: Id,
                     c: Config, start: State, es: seq<Event>, s: State)
    requires Setting(doc, subs, w, x, k, w0) && RunOf(c, start, es, s, x)
    requires n != subs[k].inner.start && KindOf(subs[k].inner, n) != SequenceFlow
    requires RoutedKind(KindOf(subs[k].inner, n))
    ensures var sub, p0 := doc[k].id, Loaded(doc[k].inner.value);
            ArrivalsAt(s.store, Within(sub) + n) == ArrivalsAt(start.store, Within(sub) + n)
               + 2 * PassedInto(s, sub, p0, n)
  {
    KindWithin(doc, subs, w, x, k, n);
    NodeFed(doc, subs, w, x, k, w0, n);
    ArrivalsPerFeeder(c, start, es, s, Within(doc[k].id) + n,
                      FlowsInto(Within(doc[k].id), Loaded(doc[k].inner.value), n), 2);
  }

  /** Inner nodes double: in a finalized run a node handles two tokens for each one its incoming flows
      handled. */
  lemma NodesDouble(doc: seq<FlowElement>, subs: seq<SubParse>, w: Process, x: Process, k: nat, w0: Process, n: Id,
                    c: Config, start: State, es: seq<Event>, s: State)
    requires Setting(doc, subs, w, x, k, w0) && RunOf(c, start, es, s, x) && IsFinalized(s.coordinator)
    requires n != subs[k].inner.start && KindOf(subs[k].inner, n) != SequenceFlow
    requires RoutedKind(KindOf(subs[k].inner, n))
    ensures var sub, p0 := doc[k].id, Loaded(doc[k].inner.value);
            PassedAt(s, sub, n) == StartedAt(start, sub, n) + 2 * PassedInto(s, sub, p0, n)
  {
    KindWithin(doc, subs, w, x, k, n);
    NodeFed(doc, subs, w, x, k, w0, n);
    TokensConserved(c, start, es, s, Within(doc[k].id) + n,
                    FlowsInto(Within(doc[k].id), Loaded(doc[k].inner.value), n), 2);
  }

  /** Start events, and forks declared diverging. */
  predicate Forks(s: Process, n: Id) {
    n in s.elements && (s.elements[n].kind == StartEvent
                        || (s.elements[n].kind == ParallelGateway && s.elements[n].direction == Diverging))
  }

  lemma ForksForward(doc: seq<FlowElement>, subs: seq<SubParse>, w: Process, x: Process, k: nat, w0: Process, n: Id)
    requires Setting(doc, subs, w, x, k, w0) && Forks(subs[k].inner, n)
    ensures ForwardsAll(x, Within(doc[k].id) + n)
  {
    KindWithin(doc, subs, w, x, k, n);
    DirectionWithin(doc, subs, w, x, k, w0, n);
  }

  lemma DirectionWithin(doc: seq<FlowElement>, subs: seq<SubParse>, w: Process, x: Process, k: nat, w0: Process, n: Id)
    requires Setting(doc, subs, w, x, k, w0) && n in subs[k].inner.elements && KindOf(subs[k].inner, n) != EndEvent
    ensures var c := Within(doc[k].id) + n;
            c in x.elements && x.elements[c].direction == subs[k].inner.elements[n].direction
  {
    FileFinished(doc, subs, w, x);
    FileContains(doc, subs, k);
    GateIsNoEnd(doc, subs, w, x, k, n);
    InsideUnclosed(doc, subs, k, n);
    DirectionKept(Loaded(doc[k].inner.value), w0, Assembled(doc, subs), w, x, doc[k].id, n);
  }

  /** Each flow out of an inner start event or fork handles one token for each one handled there. */
  lemma FlowsFollow(doc: seq<FlowElement>, subs: seq<SubParse>, w: Process, x: Process, k: nat, w0: Process, f: Id,
                    c: Config, start: State, es: seq<Event>, s: State)
    requires Setting(doc, subs, w, x, k, w0) && RunOf(c, start, es, s, x) && IsFinalized(s.coordinator)
    requires f in Loaded(doc[k].inner.value).flows
    requires Forks(subs[k].inner, Loaded(doc[k].inner.value).flows[f].source)
    ensures var sub, src := doc[k].id, Loaded(doc[k].inner.value).flows[f].source;
            PassedAt(s, sub, f) == StartedAt(start, sub, f) + PassedAt(s, sub, src)
  {
    ForksForward(doc, subs, w, x, k, w0, Loaded(doc[k].inner.value).flows[f].source);
    StartIsNoFlow(doc[k].inner.value, f);
    FlowFed(doc, subs, w, x, k, w0, f);
    FlowKinds(doc, subs, w, x, k, w0, f);
    TokensConserved(c, start, es, s, Within(doc[k].id) + f,
                    {Within(doc[k].id) + Loaded(doc[k].inner.value).flows[f].source}, 1);
  }

  /** A parallel gateway inside a sub-process, at any point of any run: what it would decide, by the
      tokens its incoming flows have handled so far. */
  lemma GateByTokens(doc: seq<FlowElement>, subs: seq<SubParse>, w: Process, x: Process, k: nat, w0: Process, n: Id,
                     c: Config, start: State, es: seq<Event>, s: State)
    requires Setting(doc, subs, w, x, k, w0) && RunOf(c, start, es, s, x)
    requires n in subs[k].inner.elements && subs[k].inner.elements[n].kind == ParallelGateway
    requires n != subs[k].inner.start
    ensures var sub, before := doc[k].id, subs[k].inner.elements[n];
            var arrived := ArrivalsAt(start.store, Within(sub) + n)
                           + 2 * PassedInto(s, sub, Loaded(doc[k].inner.value), n);
            ParallelJoin.Decision(x, Within(sub) + n, s.store) == Wait <==>
              WaitsInside(before.direction, |before.incoming|, |before.outgoing|, 0) && arrived < 3 * |before.incoming|
  {
    NodeArrivals(doc, subs, w, x, k, w0, n, c, start, es, s);
    GateIsNoEnd(doc, subs, w, x, k, n);
    InnerGateDecision(doc, subs, w, x, k, n, s.store);
  }

  lemma GateIsNoEnd(doc: seq<FlowElement>, subs: seq<SubParse>, w: Process, x: Process, k: nat, n: Id)
    requires Inside(doc, subs, w, x, k) && KindOf(subs[k].inner, n) != EndEvent
    ensures subs[k].end != Some(n)
  {
    FileEstablishes(doc, subs, w, x, k);
  }

  lemma {:induction false} PassedDisjoint(items: seq<Item>, a: set<Id>, b: set<Id>)
    requires a !! b
    ensures Passed(items, a + b) == Passed(items, a) + Passed(items, b)
  {
    if items != [] {
      PassedDisjoint(items[1..], a, b);
    }
  }

  lemma {:induction false} PassedNowhere(items: seq<Item>)
    ensures Passed(items, {}) == 0
  {
    if items != [] {
      PassedNowhere(items[1..]);
    }
  }

  lemma OneOut(items: seq<Item>, among: set<Id>, e: Id)
    requires e in among
    ensures Passed(items, among) == Passed(items, among - {e}) + Passed(items, {e}) && |among| == |among - {e}| + 1
  {
    PassedDisjoint(items, among - {e}, {e});
    assert among == among - {e} + {e};
  }

  lemma {:induction false} PassedAtMost(items: seq<Item>, among: set<Id>)
    requires forall e | e in among :: Passed(items, {e}) <= 1
    ensures Passed(items, among) <= |among|
  {
    if e :| e in among {
      PassedAtMost(items, among - {e});
      OneOut(items, among, e);
    } else {
      PassedNowhere(items);
    }
  }

  lemma {:induction false} PassedAtLeast(items: seq<Item>, among: set<Id>)
    requires forall e | e in among :: Passed(items, {e}) >= 2
    ensures Passed(items, among) >= 2 * |among|
  {
    if e :| e in among {
      PassedAtLeast(items, among - {e});
      OneOut(items, among, e);
    }
  }

  lemma FlowsListed(doc: seq<FlowElement>, subs: seq<SubParse>, w: Process, x: Process, k: nat, w0: Process, n: Id)
    requires Setting(doc, subs, w, x, k, w0) && n in subs[k].inner.elements && !IsSequenceFlow(subs[k].inner, n)
    ensures |FlowsInto(Within(doc[k].id), Loaded(doc[k].inner.value), n)| == |subs[k].inner.elements[n].incoming|
  {
    var p0 := Loaded(doc[k].inner.value);
    InnerNodeLoaded(doc[k].inner.value, w0, n);
    NodeLists(p0, w0, n);
    CopySizes(Within(doc[k].id), Aimed(p0.flows, p0.flows.Keys, n));
  }

  /** A converging join none of whose flows has handled a second token waits; one all of whose flows
      have is open. */
  lemma JoinBySecondTokens(doc: seq<FlowElement>, subs: seq<SubParse>, w: Process, x: Process, k: nat, w0: Process,
                           n: Id, c: Config, start: State, es: seq<Event>, s: State)
    requires Setting(doc, subs, w, x, k, w0) && RunOf(c, start, es, s, x)
    requires Joins(subs[k].inner, n) && n != subs[k].inner.start && ArrivalsAt(start.store, Within(doc[k].id) + n) == 0
    ensures var into := FlowsInto(Within(doc[k].id), Loaded(doc[k].inner.value), n);
            var decision := ParallelJoin.Decision(x, Within(doc[k].id) + n, s.store);
            && ((forall g | g in into :: Passed(s.books.handled, {g}) <= 1) ==> decision == Wait)
            && ((forall g | g in into :: Passed(s.books.handled, {g}) >= 2) ==> decision != Wait)
  {
    var into := FlowsInto(Within(doc[k].id), Loaded(doc[k].inner.value), n);
    GateByTokens(doc, subs, w, x, k, w0, n, c, start, es, s);
    FlowsListed(doc, subs, w, x, k, w0, n);
    if forall g | g in into :: Passed(s.books.handled, {g}) <= 1 {
      PassedAtMost(s.books.handled, into);
    }
    if forall g | g in into :: Passed(s.books.handled, {g}) >= 2 {
      PassedAtLeast(s.books.handled, into);
    }
  }

  /** A gateway declared converging, with something to wait for. */
  predicate Joins(s: Process, n: Id) {
    && n in s.elements && s.elements[n].kind == ParallelGateway && s.elements[n].direction == Converging
    && s.elements[n].incoming != []
  }

  /** All flows into `n` come straight from start events and forks. */
  ghost predicate FedByForks(s: Process, p0: Process, n: Id) {
    forall f | f in p0.flows && p0.flows[f].target == n :: Forks(s, p0.flows[f].source)
  }

  /** No token was put on an inner element before the run. */
  predicate Fresh(start: State, sub: Id) {
    && (forall i | i in start.books.issued :: !HasPrefix(i.element, Within(sub)))
    && (forall r | r in start.store :: !HasPrefix(r.element, Within(sub)))
  }

  lemma FreshNothing(start: State, sub: Id, n: Id)
    requires Fresh(start, sub)
    ensures StartedAt(start, sub, n) == 0 && ArrivalsAt(start.store, Within(sub) + n) == 0
  {
    TailOfPrefixed(Within(sub), n);
    NoArrivals(start.store, Within(sub) + n);
    NonePassed(start.books.issued, Within(sub) + n);
  }

  lemma {:induction false} NonePassed(items: seq<Item>, e: Id)
    requires forall i | i in items :: i.element != e
    ensures Passed(items, {e}) == 0
  {
    if items != [] {
      NonePassed(items[1..], e);
    }
  }

  lemma {:induction false} NeverRedefined(c: Config, s: State, es: seq<Event>, g: Id, el: Element)
    requires c.library == map[] && IsJoin(s.process, g, el)
    ensures Keeps(c, s, es, g, el)
    decreases |es|
  {
    if es != [] && Ready(s, es[0]) {
      NothingCalled(c, s, es[0]);
      NeverRedefined(c, Apply(c, s, es[0]), es[1..], g, el);
    }
  }

  /** A run survives one wait, so a join that stays short of records and gets its tokens in twos gets none. */
  lemma NoneSurvives(c: Config, store: seq<FlowRecord>, start: State, es: seq<Event>, s: State, g: Id, el: Element,
                     pairs: nat)
    requires c.library == map[] && Begins(c, store, start) && Path(c, start, es, s) && IsFinalized(s.coordinator)
    requires IsJoin(start.process, g, el) && ArrivalsAt(store, g) == 0
    requires ArrivalsAt(s.store, g) == 2 * pairs < |el.incoming|
    ensures pairs == 0
  {
    NeverRedefined(c, start, es, g, el);
    JoinsInRuns(c, store, start, es, s, g, el);
  }

  lemma JoinWithin(doc: seq<FlowElement>, subs: seq<SubParse>, w: Process, x: Process, k: nat, w0: Process, n: Id)
    requires Setting(doc, subs, w, x, k, w0) && Joins(subs[k].inner, n) && n != subs[k].inner.start
    ensures var c := Within(doc[k].id) + n;
            c in x.elements && IsJoin(x, c, x.elements[c])
            && |x.elements[c].incoming| == 3 * |subs[k].inner.elements[n].incoming|
  {
    KindWithin(doc, subs, w, x, k, n);
    DirectionWithin(doc, subs, w, x, k, w0, n);
    GateIsNoEnd(doc, subs, w, x, k, n);
    InnerListSizes(doc, subs, w, x, k, n);
  }

  lemma PassedPart(items: seq<Item>, among: set<Id>, e: Id)
    requires e in among && Passed(items, among) == 0
    ensures Passed(items, {e}) == 0
  {
    OneOut(items, among, e);
  }

  /** In a finalized run each flow out of a fork handles what the fork handled, so that flows out of
      forks that handled one token bring two records each. */
  lemma FirstLevelArrivals(doc: seq<FlowElement>, subs: seq<SubParse>, w: Process, x: Process, k: nat, w0: Process,
                           n: Id, c: Config, start: State, es: seq<Event>, s: State)
    requires Setting(doc, subs, w, x, k, w0) && RunOf(c, start, es, s, x) && IsFinalized(s.coordinator)
    requires Fresh(start, doc[k].id) && Joins(subs[k].inner, n) && n != subs[k].inner.start
    requires FedByForks(subs[k].inner, Loaded(doc[k].inner.value), n)
    requires forall f | f in Loaded(doc[k].inner.value).flows && Loaded(doc[k].inner.value).flows[f].target == n ::
               PassedAt(s, doc[k].id, Loaded(doc[k].inner.value).flows[f].source) <= 1
    ensures var pairs := PassedInto(s, doc[k].id, Loaded(doc[k].inner.value), n);
            ArrivalsAt(s.store, Within(doc[k].id) + n) == 2 * pairs && pairs <= |subs[k].inner.elements[n].incoming|
  {
    var sub, p0 := doc[k].id, Loaded(doc[k].inner.value);
    forall g | g in FlowsInto(Within(sub), p0, n) ensures Passed(s.books.handled, {g}) <= 1 {
      var f :| f in Aimed(p0.flows, p0.flows.Keys, n) && g == Within(sub) + f;
      FlowsFollow(doc, subs, w, x, k, w0, f, c, start, es, s);
      FreshNothing(start, sub, f);
    }
    FreshNothing(start, sub, n);
    PassedAtMost(s.books.handled, FlowsInto(Within(sub), p0, n));
    FlowsListed(doc, subs, w, x, k, w0, n);
    NodeArrivals(doc, subs, w, x, k, w0, n, c, start, es, s);
  }

  /** A join fed directly by forks that handle no second token, as those of the first level are when
      the sub-process is entered once, ends the run: one that finalizes never used those forks. */
  lemma FirstLevelJoinsFail(doc: seq<FlowElement>, subs: seq<SubParse>, w: Process, x: Process, k: nat, w0: Process,
                            n: Id, c: Config, store: seq<FlowRecord>, start: State, es: seq<Event>, s: State, f: Id)
    requires Setting(doc, subs, w, x, k, w0) && RunOf(c, start, es, s, x) && IsFinalized(s.coordinator)
    requires Begins(c, store, start)
    requires Fresh(start, doc[k].id) && Joins(subs[k].inner, n) && n != subs[k].inner.start
    requires FedByForks(subs[k].inner, Loaded(doc[k].inner.value), n)
    requires forall g | g in Loaded(doc[k].inner.value).flows && Loaded(doc[k].inner.value).flows[g].target == n ::
               PassedAt(s, doc[k].id, Loaded(doc[k].inner.value).flows[g].source) <= 1
    requires f in Loaded(doc[k].inner.value).flows && Loaded(doc[k].inner.value).flows[f].target == n
    ensures PassedAt(s, doc[k].id, Loaded(doc[k].inner.value).flows[f].source) == 0
  {
    var sub, p0 := doc[k].id, Loaded(doc[k].inner.value);
    var into := FlowsInto(Within(sub), p0, n);
    FirstLevelArrivals(doc, subs, w, x, k, w0, n, c, start, es, s);
    FreshNothing(start, sub, n);
    JoinWithin(doc, subs, w, x, k, w0, n);
    FewArrivals(x, Within(sub) + n, c, store, start, es, s, PassedInto(s, sub, p0, n),
                |subs[k].inner.elements[n].incoming|);
    assert f in Aimed(p0.flows, p0.flows.Keys, n);
    PassedPart(s.books.handled, into, Within(sub) + f);
    FlowsFollow(doc, subs, w, x, k, w0, f, c, start, es, s);
  }

  lemma FewArrivals(x: Process, g: Id, c: Config, store: seq<FlowRecord>, start: State, es: seq<Event>, s: State,
                    pairs: nat, flows: nat)
    requires c.library == map[] && start.process == x
    requires Begins(c, store, start) && Path(c, start, es, s) && IsFinalized(s.coordinator)
    requires g in x.elements && IsJoin(x, g, x.elements[g]) && |x.elements[g].incoming| == 3 * flows
    requires ArrivalsAt(start.store, g) == 0 && ArrivalsAt(s.store, g) == 2 * pairs && pairs <= flows && flows > 0
    ensures pairs == 0
  {
    ArrivalsMonotone(start.store, |store|, g);
    assert start.store[..|store|] == store;
    NoneSurvives(c, store, start, es, s, g, x.elements[g], pairs);
  }

  lemma EvenTokens(a: nat, started: nat, into: nat)
    requires a == started + 2 * into && started == 0 && a >= 1
    ensures a >= 2
  {
  }

  lemma ForkKind(s: Process, d: Id)
    requires Forks(s, d)
    ensures KindOf(s, d) != SequenceFlow && RoutedKind(KindOf(s, d))
  {
  }

  /** A join fed by forks behind other flows is open at the end of the run when each fork was reached. */
  lemma DeeperJoinsOpen(doc: seq<FlowElement>, subs: seq<SubParse>, w: Process, x: Process, k: nat, w0: Process, n: Id,
                        c: Config, start: State, es: seq<Event>, s: State)
    requires Setting(doc, subs, w, x, k, w0) && RunOf(c, start, es, s, x) && IsFinalized(s.coordinator)
    requires Fresh(start, doc[k].id) && Joins(subs[k].inner, n) && n != subs[k].inner.start
    requires FedByForks(subs[k].inner, Loaded(doc[k].inner.value), n)
    requires forall f | f in Loaded(doc[k].inner.value).flows && Loaded(doc[k].inner.value).flows[f].target == n ::
               var src := Loaded(doc[k].inner.value).flows[f].source;
               src != subs[k].inner.start && PassedAt(s, doc[k].id, src) >= 1
    ensures ParallelJoin.Decision(x, Within(doc[k].id) + n, s.store) != Wait
  {
    var sub, p0 := doc[k].id, Loaded(doc[k].inner.value);
    forall g | g in FlowsInto(Within(sub), p0, n) ensures Passed(s.books.handled, {g}) >= 2 {
      var f :| f in Aimed(p0.flows, p0.flows.Keys, n) && g == Within(sub) + f;
      ForkKind(subs[k].inner, p0.flows[f].source);
      FreshNothing(start, sub, p0.flows[f].source);
      NodesDouble(doc, subs, w, x, k, w0, p0.flows[f].source, c, start, es, s);
      EvenTokens(PassedAt(s, sub, p0.flows[f].source), StartedAt(start, sub, p0.flows[f].source),
                 PassedInto(s, sub, p0, p0.flows[f].source));
      FlowsFollow(doc, subs, w, x, k, w0, f, c, start, es, s);
    }
    FreshNothing(start, sub, n);
    JoinBySecondTokens(doc, subs, w, x, k, w0, n, c, start, es, s);
  }
}

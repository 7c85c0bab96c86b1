/** Sequence flows as steps of their own: the `_synth` pass, and what routing through it amounts to. */
module Reification {
  import opened Bpmn
  import opened Routing
  import opened Strings
  import opened Wiring

  const SYNTH := "_synth"

  function Synth(id: Id): Id { id + SYNTH }

  function Base(k: Id): Id
    requires HasSuffix(k, SYNTH)
  {
    k[..|k| - |SYNTH|]
  }

  lemma BaseOfSynth(id: Id)
    ensures HasSuffix(Synth(id), SYNTH) && Base(Synth(id)) == id
  {
  }

  /** A flow that is visited as an element. */
  predicate Reified(p: Process, id: Id) { IsSequenceFlow(p, id) && id in p.flows }

  /** The ids made up for the flow elements `among`. */
  function SynthIds(p: Process, among: set<Id>): set<Id> { set id | id in among && Reified(p, id) :: Synth(id) }

  /** No flow element has the id the pass makes up for another one. */
  ghost predicate NoClash(p: Process) { forall id | Reified(p, id) :: !IsSequenceFlow(p, Synth(id)) }

  function SynthFlow(p: Process, k: Id): Flow {
    if HasSuffix(k, SYNTH) && Base(k) in p.flows then Flow(Base(k), p.flows[Base(k)].target) else Flow("", "")
  }

  lemma SynthFlowOf(p: Process, id: Id)
    requires id in p.flows
    ensures SynthFlow(p, Synth(id)) == Flow(id, p.flows[id].target)
  {
    BaseOfSynth(id);
  }

  function SynthFlows(p: Process, among: set<Id>): (r: map<Id, Flow>)
    ensures r.Keys == SynthIds(p, among)
    ensures forall k | k in r :: r[k] == SynthFlow(p, k)
  {
    map k | k in SynthIds(p, among) :: SynthFlow(p, k)
  }

  function WithSynth(p: Process, id: Id): Element
    requires id in p.elements
  {
    var el := p.elements[id];
    if Reified(p, id) then el.(outgoing := el.outgoing + [Synth(id)]) else el
  }

  function Synthesized(p: Process): Process {
    Process(p.start, map id | id in p.elements :: WithSynth(p, id), p.flows + SynthFlows(p, p.elements.Keys))
  }

  method SynthesizeFlows(p: Process) returns (q: Process)
    ensures NoClash(p) ==> q == Synthesized(p)
  {
    var elements, flows := p.elements, p.flows;
    var todo := p.elements.Keys;
    assert p.elements.Keys - todo == {};
    assert p.flows == p.flows + SynthFlows(p, {});
    while todo != {}
      invariant todo <= p.elements.Keys == elements.Keys
      invariant forall id | id in todo :: elements[id] == p.elements[id]
      invariant NoClash(p) ==> forall id | id in p.elements && id !in todo :: elements[id] == WithSynth(p, id)
      invariant NoClash(p) ==> flows == p.flows + SynthFlows(p, p.elements.Keys - todo)
      decreases todo
    {
      var id :| id in todo;
      var el := elements[id];
      ghost var done := p.elements.Keys - todo;
      if NoClash(p) {
        OneMoreSynth(p, done, id);
      }
      if el.kind == SequenceFlow && id in flows {
        flows := flows[Synth(id) := Flow(id, flows[id].target)];
        elements := elements[id := el.(outgoing := el.outgoing + [Synth(id)])];
      }
      todo := todo - {id};
      assert p.elements.Keys - todo == done + {id};
    }
    assert p.elements.Keys - todo == p.elements.Keys;
    q := Process(p.start, elements, flows);
  }

  /** A flow element keeps its own flow whatever the pass adds for others. */
  lemma NotOverwritten(p: Process, among: set<Id>, id: Id)
    requires NoClash(p) && IsSequenceFlow(p, id)
    ensures id !in SynthFlows(p, among)
  {
  }

  lemma MoreSynths(p: Process, done: set<Id>, id: Id)
    ensures SynthFlows(p, done + {id})
            == if Reified(p, id) then SynthFlows(p, done)[Synth(id) := Flow(id, p.flows[id].target)]
               else SynthFlows(p, done)
  {
    assert SynthIds(p, done + {id}) == SynthIds(p, done) + if Reified(p, id) then {Synth(id)} else {};
    if Reified(p, id) {
      SynthFlowOf(p, id);
    }
  }

  lemma OneMoreSynth(p: Process, done: set<Id>, id: Id)
    requires NoClash(p) && id in p.elements
    ensures var flows := p.flows + SynthFlows(p, done);
            && (IsSequenceFlow(p, id) ==> (id in flows <==> id in p.flows))
            && (Reified(p, id) ==> flows[id] == p.flows[id])
            && p.flows + SynthFlows(p, done + {id})
               == if Reified(p, id) then flows[Synth(id) := Flow(id, p.flows[id].target)] else flows
  {
    if IsSequenceFlow(p, id) {
      NotOverwritten(p, done, id);
    }
    MoreSynths(p, done, id);
  }

  /** A flow element that nothing else starts at. */
  ghost predicate CleanFlow(p: Process, f: Id) {
    && Reified(p, f) && p.elements[f].outgoing == []
    && Synth(f) !in p.elements
    && forall g | g in p.flows :: p.flows[g].source != f
  }

  lemma SynthesizedFlow(p: Process, w: Process, f: Id)
    requires Wired(p, w) && NoClash(p) && Reified(p, f)
    ensures var q := Synthesized(w);
            && Synth(f) in q.flows && q.flows[Synth(f)] == Flow(f, p.flows[f].target)
            && f in q.flows && q.flows[f] == p.flows[f]
  {
    SameReified(p, w);
    SynthFlowOf(p, f);
    NotOverwritten(w, w.elements.Keys, f);
    assert Synth(f) in SynthIds(w, w.elements.Keys);
  }

  lemma SameReified(p: Process, w: Process)
    requires Wired(p, w)
    ensures forall id :: (IsSequenceFlow(w, id) <==> IsSequenceFlow(p, id)) && (Reified(w, id) <==> Reified(p, id))
    ensures NoClash(w) <==> NoClash(p)
  {
    forall id ensures IsSequenceFlow(w, id) <==> IsSequenceFlow(p, id) {
      if id in p.elements {
        assert Grown(p.flows, p.flows.Keys, id, p.elements[id], w.elements[id]);
      }
    }
  }

  lemma KindsKept(p: Process, w: Process, id: Id)
    requires Wired(p, w)
    ensures KindOf(Synthesized(w), id) == KindOf(p, id)
  {
  }

  lemma FlowElementLists(p: Process, w: Process, f: Id)
    requires Wired(p, w) && CleanFlow(p, f)
    ensures f in Synthesized(w).elements && Synthesized(w).elements[f].outgoing == [Synth(f)]
  {
    SameReified(p, w);
    assert Sourced(p.flows, p.flows.Keys, f) == {};
    EmptyExtension(w.elements[f].outgoing);
  }

  lemma AlongOne(q: Process, f: Id)
    requires f in q.flows
    ensures Along(q, [f], []) == [StepAlong(q, f)]
  {
    assert [f][..0] == [];
  }

  /** Every flow element has exactly one successor: the target of its flow. */
  lemma FlowElementRoutes(p: Process, w: Process, f: Id)
    requires Wired(p, w) && NoClash(p) && CleanFlow(p, f)
    ensures var target := p.flows[f].target;
            NextFlows(Synthesized(w), Route, f, []) == [NextFlow(Synth(f), target, KindOf(p, target))]
  {
    SynthesizedFlow(p, w, f);
    FlowElementLists(p, w, f);
    AlongOne(Synthesized(w), Synth(f));
    KindsKept(p, w, Synth(f));
    KindsKept(p, w, p.flows[f].target);
  }

  lemma EmptyExtension(after: seq<Id>)
    requires Extends([], after, {})
    ensures after == []
  {
    assert after[0..] == after;
    assert |multiset(after)| == |after|;
  }

  /** The flows the filters let through, in order. */
  function Passing(flows: seq<Id>, filters: seq<Id>): seq<Id> {
    if flows == [] then []
    else
      var rest, last := Passing(flows[..|flows| - 1], filters), flows[|flows| - 1];
      if filters == [] || last in filters then rest + [last] else rest
  }

  lemma {:induction false} PassingCounts(flows: seq<Id>, filters: seq<Id>, f: Id)
    ensures multiset(Passing(flows, filters))[f] == if filters == [] || f in filters then multiset(flows)[f] else 0
  {
    if flows != [] {
      var front := flows[..|flows| - 1];
      PassingCounts(front, filters, f);
      assert flows == front + [flows[|flows| - 1]];
    }
  }

  /** The flows of the table that start at `n` and pass. */
  function SelectedFrom(p: Process, n: Id, filters: seq<Id>): set<Id> {
    set f | f in p.flows && p.flows[f].source == n && (filters == [] || f in filters)
  }

  /** Where two hops lead: the elements after the elements in `next`. */
  function TwoHops(q: Process, next: seq<NextFlow>): seq<Id> {
    if next == [] then []
    else
      TwoHops(q, next[..|next| - 1]) + ElementsIn(NextFlows(q, Route, next[|next| - 1].element, []))
  }

  function ElementsIn(next: seq<NextFlow>): (ids: seq<Id>)
    ensures |ids| == |next| && forall i | 0 <= i < |ids| :: ids[i] == next[i].element
  {
    seq(|next|, i requires 0 <= i < |next| => next[i].element)
  }

  function TargetsOf(p: Process, flows: seq<Id>): (ids: seq<Id>)
    requires forall f | f in flows :: f in p.flows
    ensures |ids| == |flows| && forall i | 0 <= i < |ids| :: ids[i] == p.flows[flows[i]].target
  {
    seq(|flows|, i requires 0 <= i < |flows| => p.flows[flows[i]].target)
  }

  lemma {:induction false} PassingFrom(p: Process, flows: seq<Id>, filters: seq<Id>)
    requires forall f | f in flows :: f in p.flows
    ensures forall f | f in Passing(flows, filters) :: f in flows
  {
    if flows != [] {
      var front := flows[..|flows| - 1];
      PassingFrom(p, front, filters);
      assert flows == front + [flows[|flows| - 1]];
    }
  }

  lemma LastHop(p: Process, w: Process, f: Id)
    requires Wired(p, w) && NoClash(p) && CleanFlow(p, f)
    ensures var q := Synthesized(w);
            && f in q.flows && StepAlong(q, f) == NextFlow(f, f, SequenceFlow)
            && ElementsIn(NextFlows(q, Route, f, [])) == [p.flows[f].target]
  {
    SynthesizedFlow(p, w, f);
    KindsKept(p, w, f);
    FlowElementRoutes(p, w, f);
  }

  lemma {:induction false} HopByHop(p: Process, w: Process, flows: seq<Id>, filters: seq<Id>)
    requires Wired(p, w) && NoClash(p)
    requires forall f | f in flows :: CleanFlow(p, f)
    requires forall f | f in Passing(flows, filters) :: f in p.flows
    ensures TwoHops(Synthesized(w), Along(Synthesized(w), flows, filters)) == TargetsOf(p, Passing(flows, filters))
  {
    if flows != [] {
      var q, front, last := Synthesized(w), flows[..|flows| - 1], flows[|flows| - 1];
      assert flows == front + [last];
      forall f | f in front ensures CleanFlow(p, f) && f in p.flows {
        assert f in flows;
      }
      PassingFrom(p, front, filters);
      HopByHop(p, w, front, filters);
      LastHop(p, w, last);
      HopOn(p, q, front, last, filters);
    }
  }

  lemma HopOn(p: Process, q: Process, front: seq<Id>, last: Id, filters: seq<Id>)
    requires forall f | f in Passing(front, filters) :: f in p.flows
    requires last in p.flows && last in q.flows && StepAlong(q, last) == NextFlow(last, last, SequenceFlow)
    requires ElementsIn(NextFlows(q, Route, last, [])) == [p.flows[last].target]
    requires TwoHops(q, Along(q, front, filters)) == TargetsOf(p, Passing(front, filters))
    ensures forall f | f in Passing(front + [last], filters) :: f in p.flows
    ensures TwoHops(q, Along(q, front + [last], filters)) == TargetsOf(p, Passing(front + [last], filters))
  {
    assert (front + [last])[..|front|] == front;
    if Selected(q, filters, last) {
      var rest := Along(q, front, filters);
      assert (rest + [NextFlow(last, last, SequenceFlow)])[..|rest|] == rest;
    }
  }

  /** Reifying the flows is a two-hop simulation. From a node through its flow elements routing
      reaches the targets of exactly its selected flows, each flow counted once. */
  lemma TwoHopSimulation(p: Process, w: Process, n: Id, filters: seq<Id>) returns (flows: seq<Id>)
    requires Wired(p, w) && NoClash(p)
    requires n in p.elements && !IsSequenceFlow(p, n) && p.elements[n].outgoing == []
    requires forall f | f in p.flows && p.flows[f].source == n :: CleanFlow(p, f)
    ensures multiset(flows) == multiset(SelectedFrom(p, n, filters))
    ensures forall f | f in flows :: f in p.flows
    ensures TwoHops(Synthesized(w), NextFlows(Synthesized(w), Route, n, filters)) == TargetsOf(p, flows)
    ensures forall h | h in NextFlows(Synthesized(w), Route, n, filters) :: IsSequenceFlow(Synthesized(w), h.element)
  {
    var q, out := Synthesized(w), w.elements[n].outgoing;
    forall f ensures f in out <==> f in p.flows && p.flows[f].source == n {
      WiredOutgoing(p, w, n, f);
    }
    flows := Passing(out, filters);
    PassingFrom(p, out, filters);
    HopByHop(p, w, out, filters);
    SelectedOnce(p, w, n, filters);
    forall h | h in Along(q, out, filters) ensures IsSequenceFlow(q, h.element) {
      AlongMembers(q, out, filters, h);
      var f :| f in out && Selected(q, filters, f) && h == StepAlong(q, f);
      KindsKept(p, w, f);
    }
  }

  lemma SelectedOnce(p: Process, w: Process, n: Id, filters: seq<Id>)
    requires Wired(p, w) && n in p.elements && p.elements[n].outgoing == []
    ensures multiset(Passing(w.elements[n].outgoing, filters))
            == multiset(SelectedFrom(p, n, filters))
  {
    var out := w.elements[n].outgoing;
    var all := Sourced(p.flows, p.flows.Keys, n);
    var some := SelectedFrom(p, n, filters);
    assert out[0..] == out;
    forall f ensures multiset(Passing(out, filters))[f] == multiset(some)[f] {
      PassingCounts(out, filters, f);
      assert multiset(out)[f] == multiset(all)[f];
    }
  }
}

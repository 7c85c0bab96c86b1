/** wireFlows: the outgoing and incoming lists of the elements, from the flow table. */
module Wiring {
  import opened Bpmn
  import opened Routing

  function Sourced(flows: map<Id, Flow>, among: set<Id>, id: Id): set<Id> {
    set f | f in among && f in flows && flows[f].source == id
  }

  function Aimed(flows: map<Id, Flow>, among: set<Id>, id: Id): set<Id> {
    set f | f in among && f in flows && flows[f].target == id
  }

  /** `after` is `before` followed by `added`, each once, in some order. */
  ghost predicate Extends(before: seq<Id>, after: seq<Id>, added: set<Id>) {
    before <= after && multiset(after[|before|..]) == multiset(added)
  }

  ghost predicate Grown(flows: map<Id, Flow>, among: set<Id>, id: Id, before: Element, after: Element) {
    && after == before.(incoming := after.incoming, outgoing := after.outgoing)
    && Extends(before.outgoing, after.outgoing, Sourced(flows, among, id))
    && Extends(before.incoming, after.incoming, Aimed(flows, among, id))
  }

  /** The lists agree with the flow table; nothing else changes. */
  ghost predicate Wired(p: Process, q: Process) {
    && q.start == p.start && q.flows == p.flows && q.elements.Keys == p.elements.Keys
    && forall id | id in p.elements :: Grown(p.flows, p.flows.Keys, id, p.elements[id], q.elements[id])
  }

  function Linked(el: Element, f: Id, flow: Flow, id: Id): Element {
    var out := if flow.source == id then el.(outgoing := el.outgoing + [f]) else el;
    if flow.target == id then out.(incoming := out.incoming + [f]) else out
  }

  lemma {:induction false} ExtendsByOne(before: seq<Id>, after: seq<Id>, added: set<Id>, f: Id)
    requires Extends(before, after, added) && f !in added
    ensures Extends(before, after + [f], added + {f})
  {
    assert (after + [f])[|before|..] == after[|before|..] + [f];
  }

  lemma GrownByOne(flows: map<Id, Flow>, among: set<Id>, f: Id, id: Id, before: Element, el: Element)
    requires Grown(flows, among, id, before, el) && f in flows && f !in among
    ensures Grown(flows, among + {f}, id, before, Linked(el, f, flows[f], id))
  {
    var out, into := Sourced(flows, among, id), Aimed(flows, among, id);
    assert Sourced(flows, among + {f}, id) == if flows[f].source == id then out + {f} else out;
    assert Aimed(flows, among + {f}, id) == if flows[f].target == id then into + {f} else into;
    ExtendsByOne(before.outgoing, el.outgoing, out, f);
    ExtendsByOne(before.incoming, el.incoming, into, f);
  }

  method LinkFlow(elements: map<Id, Element>, f: Id, flow: Flow) returns (linked: map<Id, Element>)
    ensures linked.Keys == elements.Keys
    ensures forall id | id in elements :: linked[id] == Linked(elements[id], f, flow, id)
  {
    linked := elements;
    if flow.source in linked {
      var el := linked[flow.source];
      linked := linked[flow.source := el.(outgoing := el.outgoing + [f])];
    }
    if flow.target in linked {
      var el := linked[flow.target];
      linked := linked[flow.target := el.(incoming := el.incoming + [f])];
    }
  }

  /** The flows of `listed` that the table confirms to end at `id`. */
  method ConfirmedIncoming(flows: map<Id, Flow>, id: Id, listed: seq<Id>) returns (into: seq<Id>)
    ensures forall f :: f in into <==> f in listed && f in flows && flows[f].target == id
    ensures (forall f | f in flows :: flows[f].target != id) ==> into == []
  {
    into := [];
    for i := 0 to |listed|
      invariant forall f :: f in into <==> f in listed[..i] && f in flows && flows[f].target == id
      invariant (forall f | f in flows :: flows[f].target != id) ==> into == []
    {
      if listed[i] in flows && flows[listed[i]].target == id {
        into := into + [listed[i]];
      }
    }
  }

  method ConfirmedOutgoing(flows: map<Id, Flow>, id: Id, listed: seq<Id>) returns (out: seq<Id>)
    ensures forall f :: f in out <==> f in listed && f in flows && flows[f].source == id
    ensures (forall f | f in flows :: flows[f].source != id) ==> out == []
  {
    out := [];
    for i := 0 to |listed|
      invariant forall f :: f in out <==> f in listed[..i] && f in flows && flows[f].source == id
      invariant (forall f | f in flows :: flows[f].source != id) ==> out == []
    {
      if listed[i] in flows && flows[listed[i]].source == id {
        out := out + [listed[i]];
      }
    }
  }

  /** An element left without lists is one no flow starts or ends at. */
  lemma UnlinkedMeansNone(p: Process, q: Process, id: Id)
    requires Wired(p, q) && id in p.elements
    requires q.elements[id].incoming == [] && q.elements[id].outgoing == []
    ensures forall f | f in p.flows :: p.flows[f].source != id && p.flows[f].target != id
  {
    forall f | f in p.flows ensures p.flows[f].source != id && p.flows[f].target != id {
      assert f in Sourced(p.flows, p.flows.Keys, id) <==> p.flows[f].source == id;
      assert f in Aimed(p.flows, p.flows.Keys, id) <==> p.flows[f].target == id;
      var s, a := Sourced(p.flows, p.flows.Keys, id), Aimed(p.flows, p.flows.Keys, id);
      assert f in s ==> multiset(s)[f] == 1;
      assert f in a ==> multiset(a)[f] == 1;
    }
  }

  /** The second pass, over the elements' own child lists: it never adds anything. */
  method WireListed(p: Process, wired: Process) returns (elements: map<Id, Element>)
    requires Wired(p, wired)
    ensures elements == wired.elements
  {
    elements := wired.elements;
    var ids := elements.Keys;
    while ids != {}
      invariant ids <= elements.Keys && elements == wired.elements
      decreases ids
    {
      var id :| id in ids;
      ids := ids - {id};
      var el := elements[id];
      if el.incoming == [] && el.outgoing == [] {
        UnlinkedMeansNone(p, wired, id);
        var into := ConfirmedIncoming(p.flows, id, el.listedIncoming);
        var out := ConfirmedOutgoing(p.flows, id, el.listedOutgoing);
        var next := el.(incoming := el.incoming + into, outgoing := el.outgoing + out);
        assert next == el;
        elements := elements[id := next];
      }
    }
  }

  /** Both passes, for any order of the maps. */
  method WireFlows(p: Process) returns (q: Process)
    ensures Wired(p, q)
  {
    var elements := p.elements;
    var todo := p.flows.Keys;
    while todo != {}
      invariant todo <= p.flows.Keys && elements.Keys == p.elements.Keys
      invariant forall id | id in p.elements ::
                  Grown(p.flows, p.flows.Keys - todo, id, p.elements[id], elements[id])
      decreases todo
    {
      var f :| f in todo;
      var linked := LinkFlow(elements, f, p.flows[f]);
      assert p.flows.Keys - (todo - {f}) == p.flows.Keys - todo + {f};
      forall id | id in p.elements
        ensures Grown(p.flows, p.flows.Keys - (todo - {f}), id, p.elements[id], linked[id])
      {
        GrownByOne(p.flows, p.flows.Keys - todo, f, id, p.elements[id], elements[id]);
      }
      elements := linked;
      todo := todo - {f};
    }
    assert p.flows.Keys - todo == p.flows.Keys;
    elements := WireListed(p, Process(p.start, elements, p.flows));
    q := Process(p.start, elements, p.flows);
  }

  /** In a process with empty lists, wiring lists every flow once at its source and once at its
      target, and nowhere else. */
  lemma ListsArePermutations(p: Process, q: Process, id: Id)
    requires Wired(p, q) && id in p.elements && p.elements[id].outgoing == [] && p.elements[id].incoming == []
    ensures multiset(q.elements[id].outgoing) == multiset(set f | f in p.flows && p.flows[f].source == id)
    ensures multiset(q.elements[id].incoming) == multiset(set f | f in p.flows && p.flows[f].target == id)
  {
    assert Sourced(p.flows, p.flows.Keys, id) == set f | f in p.flows && p.flows[f].source == id;
    assert Aimed(p.flows, p.flows.Keys, id) == set f | f in p.flows && p.flows[f].target == id;
    var el := q.elements[id];
    assert el.outgoing[0..] == el.outgoing && el.incoming[0..] == el.incoming;
  }

  lemma InExtended(before: seq<Id>, after: seq<Id>, added: set<Id>, f: Id)
    requires Extends(before, after, added)
    ensures f in after <==> f in before || f in added
  {
    assert after == before + after[|before|..];
    assert f in after[|before|..] <==> f in multiset(after[|before|..]);
  }

  /** What an element lists after wiring. */
  lemma WiredOutgoing(p: Process, q: Process, id: Id, f: Id)
    requires Wired(p, q) && id in p.elements
    ensures f in q.elements[id].outgoing <==>
            f in p.elements[id].outgoing || (f in p.flows && p.flows[f].source == id)
  {
    InExtended(p.elements[id].outgoing, q.elements[id].outgoing, Sourced(p.flows, p.flows.Keys, id), f);
  }
}

/** Copying one process into another under a prefix. */
module Prefixing {
  import opened Bpmn
  import opened Routing
  import opened Strings

  function Tail(prefix: string, k: Id): Id
    requires HasPrefix(k, prefix)
  {
    k[|prefix|..]
  }

  lemma TailOfPrefixed(prefix: string, id: Id)
    ensures HasPrefix(prefix + id, prefix) && Tail(prefix, prefix + id) == id
  {
  }

  lemma PrefixedTail(prefix: string, k: Id)
    requires HasPrefix(k, prefix)
    ensures k == prefix + Tail(prefix, k)
  {
  }

  function PrefixAll(prefix: string, ids: seq<Id>): (r: seq<Id>)
    ensures |r| == |ids| && forall i | 0 <= i < |ids| :: r[i] == prefix + ids[i]
  {
    seq(|ids|, i requires 0 <= i < |ids| => prefix + ids[i])
  }

  function PrefixKeys<V>(prefix: string, m: map<Id, V>): (r: map<Id, V>)
    ensures forall k :: k in r <==> HasPrefix(k, prefix) && Tail(prefix, k) in m
    ensures forall k | k in r :: r[k] == m[Tail(prefix, k)]
    ensures forall id | id in m :: prefix + id in r && r[prefix + id] == m[id]
  {
    var keys := set id | id in m :: prefix + id;
    assert forall id | id in m :: Tail(prefix, prefix + id) == id;
    assert forall k | HasPrefix(k, prefix) && Tail(prefix, k) in m :: k == prefix + Tail(prefix, k);
    map k | k in keys :: m[Tail(prefix, k)]
  }

  function PrefixEnds(prefix: string, f: Flow): Flow {
    Flow(prefix + f.source, prefix + f.target)
  }

  lemma OneMoreKey<V>(prefix: string, less: map<Id, V>, more: map<Id, V>, id: Id, k: Id)
    requires more.Keys == less.Keys + {id}
    ensures k in PrefixKeys(prefix, more) <==> k in PrefixKeys(prefix, less) || k == prefix + id
  {
    TailOfPrefixed(prefix, id);
    if HasPrefix(k, prefix) {
      PrefixedTail(prefix, k);
    }
  }

  /** One more entry copied under the prefix. */
  lemma PrefixOneMore<V>(prefix: string, base: map<Id, V>, added: map<Id, V>, todo: set<Id>, id: Id)
    requires id in added && id in todo
    ensures base + PrefixKeys(prefix, added - (todo - {id}))
            == (base + PrefixKeys(prefix, added - todo))[prefix + id := added[id]]
  {
    var less, more := added - todo, added - (todo - {id});
    MoreKeys(prefix, less, more, id);
    PrefixedValue(prefix, more, id);
  }

  lemma PrefixedValue<V>(prefix: string, m: map<Id, V>, id: Id)
    requires id in m
    ensures prefix + id in PrefixKeys(prefix, m) && PrefixKeys(prefix, m)[prefix + id] == m[id]
  {
  }

  lemma MoreKeys<V>(prefix: string, less: map<Id, V>, more: map<Id, V>, id: Id)
    requires more.Keys == less.Keys + {id} && forall k | k in less :: more[k] == less[k]
    ensures var a, b := PrefixKeys(prefix, less), PrefixKeys(prefix, more);
            b.Keys == a.Keys + {prefix + id} && forall k | k in a :: b[k] == a[k]
  {
    var a, b := PrefixKeys(prefix, less), PrefixKeys(prefix, more);
    forall k ensures k in b <==> k in a || k == prefix + id {
      OneMoreKey(prefix, less, more, id, k);
    }
  }

  /** Before the first entry is copied, and after the last. */
  lemma NoneAndAll<V>(prefix: string, base: map<Id, V>, added: map<Id, V>)
    ensures base + PrefixKeys(prefix, added - added.Keys) == base && added - {} == added
  {
  }

  function EndsPrefixed(prefix: string, flows: map<Id, Flow>): map<Id, Flow> {
    map id | id in flows :: PrefixEnds(prefix, flows[id])
  }

  function PrefixFlows(prefix: string, flows: map<Id, Flow>): (r: map<Id, Flow>)
    ensures forall k :: k in r <==> HasPrefix(k, prefix) && Tail(prefix, k) in flows
    ensures forall id | id in flows :: prefix + id in r && r[prefix + id] == PrefixEnds(prefix, flows[id])
  {
    PrefixKeys(prefix, EndsPrefixed(prefix, flows))
  }

  lemma InPrefixAll(prefix: string, ids: seq<Id>, f: Id)
    ensures prefix + f in PrefixAll(prefix, ids) <==> f in ids
  {
    if prefix + f in PrefixAll(prefix, ids) {
      var i :| 0 <= i < |ids| && PrefixAll(prefix, ids)[i] == prefix + f;
      TailOfPrefixed(prefix, f);
      TailOfPrefixed(prefix, ids[i]);
    }
    if f in ids {
      var i :| 0 <= i < |ids| && ids[i] == f;
      assert PrefixAll(prefix, ids)[i] == prefix + f;
    }
  }

  function PrefixSet(prefix: string, ids: set<Id>): set<Id> { set id | id in ids :: prefix + id }

  /** The flow `prefix + f` of `q` is a copy of the flow `f` of `p`. */
  predicate FlowCopied(p: Process, q: Process, prefix: string, f: Id) {
    && (prefix + f in q.flows <==> f in p.flows)
    && KindOf(q, prefix + f) == KindOf(p, f)
    && (f in p.flows ==> q.flows[prefix + f] == PrefixEnds(prefix, p.flows[f]))
  }

  lemma CopiedStep(p: Process, q: Process, prefix: string, filters: seq<Id>, f: Id)
    requires FlowCopied(p, q, prefix, f)
    ensures Selected(q, PrefixAll(prefix, filters), prefix + f) <==> Selected(p, filters, f)
    ensures f in p.flows ==> StepAlong(q, prefix + f).element == prefix + StepAlong(p, f).element
  {
    InPrefixAll(prefix, filters, f);
  }

  /** An element whose outgoing flows are copies leads exactly to the copies. */
  lemma CopiedSuccessors(p: Process, q: Process, prefix: string, id: Id, filters: seq<Id>)
    requires id in p.elements && prefix + id in q.elements
    requires q.elements[prefix + id].outgoing == PrefixAll(prefix, p.elements[id].outgoing)
    requires forall f | f in p.elements[id].outgoing :: FlowCopied(p, q, prefix, f)
    ensures Successors(q, prefix + id, PrefixAll(prefix, filters)) == PrefixSet(prefix, Successors(p, id, filters))
  {
    forall x | x in Successors(q, prefix + id, PrefixAll(prefix, filters))
      ensures x in PrefixSet(prefix, Successors(p, id, filters))
    {
      SuccessorReflected(p, q, prefix, id, filters, x);
    }
    forall y | y in Successors(p, id, filters)
      ensures prefix + y in Successors(q, prefix + id, PrefixAll(prefix, filters))
    {
      SuccessorCopied(p, q, prefix, id, filters, y);
    }
  }

  lemma SuccessorCopied(p: Process, q: Process, prefix: string, id: Id, filters: seq<Id>, y: Id)
    requires id in p.elements && prefix + id in q.elements
    requires q.elements[prefix + id].outgoing == PrefixAll(prefix, p.elements[id].outgoing)
    requires forall f | f in p.elements[id].outgoing :: FlowCopied(p, q, prefix, f)
    requires y in Successors(p, id, filters)
    ensures prefix + y in Successors(q, prefix + id, PrefixAll(prefix, filters))
  {
    var out := p.elements[id].outgoing;
    SuccessorsAre(p, id, filters, y);
    var f :| f in out && Selected(p, filters, f) && StepAlong(p, f).element == y;
    CopiedStep(p, q, prefix, filters, f);
    InPrefixAll(prefix, out, f);
    SuccessorsAre(q, prefix + id, PrefixAll(prefix, filters), prefix + y);
    assert prefix + f in q.elements[prefix + id].outgoing;
  }

  lemma SuccessorReflected(p: Process, q: Process, prefix: string, id: Id, filters: seq<Id>, x: Id)
    requires id in p.elements && prefix + id in q.elements
    requires q.elements[prefix + id].outgoing == PrefixAll(prefix, p.elements[id].outgoing)
    requires forall f | f in p.elements[id].outgoing :: FlowCopied(p, q, prefix, f)
    requires x in Successors(q, prefix + id, PrefixAll(prefix, filters))
    ensures exists y :: y in Successors(p, id, filters) && x == prefix + y
  {
    var out := p.elements[id].outgoing;
    SuccessorsAre(q, prefix + id, PrefixAll(prefix, filters), x);
    var g :| g in PrefixAll(prefix, out) && Selected(q, PrefixAll(prefix, filters), g) && StepAlong(q, g).element == x;
    var i :| 0 <= i < |out| && PrefixAll(prefix, out)[i] == g;
    assert out[i] in out;
    CopiedStep(p, q, prefix, filters, out[i]);
    SuccessorsAre(p, id, filters, StepAlong(p, out[i]).element);
  }

  /** Which end event a loop over the elements can meet first. */
  ghost predicate FirstEnd(from: Process, end: Option<Id>) {
    match end
    case None => forall id | id in from.elements :: from.elements[id].kind != EndEvent
    case Some(e) => e in from.elements && from.elements[e].kind == EndEvent
  }

  method CopyFlows(prefix: string, base: map<Id, Flow>, added: map<Id, Flow>) returns (flows: map<Id, Flow>)
    ensures flows == base + PrefixFlows(prefix, added)
  {
    flows := base;
    var todo := added.Keys;
    ghost var copies := EndsPrefixed(prefix, added);
    NoneAndAll(prefix, base, copies);
    while todo != {}
      invariant todo <= added.Keys
      invariant flows == base + PrefixKeys(prefix, copies - todo)
      decreases todo
    {
      var id :| id in todo;
      PrefixOneMore(prefix, base, copies, todo, id);
      todo := todo - {id};
      flows := flows[prefix + id := PrefixEnds(prefix, added[id])];
    }
  }
}

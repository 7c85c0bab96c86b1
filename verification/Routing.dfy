/** FlowRouter.Route: which elements follow the one just executed. */
module Routing {
  import opened Bpmn

  datatype Action =
    | Route | Wait | Form | Error | Complete | Skip | Queue
    | Terminate | ThrowError | CallActivity

  datatype NextFlow = NextFlow(flow: Id, element: Id, kind: ElementType)

  /** No filters at all lets every flow through. */
  predicate Selected(p: Process, filters: seq<Id>, flow: Id) {
    flow in p.flows && (filters == [] || flow in filters)
  }

  /** A flow that is also an element is visited as a step of its own. */
  function StepAlong(p: Process, flow: Id): (n: NextFlow)
    requires flow in p.flows
  {
    if IsSequenceFlow(p, flow) then NextFlow(flow, flow, SequenceFlow)
    else NextFlow(flow, p.flows[flow].target, KindOf(p, p.flows[flow].target))
  }

  function Along(p: Process, outgoing: seq<Id>, filters: seq<Id>): seq<NextFlow> {
    if outgoing == [] then []
    else
      var rest := Along(p, outgoing[..|outgoing| - 1], filters);
      var flow := outgoing[|outgoing| - 1];
      if Selected(p, filters, flow) then rest + [StepAlong(p, flow)] else rest
  }

  /** What the router returns for an element, in order. */
  function NextFlows(p: Process, action: Action, element: Id, filters: seq<Id>): seq<NextFlow> {
    if action !in {Route, Queue} || element !in p.elements then []
    else Along(p, p.elements[element].outgoing, filters)
  }

  /** The set of elements the router can reach in one step. */
  ghost function Successors(p: Process, element: Id, filters: seq<Id>): set<Id> {
    set n | n in NextFlows(p, Route, element, filters) :: n.element
  }

  method RouteResult(p: Process, action: Action, element: Id, filters: seq<Id>) returns (next: seq<NextFlow>)
    ensures next == NextFlows(p, action, element, filters)
    ensures action !in {Route, Queue} || element !in p.elements ==> next == []
    ensures action in {Route, Queue} && element in p.elements ==>
              forall n :: n in next <==>
                exists f :: f in p.elements[element].outgoing && Selected(p, filters, f) && n == StepAlong(p, f)
  {
    next := [];
    if action !in {Route, Queue} || element !in p.elements {
      return;
    }
    var outgoing := p.elements[element].outgoing;
    for i := 0 to |outgoing|
      invariant next == Along(p, outgoing[..i], filters)
    {
      assert outgoing[..i + 1][..i] == outgoing[..i];
      var flow := outgoing[i];
      if flow !in p.flows {
        continue;
      }
      if |filters| > 0 && flow !in filters {
        continue;
      }
      if IsSequenceFlow(p, flow) {
        next := next + [NextFlow(flow, flow, SequenceFlow)];
      } else {
        var target := p.flows[flow].target;
        next := next + [NextFlow(flow, target, KindOf(p, target))];
      }
    }
    assert outgoing[..|outgoing|] == outgoing;
    forall n ensures n in next <==> exists f :: f in outgoing && Selected(p, filters, f) && n == StepAlong(p, f) {
      AlongMembers(p, outgoing, filters, n);
    }
  }

  /** Exactly the selected outgoing flows contribute a step. */
  lemma {:induction false} AlongMembers(p: Process, outgoing: seq<Id>, filters: seq<Id>, n: NextFlow)
    ensures n in Along(p, outgoing, filters) <==>
            exists f :: f in outgoing && Selected(p, filters, f) && n == StepAlong(p, f)
  {
    if outgoing == [] {
    } else {
      var front, last := outgoing[..|outgoing| - 1], outgoing[|outgoing| - 1];
      AlongMembers(p, front, filters, n);
      assert outgoing == front + [last];
      forall f ensures f in outgoing <==> f in front || f == last {}
      if Selected(p, filters, last) && n == StepAlong(p, last) {
        assert last in outgoing;
      }
    }
  }

  /** Some outgoing flow the filters let through leads to `x`. */
  ghost predicate Leads(p: Process, element: Id, filters: seq<Id>, x: Id) {
    && element in p.elements
    && exists f :: f in p.elements[element].outgoing && Selected(p, filters, f) && StepAlong(p, f).element == x
  }

  lemma SuccessorsAre(p: Process, element: Id, filters: seq<Id>, x: Id)
    ensures x in Successors(p, element, filters) <==> Leads(p, element, filters, x)
  {
    var next := NextFlows(p, Route, element, filters);
    if n :| n in next && n.element == x {
      AlongMembers(p, p.elements[element].outgoing, filters, n);
    }
    if Leads(p, element, filters, x) {
      var f :| f in p.elements[element].outgoing && Selected(p, filters, f) && StepAlong(p, f).element == x;
      AlongMembers(p, p.elements[element].outgoing, filters, StepAlong(p, f));
    }
  }

  /** Two elements lead to the same places when they have the same selected flows leading there. */
  lemma SameOutgoing(p: Process, a: Id, fa: seq<Id>, q: Process, b: Id, fb: seq<Id>)
    requires a in p.elements && b in q.elements
    requires forall f | f in p.elements[a].outgoing && Selected(p, fa, f) ::
               f in q.elements[b].outgoing && Selected(q, fb, f) && StepAlong(q, f).element == StepAlong(p, f).element
    requires forall f | f in q.elements[b].outgoing && Selected(q, fb, f) ::
               f in p.elements[a].outgoing && Selected(p, fa, f) && StepAlong(q, f).element == StepAlong(p, f).element
    ensures Successors(p, a, fa) == Successors(q, b, fb)
  {
    forall x ensures x in Successors(p, a, fa) <==> x in Successors(q, b, fb) {
      SuccessorsAre(p, a, fa, x);
      SuccessorsAre(q, b, fb, x);
    }
  }

  /** Routing distributes over a split of the outgoing list. */
  lemma {:induction false} AlongConcat(p: Process, a: seq<Id>, b: seq<Id>, filters: seq<Id>)
    ensures Along(p, a + b, filters) == Along(p, a, filters) + Along(p, b, filters)
  {
    if b == [] {
      assert a + b == a;
    } else {
      var front, last := b[..|b| - 1], b[|b| - 1];
      AlongConcat(p, a, front, filters);
      assert (a + b)[..|a + b| - 1] == a + front;
      assert (a + b)[|a + b| - 1] == last;
    }
  }

  /** Never more steps than outgoing flows. */
  lemma {:induction false} AlongLength(p: Process, outgoing: seq<Id>, filters: seq<Id>)
    ensures |Along(p, outgoing, filters)| <= |outgoing|
  {
    if outgoing != [] {
      AlongLength(p, outgoing[..|outgoing| - 1], filters);
    }
  }
}

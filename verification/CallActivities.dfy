/** Inlining a called process into the running one. */
module CallActivities {
  import opened Bpmn
  import opened Routing
  import opened Strings
  import opened Prefixing
  import opened Records
  import ParallelJoin

  function CallPrefix(caller: Id): string { "ca-" + caller + "." }

  function EntryFlow(caller: Id): Id { CallPrefix(caller) + "entry" }

  function CalledStart(caller: Id, called: Process): Id { CallPrefix(caller) + called.start }

  /** An element copied under the prefix: its flow lists are rewritten, its other fields are not. */
  function Renamed(prefix: string, el: Element): Element {
    el.(incoming := PrefixAll(prefix, el.incoming), outgoing := PrefixAll(prefix, el.outgoing))
  }

  function ListsPrefixed(prefix: string, elements: map<Id, Element>): map<Id, Element> {
    map id | id in elements :: Renamed(prefix, elements[id])
  }

  function RenamedElements(prefix: string, elements: map<Id, Element>): (r: map<Id, Element>)
    ensures forall k :: k in r <==> HasPrefix(k, prefix) && Tail(prefix, k) in elements
    ensures forall id | id in elements :: prefix + id in r && r[prefix + id] == Renamed(prefix, elements[id])
  {
    PrefixKeys(prefix, ListsPrefixed(prefix, elements))
  }

  predicate IsExit(prefix: string, flow: Id) {
    !HasSuffix(flow, "_sp_entry") && !HasPrefix(flow, prefix)
  }

  function ExitFlows(prefix: string, outgoing: seq<Id>): (r: seq<Id>)
    ensures forall f :: f in r <==> f in outgoing && IsExit(prefix, f)
  {
    if outgoing == [] then []
    else
      assert outgoing == outgoing[..|outgoing| - 1] + [outgoing[|outgoing| - 1]];
      var last := outgoing[|outgoing| - 1];
      ExitFlows(prefix, outgoing[..|outgoing| - 1]) + if IsExit(prefix, last) then [last] else []
  }

  /** The called end event leads on along the caller's own outgoing flows. */
  function WithExits(el: Element, exits: seq<Id>): Element {
    el.(outgoing := el.outgoing + exits, exitFlows := Join(exits))
  }

  function OutgoingOf(elements: map<Id, Element>, id: Id): seq<Id> {
    if id in elements then elements[id].outgoing else []
  }

  function InlinedFlows(p: Process, caller: Id, called: Process): (flows: map<Id, Flow>)
    ensures forall f :: f in flows <==>
              (f in p.flows || f == EntryFlow(caller)
               || (HasPrefix(f, CallPrefix(caller)) && Tail(CallPrefix(caller), f) in called.flows))
    ensures EntryFlow(caller) in flows && flows[EntryFlow(caller)] == Flow(caller, CalledStart(caller, called))
    ensures forall f | f in p.flows && !HasPrefix(f, CallPrefix(caller)) :: flows[f] == p.flows[f]
    ensures forall f | f in called.flows && f != "entry" ::
              CallPrefix(caller) + f in flows
              && flows[CallPrefix(caller) + f] == PrefixEnds(CallPrefix(caller), called.flows[f])
  {
    var prefix := CallPrefix(caller);
    assert HasPrefix(EntryFlow(caller), prefix);
    assert forall f | f in called.flows && f != "entry" ::
      Tail(prefix, prefix + f) == f && Tail(prefix, prefix + "entry") == "entry";
    p.flows + PrefixFlows(prefix, called.flows) + map[EntryFlow(caller) := Flow(caller, CalledStart(caller, called))]
  }

  function InlinedElements(p: Process, caller: Id, called: Process, end: Option<Id>): map<Id, Element> {
    var prefix := CallPrefix(caller);
    var elements := p.elements + RenamedElements(prefix, called.elements);
    if end.Some? && prefix + end.value in elements then
      var exits := ExitFlows(prefix, OutgoingOf(elements, caller));
      elements[prefix + end.value := WithExits(elements[prefix + end.value], exits)]
    else elements
  }

  /** The running process after the call. `end` is the end event the loop over the called
      elements met first, `None` when there is none. */
  function Inlined(p: Process, caller: Id, called: Process, end: Option<Id>): Process {
    Process(p.start, InlinedElements(p, caller, called, end), InlinedFlows(p, caller, called))
  }

  /** The loop over the called elements; the map may be visited in any order. */
  method CopyElements(prefix: string, base: map<Id, Element>, added: map<Id, Element>)
      returns (elements: map<Id, Element>, end: Option<Id>)
    ensures elements == base + RenamedElements(prefix, added)
    ensures match end
            case None => forall id | id in added :: added[id].kind != EndEvent
            case Some(e) => e in added && added[e].kind == EndEvent
  {
    elements, end := base, None;
    var todo := added.Keys;
    ghost var copies := ListsPrefixed(prefix, added);
    NoneAndAll(prefix, base, copies);
    while todo != {}
      invariant todo <= added.Keys
      invariant elements == base + PrefixKeys(prefix, copies - todo)
      invariant end.Some? ==> end.value in added && added[end.value].kind == EndEvent
      invariant end.None? ==> forall id | id in added && id !in todo :: added[id].kind != EndEvent
      decreases todo
    {
      var id :| id in todo;
      PrefixOneMore(prefix, base, copies, todo, id);
      todo := todo - {id};
      elements := elements[prefix + id := Renamed(prefix, added[id])];
      if added[id].kind == EndEvent && end.None? {
        end := Some(id);
      }
    }
  }

  /** The call-activity case: copy the called process, route its end back, add the entry flow. */
  method Inline(p: Process, caller: Id, called: Process) returns (q: Process, end: Option<Id>)
    ensures FirstEnd(called, end) && q == Inlined(p, caller, called, end)
  {
    var prefix := CallPrefix(caller);
    var elements, flows;
    elements, end := CopyElements(prefix, p.elements, called.elements);
    flows := CopyFlows(prefix, p.flows, called.flows);
    flows := flows + map[EntryFlow(caller) := Flow(caller, CalledStart(caller, called))];
    if end.Some? && prefix + end.value in elements {
      var exits := ExitFlows(prefix, OutgoingOf(elements, caller));
      elements := elements[prefix + end.value := WithExits(elements[prefix + end.value], exits)];
    }
    q := Process(p.start, elements, flows);
  }

  /** The ids of the call are new to the running process, and "entry" is free in the called one. */
  ghost predicate FreshCall(p: Process, caller: Id, called: Process) {
    var prefix := CallPrefix(caller);
    && (forall id | id in p.elements :: !HasPrefix(id, prefix))
    && (forall f | f in p.flows :: !HasPrefix(f, prefix))
    && (forall id, f | id in p.elements && f in p.elements[id].outgoing :: !HasPrefix(f, prefix))
    && "entry" !in called.flows
    && (forall id | id in called.elements :: "entry" !in called.elements[id].outgoing)
  }

  /** An element the running process had before the call. */
  lemma OldElementAt(p: Process, caller: Id, called: Process, end: Option<Id>, id: Id)
    requires FreshCall(p, caller, called) && FirstEnd(called, end) && id in p.elements
    ensures var q := InlinedElements(p, caller, called, end); id in q && q[id] == p.elements[id]
  {
    if end.Some? {
      TailOfPrefixed(CallPrefix(caller), end.value);
    }
  }

  /** An element the call copied: the chosen end also gets the caller's flows as its exits. */
  lemma InlinedAt(p: Process, caller: Id, called: Process, end: Option<Id>, id: Id)
    requires FreshCall(p, caller, called) && FirstEnd(called, end) && id in called.elements
    ensures var q, prefix := InlinedElements(p, caller, called, end), CallPrefix(caller);
            var copy := Renamed(prefix, called.elements[id]);
            && prefix + id in q
            && q[prefix + id] == if end == Some(id)
                 then WithExits(copy, ExitFlows(prefix, OutgoingOf(p.elements, caller))) else copy
  {
    var prefix := CallPrefix(caller);
    var elements := p.elements + RenamedElements(prefix, called.elements);
    if end.Some? {
      TailOfPrefixed(prefix, id);
      TailOfPrefixed(prefix, end.value);
    }
    CallerNotInside(p, caller, called);
  }

  lemma CallerNotInside(p: Process, caller: Id, called: Process)
    ensures var elements := p.elements + RenamedElements(CallPrefix(caller), called.elements);
            OutgoingOf(elements, caller) == OutgoingOf(p.elements, caller)
  {
    assert !HasPrefix(caller, CallPrefix(caller));
  }

  lemma OnlyTheseInlined(p: Process, caller: Id, called: Process, end: Option<Id>, k: Id)
    requires k in InlinedElements(p, caller, called, end)
    ensures k in p.elements || (HasPrefix(k, CallPrefix(caller)) && Tail(CallPrefix(caller), k) in called.elements)
  {
  }

  lemma KindInside(p: Process, caller: Id, called: Process, end: Option<Id>, id: Id)
    requires FreshCall(p, caller, called) && FirstEnd(called, end)
    ensures KindOf(Inlined(p, caller, called, end), CallPrefix(caller) + id) == KindOf(called, id)
  {
    var prefix := CallPrefix(caller);
    TailOfPrefixed(prefix, id);
    if id in called.elements {
      InlinedAt(p, caller, called, end, id);
    } else if prefix + id in InlinedElements(p, caller, called, end) {
      OnlyTheseInlined(p, caller, called, end, prefix + id);
    }
  }

  lemma KindOutside(p: Process, caller: Id, called: Process, end: Option<Id>, id: Id)
    requires FreshCall(p, caller, called) && FirstEnd(called, end) && !HasPrefix(id, CallPrefix(caller))
    ensures KindOf(Inlined(p, caller, called, end), id) == KindOf(p, id)
  {
    if id in p.elements {
      OldElementAt(p, caller, called, end, id);
    } else if id in InlinedElements(p, caller, called, end) {
      OnlyTheseInlined(p, caller, called, end, id);
    }
  }

  lemma FlowOutside(p: Process, caller: Id, called: Process, f: Id)
    requires !HasPrefix(f, CallPrefix(caller))
    ensures f in InlinedFlows(p, caller, called) <==> f in p.flows
  {
    assert HasPrefix(EntryFlow(caller), CallPrefix(caller));
  }

  lemma FlowInside(p: Process, caller: Id, called: Process, f: Id)
    requires FreshCall(p, caller, called) && f != "entry"
    ensures CallPrefix(caller) + f in InlinedFlows(p, caller, called) <==> f in called.flows
  {
    var prefix := CallPrefix(caller);
    TailOfPrefixed(prefix, f);
    TailOfPrefixed(prefix, "entry");
  }

  /** The flow `f` means the same before and after the call. */
  predicate FlowKept(p: Process, q: Process, f: Id) {
    && (f in q.flows <==> f in p.flows)
    && KindOf(q, f) == KindOf(p, f)
    && (f in p.flows ==> q.flows[f] == p.flows[f])
  }

  lemma KeptOutside(p: Process, caller: Id, called: Process, end: Option<Id>, f: Id)
    requires FreshCall(p, caller, called) && FirstEnd(called, end) && !HasPrefix(f, CallPrefix(caller))
    ensures FlowKept(p, Inlined(p, caller, called, end), f)
  {
    FlowOutside(p, caller, called, f);
    KindOutside(p, caller, called, end, f);
  }

  lemma CopiedInside(p: Process, caller: Id, called: Process, end: Option<Id>, f: Id)
    requires FreshCall(p, caller, called) && FirstEnd(called, end) && f != "entry"
    ensures FlowCopied(called, Inlined(p, caller, called, end), CallPrefix(caller), f)
  {
    FlowInside(p, caller, called, f);
    KindInside(p, caller, called, end, f);
  }

  lemma KeptSuccessors(p: Process, q: Process, id: Id, filters: seq<Id>)
    requires id in p.elements && id in q.elements && q.elements[id] == p.elements[id]
    requires forall f | f in p.elements[id].outgoing :: FlowKept(p, q, f)
    ensures Successors(q, id, filters) == Successors(p, id, filters)
  {
    SameOutgoing(p, id, filters, q, id, filters);
  }

  /** Elements the running process had before go on leading exactly where they led. */
  lemma CallersKeepSuccessors(p: Process, caller: Id, called: Process, end: Option<Id>, id: Id, filters: seq<Id>)
    requires FreshCall(p, caller, called) && FirstEnd(called, end) && id in p.elements
    ensures Successors(Inlined(p, caller, called, end), id, filters) == Successors(p, id, filters)
  {
    var q := Inlined(p, caller, called, end);
    OldElementAt(p, caller, called, end, id);
    forall f | f in p.elements[id].outgoing ensures FlowKept(p, q, f) {
      KeptOutside(p, caller, called, end, f);
    }
    KeptSuccessors(p, q, id, filters);
  }

  /** Inside the call every element but the chosen end leads exactly where its original leads. */
  lemma CalleeIsEmbedded(p: Process, caller: Id, called: Process, end: Option<Id>, id: Id, filters: seq<Id>)
    requires FreshCall(p, caller, called) && FirstEnd(called, end)
    requires id in called.elements && end != Some(id)
    ensures var prefix := CallPrefix(caller);
            Successors(Inlined(p, caller, called, end), prefix + id, PrefixAll(prefix, filters))
            == PrefixSet(prefix, Successors(called, id, filters))
  {
    var q, prefix := Inlined(p, caller, called, end), CallPrefix(caller);
    InlinedAt(p, caller, called, end, id);
    forall f | f in called.elements[id].outgoing ensures FlowCopied(called, q, prefix, f) {
      CopiedInside(p, caller, called, end, f);
    }
    CopiedSuccessors(called, q, prefix, id, filters);
  }

  /** The filters the chosen end event gets by splitting its exit string. */
  lemma ExitFilters(exits: seq<Id>)
    requires exits != [] && exits != [""] && forall f | f in exits :: ',' !in f
    ensures Join(exits) != "" && Split(Join(exits)) == exits
  {
    JoinEmpty(exits);
    SplitJoin(exits);
  }

  /** Where the caller leads, entries of sub-processes aside. */
  ghost predicate LeavesTo(p: Process, caller: Id, y: Id)
    requires caller in p.elements
  {
    exists f :: f in p.elements[caller].outgoing && !HasSuffix(f, "_sp_entry") && f in p.flows
                && StepAlong(p, f).element == y
  }

  /** The caller has a flow to leave along, and its flow ids survive being joined with commas. */
  predicate CanLeave(p: Process, caller: Id) {
    && caller in p.elements
    && (exists f :: f in p.elements[caller].outgoing && !HasSuffix(f, "_sp_entry"))
    && forall f | f in p.elements[caller].outgoing :: ',' !in f && f != ""
  }

  /** The chosen end event leads exactly where the call activity leads, along all its flows but the entries of
      sub-processes. */
  lemma EndReturnsAlongExits(p: Process, caller: Id, called: Process, e: Id)
    requires FreshCall(p, caller, called) && FirstEnd(called, Some(e)) && CanLeave(p, caller)
    ensures var q, end := Inlined(p, caller, called, Some(e)), CallPrefix(caller) + e;
            && end in q.elements && q.elements[end].exitFlows != ""
            && forall y :: y in Successors(q, end, Split(q.elements[end].exitFlows)) <==> LeavesTo(p, caller, y)
  {
    var q, prefix := Inlined(p, caller, called, Some(e)), CallPrefix(caller);
    var out := p.elements[caller].outgoing;
    var exits := ExitFlows(prefix, out);
    InlinedAt(p, caller, called, Some(e), e);
    UsableExits(p, caller, called, exits);
    ExitFilters(exits);
    forall f | f in out ensures FlowKept(p, q, f) {
      KeptOutside(p, caller, called, Some(e), f);
    }
    forall y ensures y in Successors(q, prefix + e, exits) <==> LeavesTo(p, caller, y) {
      ExitLeads(p, caller, q, prefix + e, exits, y);
    }
  }

  lemma UsableExits(p: Process, caller: Id, called: Process, exits: seq<Id>)
    requires FreshCall(p, caller, called) && CanLeave(p, caller)
    requires exits == ExitFlows(CallPrefix(caller), p.elements[caller].outgoing)
    ensures exits != [] && exits != [""]
    ensures forall f :: f in exits <==> f in p.elements[caller].outgoing && !HasSuffix(f, "_sp_entry")
    ensures forall f | f in exits :: ',' !in f
  {
    var f :| f in p.elements[caller].outgoing && !HasSuffix(f, "_sp_entry");
    assert f in exits;
    assert exits == [""] ==> "" in exits;
  }

  lemma ExitLeads(p: Process, caller: Id, q: Process, end: Id, exits: seq<Id>, y: Id)
    requires caller in p.elements && end in q.elements && exits != []
    requires forall f :: f in exits <==> f in p.elements[caller].outgoing && !HasSuffix(f, "_sp_entry")
    requires forall f | f in exits :: f in q.elements[end].outgoing && FlowKept(p, q, f)
    ensures y in Successors(q, end, exits) <==> LeavesTo(p, caller, y)
  {
    SuccessorsAre(q, end, exits, y);
    if LeavesTo(p, caller, y) {
      var f :| f in p.elements[caller].outgoing && !HasSuffix(f, "_sp_entry") && f in p.flows
               && StepAlong(p, f).element == y;
      assert f in exits && Selected(q, exits, f);
    }
  }

  /** With no such entries among its flows the call returns exactly where the call activity itself leads. */
  lemma EndReturnsToCaller(p: Process, caller: Id, called: Process, e: Id)
    requires FreshCall(p, caller, called) && FirstEnd(called, Some(e)) && CanLeave(p, caller)
    requires forall f | f in p.elements[caller].outgoing :: !HasSuffix(f, "_sp_entry")
    ensures var q, end := Inlined(p, caller, called, Some(e)), CallPrefix(caller) + e;
            && end in q.elements && q.elements[end].exitFlows != ""
            && Successors(q, end, Split(q.elements[end].exitFlows)) == Successors(p, caller, [])
  {
    var q, end := Inlined(p, caller, called, Some(e)), CallPrefix(caller) + e;
    EndReturnsAlongExits(p, caller, called, e);
    LeavingIsRouting(p, caller, Successors(q, end, Split(q.elements[end].exitFlows)));
  }

  lemma LeavingIsRouting(p: Process, caller: Id, ids: set<Id>)
    requires caller in p.elements && forall f | f in p.elements[caller].outgoing :: !HasSuffix(f, "_sp_entry")
    requires forall y :: y in ids <==> LeavesTo(p, caller, y)
    ensures ids == Successors(p, caller, [])
  {
    forall y ensures y in ids <==> y in Successors(p, caller, []) {
      LeavesAnywhere(p, caller, y);
    }
  }

  lemma LeavesAnywhere(p: Process, caller: Id, y: Id)
    requires caller in p.elements && forall f | f in p.elements[caller].outgoing :: !HasSuffix(f, "_sp_entry")
    ensures LeavesTo(p, caller, y) <==> y in Successors(p, caller, [])
  {
    SuccessorsAre(p, caller, [], y);
    if Leads(p, caller, [], y) {
      var f :| f in p.elements[caller].outgoing && Selected(p, [], f) && StepAlong(p, f).element == y;
    }
    if LeavesTo(p, caller, y) {
      var f :| f in p.elements[caller].outgoing && f in p.flows && StepAlong(p, f).element == y;
      assert Selected(p, [], f);
    }
  }

  /** What a call makes of an element of the called process: its flow lists under the prefix, entry by entry,
      everything else as it was; only the chosen end gets more flows, and their string. */
  lemma CopyKeeps(p: Process, caller: Id, called: Process, end: Option<Id>, id: Id)
    requires FreshCall(p, caller, called) && FirstEnd(called, end) && id in called.elements
    ensures var q, prefix, el := Inlined(p, caller, called, end), CallPrefix(caller), called.elements[id];
            && prefix + id in q.elements
            && var copy := q.elements[prefix + id];
            && copy.kind == el.kind && copy.direction == el.direction && copy.attachedTo == el.attachedTo
            && copy.errorCode == el.errorCode && copy.called == el.called && copy.innerEnd == el.innerEnd
            && |copy.incoming| == |el.incoming| && |copy.outgoing| >= |el.outgoing|
            && (forall i | 0 <= i < |el.incoming| :: copy.incoming[i] == prefix + el.incoming[i])
            && (forall i | 0 <= i < |el.outgoing| :: copy.outgoing[i] == prefix + el.outgoing[i])
            && (end != Some(id) ==> |copy.outgoing| == |el.outgoing| && copy.exitFlows == el.exitFlows)
  {
    InlinedAt(p, caller, called, end, id);
  }

  /** A gateway inside the call decides as it did in the called process, on as many records. */
  lemma GatesInside(p: Process, caller: Id, called: Process, end: Option<Id>, id: Id,
                    store: seq<FlowRecord>, before: seq<FlowRecord>)
    requires FreshCall(p, caller, called) && FirstEnd(called, end) && end != Some(id)
    requires ArrivalsAt(store, CallPrefix(caller) + id) == ArrivalsAt(before, id)
    ensures ParallelJoin.Decision(Inlined(p, caller, called, end), CallPrefix(caller) + id, store)
            == ParallelJoin.Decision(called, id, before)
  {
    if id in called.elements {
      var q := Inlined(p, caller, called, end);
      CopyKeeps(p, caller, called, end, id);
      SameDecision(called, id, before, q, CallPrefix(caller) + id, store);
    } else {
      NotInside(p, caller, called, end, id);
    }
  }

  /** A decision takes no more than the direction, the sizes of the lists and the number of records. */
  lemma SameDecision(p: Process, g: Id, before: seq<FlowRecord>, q: Process, h: Id, store: seq<FlowRecord>)
    requires g in p.elements && h in q.elements && q.elements[h].direction == p.elements[g].direction
    requires |q.elements[h].incoming| == |p.elements[g].incoming|
    requires |q.elements[h].outgoing| == |p.elements[g].outgoing|
    requires ArrivalsAt(store, h) == ArrivalsAt(before, g)
    ensures ParallelJoin.Decision(q, h, store) == ParallelJoin.Decision(p, g, before)
  {
  }

  lemma NotInside(p: Process, caller: Id, called: Process, end: Option<Id>, id: Id)
    requires FreshCall(p, caller, called) && id !in called.elements
    ensures CallPrefix(caller) + id !in Inlined(p, caller, called, end).elements
  {
    TailOfPrefixed(CallPrefix(caller), id);
    if CallPrefix(caller) + id in Inlined(p, caller, called, end).elements {
      OnlyTheseInlined(p, caller, called, end, CallPrefix(caller) + id);
    }
  }

  /** The flow `g` of the called element is among the filters under its new name. */
  predicate PassesRenamed(called: Process, id: Id, prefix: string, filters: seq<Id>, g: Id)
    requires id in called.elements
  {
    g in called.elements[id].outgoing && g in called.flows && prefix + g in filters
  }

  /** The copy of an element, with all its flows copied. */
  ghost predicate CopiedElement(called: Process, q: Process, prefix: string, id: Id) {
    && id in called.elements && prefix + id in q.elements
    && q.elements[prefix + id] == Renamed(prefix, called.elements[id])
    && forall g | g in called.elements[id].outgoing :: FlowCopied(called, q, prefix, g)
  }

  lemma ElementCopied(p: Process, caller: Id, called: Process, end: Option<Id>, id: Id)
    requires FreshCall(p, caller, called) && FirstEnd(called, end) && id in called.elements && end != Some(id)
    ensures CopiedElement(called, Inlined(p, caller, called, end), CallPrefix(caller), id)
  {
    InlinedAt(p, caller, called, end, id);
    forall g | g in called.elements[id].outgoing
      ensures FlowCopied(called, Inlined(p, caller, called, end), CallPrefix(caller), g)
    {
      CopiedInside(p, caller, called, end, g);
    }
  }

  lemma PassingLeads(called: Process, q: Process, prefix: string, id: Id, filters: seq<Id>, g: Id)
    requires CopiedElement(called, q, prefix, id) && PassesRenamed(called, id, prefix, filters, g)
    ensures prefix + StepAlong(called, g).element in Successors(q, prefix + id, filters)
  {
    InPrefixAll(prefix, called.elements[id].outgoing, g);
    CopiedStep(called, q, prefix, [], g);
    SuccessorsAre(q, prefix + id, filters, prefix + StepAlong(called, g).element);
    assert Selected(q, filters, prefix + g);
  }

  lemma LeadsPassing(called: Process, q: Process, prefix: string, id: Id, filters: seq<Id>, x: Id) returns (g: Id)
    requires CopiedElement(called, q, prefix, id) && filters != [] && x in Successors(q, prefix + id, filters)
    ensures PassesRenamed(called, id, prefix, filters, g) && x == prefix + StepAlong(called, g).element
  {
    var out := called.elements[id].outgoing;
    SuccessorsAre(q, prefix + id, filters, x);
    var f :| f in PrefixAll(prefix, out) && Selected(q, filters, f) && StepAlong(q, f).element == x;
    var i :| 0 <= i < |out| && f == PrefixAll(prefix, out)[i];
    g := out[i];
    assert g in out;
    CopiedStep(called, q, prefix, [], g);
  }

  /** The exit string of an end event that closes a sub-process inside the called process is not
      rewritten. The token stops there if and only if no flow of that end event is in the string under
      its new name. */
  lemma NestedExitIsLost(p: Process, caller: Id, called: Process, end: Option<Id>, id: Id)
    requires FreshCall(p, caller, called) && FirstEnd(called, end)
    requires id in called.elements && end != Some(id)
    ensures var q, prefix, exits := Inlined(p, caller, called, end), CallPrefix(caller), called.elements[id].exitFlows;
            && prefix + id in q.elements && q.elements[prefix + id].exitFlows == exits
            && (Successors(q, prefix + id, Split(exits)) == {} <==>
                  forall g :: !PassesRenamed(called, id, prefix, Split(exits), g))
  {
    var q, prefix := Inlined(p, caller, called, end), CallPrefix(caller);
    var filters := Split(called.elements[id].exitFlows);
    ElementCopied(p, caller, called, end, id);
    if x :| x in Successors(q, prefix + id, filters) {
      var g := LeadsPassing(called, q, prefix, id, filters, x);
    }
    if g :| PassesRenamed(called, id, prefix, filters, g) {
      PassingLeads(called, q, prefix, id, filters, g);
    }
  }
}

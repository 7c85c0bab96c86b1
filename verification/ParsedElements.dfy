/** What becomes of each child of a well-formed file: which elements there are in the end, what they are, and
    how top-level gateways decide. */
module ParsedElements {
  import opened Bpmn
  import opened Routing
  import opened Records
  import opened Strings
  import opened Prefixing
  import opened Wiring
  import opened Reification
  import opened SubProcesses
  import opened Embedding
  import opened Documents
  import opened DocumentTheorems
  import opened Duplication
  import opened ParsedFiles
  import ParallelJoin

  /** All but the flow lists and what exit routing adds. */
  predicate SameFields(a: Element, b: Element) {
    && a.kind == b.kind && a.direction == b.direction && a.attachedTo == b.attachedTo && a.errorCode == b.errorCode
    && a.called == b.called && a.listedIncoming == b.listedIncoming && a.listedOutgoing == b.listedOutgoing
  }

  /** The passes after loading keep all other fields. */
  lemma FieldsFinished(p: Process, w: Process, x: Process, c: Id)
    requires Finished(p, w, x) && c in p.elements
    ensures c in x.elements && SameFields(x.elements[c], p.elements[c])
  {
    var q := Synthesized(w);
    assert Grown(p.flows, p.flows.Keys, c, p.elements[c], w.elements[c]);
    if s :| s in q.elements && Closes(q, s, c) {
      assert x.elements[c] == Closed(q.elements[c], q.elements[s].outgoing);
    }
  }

  /** A node of the file is in the process, with the fields the file gives it. */
  lemma OuterNode(doc: seq<FlowElement>, subs: seq<SubParse>, w: Process, x: Process, k: nat)
    requires WellFormed(doc) && ParsedAs(doc, subs, w, x) && k < |doc| && doc[k].Node?
    ensures doc[k].id in x.elements && SameFields(x.elements[doc[k].id], doc[k].element)
  {
    FileFinished(doc, subs, w, x);
    ItemKept(doc, subs, k);
    FieldsFinished(Assembled(doc, subs), w, x, doc[k].id);
  }

  lemma {:induction false} LoadedItem(items: seq<FlowElement>, j: nat)
    requires DistinctIds(items) && j < |items| && !items[j].Sub?
    ensures Installed(Loaded(items), items[j])
    decreases |items|
  {
    var n := |items| - 1;
    if j < n {
      assert DistinctIds(items[..n]);
      LoadedItem(items[..n], j);
      assert items[j].id != items[n].id;
    }
  }

  lemma LoadedFields(items: seq<FlowElement>, w0: Process, j: nat)
    requires DistinctIds(items) && j < |items| && items[j].Node? && Wired(Loaded(items), w0)
    ensures items[j].id in Synthesized(w0).elements
    ensures SameFields(Synthesized(w0).elements[items[j].id], items[j].element)
  {
    var p0, id := Loaded(items), items[j].id;
    LoadedItem(items, j);
    assert Grown(p0.flows, p0.flows.Keys, id, p0.elements[id], w0.elements[id]);
  }

  /** So is a node of a sub-process, under its prefix. */
  lemma InnerNode(doc: seq<FlowElement>, subs: seq<SubParse>, w: Process, x: Process, k: nat, j: nat)
    requires WellFormed(doc) && ParsedAs(doc, subs, w, x) && k < |doc| && HasInner(doc[k])
    requires j < |doc[k].inner.value| && doc[k].inner.value[j].Node?
    ensures var item, c := doc[k].inner.value[j], Within(doc[k].id) + doc[k].inner.value[j].id;
            c in x.elements && SameFields(x.elements[c], item.element)
  {
    var items := doc[k].inner.value;
    FileFinished(doc, subs, w, x);
    FileContains(doc, subs, k);
    assert SubParsed(doc[k], subs[k]);
    var w0 := InnerWiring(items, subs[k].inner);
    LoadedFields(items, w0, j);
    FieldsFinished(Assembled(doc, subs), w, x, Within(doc[k].id) + items[j].id);
  }

  /** A sequence flow of the file is a flow, and an element to visit. */
  lemma OuterFlow(doc: seq<FlowElement>, subs: seq<SubParse>, w: Process, x: Process, k: nat)
    requires WellFormed(doc) && ParsedAs(doc, subs, w, x) && k < |doc| && doc[k].Sequence?
    ensures doc[k].id in x.flows && x.flows[doc[k].id] == doc[k].flow && IsSequenceFlow(x, doc[k].id)
  {
    FileFinished(doc, subs, w, x);
    ItemKept(doc, subs, k);
    FinishedFlow(Assembled(doc, subs), w, x, doc[k].id);
    FinishedKind(Assembled(doc, subs), w, x, doc[k].id);
  }

  /** So is one inside a sub-process, with both ends under the prefix. */
  lemma InnerFlowKept(doc: seq<FlowElement>, subs: seq<SubParse>, w: Process, x: Process, k: nat, j: nat)
    requires WellFormed(doc) && ParsedAs(doc, subs, w, x) && k < |doc| && HasInner(doc[k])
    requires j < |doc[k].inner.value| && doc[k].inner.value[j].Sequence?
    ensures var prefix, item := Within(doc[k].id), doc[k].inner.value[j];
            && prefix + item.id in x.flows
            && x.flows[prefix + item.id] == Flow(prefix + item.flow.source, prefix + item.flow.target)
            && IsSequenceFlow(x, prefix + item.id)
  {
    var items := doc[k].inner.value;
    assert SubParsed(doc[k], subs[k]);
    var w0 := InnerWiring(items, subs[k].inner);
    LoadedFlowKept(items, w0, j);
    FileFinished(doc, subs, w, x);
    FileContains(doc, subs, k);
    CopiedFlowKept(Assembled(doc, subs), w, x, Within(doc[k].id), subs[k].inner, items[j].id);
  }

  lemma CopiedFlowKept(p: Process, w: Process, x: Process, prefix: string, s: Process, f: Id)
    requires Finished(p, w, x) && SynthNamed(p) && Copies(p, prefix, s) && f in s.flows && IsSequenceFlow(s, f)
    ensures prefix + f in x.flows && x.flows[prefix + f] == PrefixEnds(prefix, s.flows[f])
            && IsSequenceFlow(x, prefix + f)
  {
    FinishedFlow(p, w, x, prefix + f);
    KindInside(p, w, x, prefix, s, f);
  }

  lemma LoadedFlowKept(items: seq<FlowElement>, w0: Process, j: nat)
    requires DistinctIds(items) && j < |items| && items[j].Sequence? && Wired(Loaded(items), w0)
    ensures var f, s := items[j].id, Synthesized(w0);
            f in s.flows && s.flows[f] == items[j].flow && IsSequenceFlow(s, f)
  {
    LoadedItem(items, j);
    LoadedPlain(items);
    KindsKept(Loaded(items), w0, items[j].id);
    SynthKeeps(Loaded(items), w0, items[j].id);
  }

  lemma StepSub(p: Process, item: FlowElement, parse: SubParse)
    requires item.Sub?
    ensures KindOf(AddedOuter(p, item, parse), item.id) == SubProcess
  {
  }

  lemma StepKind(p: Process, item: FlowElement, parse: SubParse, id: Id)
    requires XmlId(id) && XmlId(item.id) && item.id != id && id in p.elements
    ensures KindOf(AddedOuter(p, item, parse), id) == KindOf(p, id)
  {
    StepSequence(p, item, parse, id);
  }

  lemma {:induction false} SubKept(doc: seq<FlowElement>, subs: seq<SubParse>, i: nat)
    requires |subs| == |doc| && DistinctIds(doc) && i < |doc| && doc[i].Sub?
    ensures KindOf(Assembled(doc, subs), doc[i].id) == SubProcess
    decreases |doc|
  {
    var m := |doc| - 1;
    if i < m {
      assert DistinctIds(doc[..m]);
      SubKept(doc[..m], subs[..m], i);
      StepKind(Assembled(doc[..m], subs[..m]), doc[m], subs[m], doc[i].id);
    } else {
      StepSub(Assembled(doc[..m], subs[..m]), doc[m], subs[m]);
    }
  }

  /** A sub-process of the file is one of the process, whether or not its inside could be read. */
  lemma OuterSub(doc: seq<FlowElement>, subs: seq<SubParse>, w: Process, x: Process, k: nat)
    requires WellFormed(doc) && ParsedAs(doc, subs, w, x) && k < |doc| && doc[k].Sub?
    ensures KindOf(x, doc[k].id) == SubProcess
  {
    FileFinished(doc, subs, w, x);
    SubKept(doc, subs, k);
    FinishedKind(Assembled(doc, subs), w, x, doc[k].id);
  }

  /** `id` is a child of the file, or one of a sub-process that could be read and is no sub-process. */
  ghost predicate Declared(doc: seq<FlowElement>, id: Id) {
    exists i :: 0 <= i < |doc| && (doc[i].id == id
      || (HasInner(doc[i]) && DeclaredInside(doc[i].id, doc[i].inner.value, id)))
  }

  ghost predicate DeclaredInside(sub: Id, items: seq<FlowElement>, id: Id) {
    exists j :: 0 <= j < |items| && !items[j].Sub? && id == Within(sub) + items[j].id
  }

  lemma {:induction false} LoadedIds(items: seq<FlowElement>, id: Id)
    ensures id in Loaded(items).elements <==> exists j :: 0 <= j < |items| && !items[j].Sub? && items[j].id == id
  {
    if items != [] {
      var n := |items| - 1;
      LoadedIds(items[..n], id);
      assert forall j | 0 <= j < n :: items[..n][j] == items[j];
    }
  }

  lemma InnerIds(items: seq<FlowElement>, s: Process, sub: Id, id: Id)
    requires DistinctIds(items) && InnerParse(items, s)
    ensures id in PrefixKeys(Within(sub), s.elements) <==> DeclaredInside(sub, items, id)
  {
    var w0 := InnerWiring(items, s);
    if HasPrefix(id, Within(sub)) {
      PrefixedTail(Within(sub), id);
      LoadedIds(items, Tail(Within(sub), id));
    }
    forall j | 0 <= j < |items| && !items[j].Sub? && id == Within(sub) + items[j].id
      ensures HasPrefix(id, Within(sub)) && Tail(Within(sub), id) == items[j].id
    {
      TailOfPrefixed(Within(sub), items[j].id);
    }
  }

  lemma DeclaredStep(doc: seq<FlowElement>, id: Id)
    requires doc != []
    ensures var n := |doc| - 1;
            Declared(doc, id) <==> Declared(doc[..n], id) || doc[n].id == id
                                   || (HasInner(doc[n]) && DeclaredInside(doc[n].id, doc[n].inner.value, id))
  {
    var n := |doc| - 1;
    if Declared(doc[..n], id) {
      var i :| 0 <= i < n && (doc[..n][i].id == id || (HasInner(doc[..n][i])
               && DeclaredInside(doc[..n][i].id, doc[..n][i].inner.value, id)));
      assert doc[i] == doc[..n][i];
    }
    if Declared(doc, id) {
      var i :| 0 <= i < |doc| && (doc[i].id == id
               || (HasInner(doc[i]) && DeclaredInside(doc[i].id, doc[i].inner.value, id)));
      assert i < n ==> doc[..n][i] == doc[i];
    }
  }

  lemma {:induction false} AssembledIds(doc: seq<FlowElement>, subs: seq<SubParse>, id: Id)
    requires WellFormed(doc) && SubsParsed(doc, subs)
    ensures id in Assembled(doc, subs).elements <==> Declared(doc, id)
  {
    if doc != [] {
      var n := |doc| - 1;
      assert WellFormed(doc[..n]) && SubsParsed(doc[..n], subs[..n]);
      AssembledIds(doc[..n], subs[..n], id);
      DeclaredStep(doc, id);
      if HasInner(doc[n]) {
        assert SubParsed(doc[n], subs[n]);
        InnerIds(doc[n].inner.value, subs[n].inner, doc[n].id, id);
      }
    }
  }

  /** The process has exactly the elements the file declares. */
  lemma ElementsAreDeclared(doc: seq<FlowElement>, subs: seq<SubParse>, w: Process, x: Process, id: Id)
    requires WellFormed(doc) && ParsedAs(doc, subs, w, x)
    ensures id in x.elements <==> Declared(doc, id)
  {
    FileFinished(doc, subs, w, x);
    AssembledIds(doc, subs, id);
    FinishedKind(Assembled(doc, subs), w, x, id);
  }

  predicate StartsAt(items: seq<FlowElement>, k: nat) {
    k < |items| && items[k].Node? && items[k].isStart && items[k].id != ""
  }

  /** `id` is the first start event, or "" if there is none. */
  ghost predicate FirstStart(items: seq<FlowElement>, id: Id) {
    || (id == "" && forall k: nat :: !StartsAt(items, k))
    || (exists k: nat :: StartsAt(items, k) && items[k].id == id && forall j: nat | j < k :: !StartsAt(items, j))
  }

  lemma FirstStartStep(items: seq<FlowElement>, id: Id)
    requires items != [] && FirstStart(items[..|items| - 1], id)
    ensures var n := |items| - 1;
            FirstStart(items, if id == "" && StartsAt(items, n) then items[n].id else id)
  {
    var n := |items| - 1;
    assert forall k: nat | k < n :: StartsAt(items, k) <==> StartsAt(items[..n], k);
    if k: nat :| StartsAt(items[..n], k) && items[..n][k].id == id
                   && forall j: nat | j < k :: !StartsAt(items[..n], j)
    {
      assert StartsAt(items, k) && items[k].id == id;
      assert forall j: nat | j < k :: !StartsAt(items, j);
    } else if StartsAt(items, n) {
      assert forall j: nat | j < n :: !StartsAt(items, j);
    }
  }

  lemma {:induction false} LoadedFirstStart(items: seq<FlowElement>)
    ensures FirstStart(items, Loaded(items).start)
  {
    if items != [] {
      LoadedFirstStart(items[..|items| - 1]);
      FirstStartStep(items, Loaded(items[..|items| - 1]).start);
    }
  }

  lemma {:induction false} AssembledFirstStart(doc: seq<FlowElement>, subs: seq<SubParse>)
    requires |subs| == |doc|
    ensures FirstStart(doc, Assembled(doc, subs).start)
  {
    if doc != [] {
      var n := |doc| - 1;
      AssembledFirstStart(doc[..n], subs[..n]);
      FirstStartStep(doc, Assembled(doc[..n], subs[..n]).start);
    }
  }

  /** The process starts at the first start event of the file, and a sub-process is entered at its own first. */
  lemma StartsAreFirst(doc: seq<FlowElement>, subs: seq<SubParse>, w: Process, x: Process, k: nat)
    requires WellFormed(doc) && ParsedAs(doc, subs, w, x)
    ensures FirstStart(doc, x.start)
    ensures k < |doc| && HasInner(doc[k]) ==>
              FirstStart(doc[k].inner.value, subs[k].inner.start)
              && Successors(x, doc[k].id, [doc[k].id + "_sp_entry"]) == {doc[k].id + "." + subs[k].inner.start}
  {
    FileFinished(doc, subs, w, x);
    AssembledFirstStart(doc, subs);
    if k < |doc| && HasInner(doc[k]) {
      assert SubParsed(doc[k], subs[k]);
      var w0 := InnerWiring(doc[k].inner.value, subs[k].inner);
      LoadedFirstStart(doc[k].inner.value);
      SubProcessEntry(doc, subs, w, x, k);
    }
  }

  /** The sequence flows of the file that aim at `n`. */
  function SequencesTo(doc: seq<FlowElement>, n: Id): set<Id> {
    set i | 0 <= i < |doc| && doc[i].Sequence? && doc[i].flow.target == n :: doc[i].id
  }

  lemma StepTarget(p: Process, item: FlowElement, parse: SubParse, g: Id)
    requires g in AddedOuter(p, item, parse).flows && Dotless(AddedOuter(p, item, parse).flows[g].target)
    ensures var q := AddedOuter(p, item, parse);
            item == Sequence(g, q.flows[g]) || (g in p.flows && q.flows[g] == p.flows[g])
  {
    if HasInner(item) {
      DotWithin(item.id, Within(item.id) + parse.inner.start);
      if g in PrefixFlows(Within(item.id), parse.inner.flows) {
        PrefixedTail(Within(item.id), g);
        DotWithin(item.id, Within(item.id) + parse.inner.flows[Tail(Within(item.id), g)].target);
      }
    }
  }

  lemma {:induction false} TargetOrigin(doc: seq<FlowElement>, subs: seq<SubParse>, g: Id)
    requires |subs| == |doc| && g in Assembled(doc, subs).flows && Dotless(Assembled(doc, subs).flows[g].target)
    ensures exists i :: 0 <= i < |doc| && doc[i] == Sequence(g, Assembled(doc, subs).flows[g])
  {
    var m, flow := |doc| - 1, Assembled(doc, subs).flows[g];
    StepTarget(Assembled(doc[..m], subs[..m]), doc[m], subs[m], g);
    if doc[m] != Sequence(g, flow) {
      TargetOrigin(doc[..m], subs[..m], g);
      var i :| 0 <= i < m && doc[..m][i] == Sequence(g, flow);
      assert doc[i] == doc[..m][i];
    }
  }

  lemma AimedAreSequences(doc: seq<FlowElement>, subs: seq<SubParse>, n: Id)
    requires WellFormed(doc) && SubsParsed(doc, subs) && Dotless(n)
    ensures var p := Assembled(doc, subs); Aimed(p.flows, p.flows.Keys, n) == SequencesTo(doc, n)
  {
    var p := Assembled(doc, subs);
    forall g | g in Aimed(p.flows, p.flows.Keys, n) ensures g in SequencesTo(doc, n) {
      TargetOrigin(doc, subs, g);
    }
    forall g | g in SequencesTo(doc, n) ensures g in Aimed(p.flows, p.flows.Keys, n) {
      var i :| 0 <= i < |doc| && doc[i].Sequence? && doc[i].flow.target == n && doc[i].id == g;
      ItemKept(doc, subs, i);
    }
  }

  lemma SourcedAreSequences(doc: seq<FlowElement>, subs: seq<SubParse>, k: nat)
    requires WellFormed(doc) && SubsParsed(doc, subs) && k < |doc| && doc[k].Node?
    ensures var p := Assembled(doc, subs); Sourced(p.flows, p.flows.Keys, doc[k].id) == SequencesFrom(doc, doc[k].id)
  {
    var p, n := Assembled(doc, subs), doc[k].id;
    forall g | g in Sourced(p.flows, p.flows.Keys, n) ensures g in SequencesFrom(doc, n) {
      SourceOrigin(doc, subs, g);
    }
    forall g | g in SequencesFrom(doc, n) ensures g in Sourced(p.flows, p.flows.Keys, n) {
      FlowsFrom(doc, subs, n, g);
    }
  }

  /** The lists of a top-level node: one entry for each sequence flow of the file. */
  lemma OuterListSizes(doc: seq<FlowElement>, subs: seq<SubParse>, w: Process, x: Process, k: nat)
    requires WellFormed(doc) && ParsedAs(doc, subs, w, x)
    requires k < |doc| && doc[k].Node? && doc[k].element.kind != SequenceFlow
    ensures doc[k].id in x.elements
    ensures |x.elements[doc[k].id].incoming| == |SequencesTo(doc, doc[k].id)|
    ensures |x.elements[doc[k].id].outgoing| == |SequencesFrom(doc, doc[k].id)|
  {
    AimedAreSequences(doc, subs, doc[k].id);
    SourcedAreSequences(doc, subs, k);
    OuterListsFinished(doc, subs, w, x, k);
  }

  lemma OuterListsFinished(doc: seq<FlowElement>, subs: seq<SubParse>, w: Process, x: Process, k: nat)
    requires WellFormed(doc) && ParsedAs(doc, subs, w, x)
    requires k < |doc| && doc[k].Node? && doc[k].element.kind != SequenceFlow
    ensures var p, n := Assembled(doc, subs), doc[k].id;
            && n in x.elements && |x.elements[n].incoming| == |Aimed(p.flows, p.flows.Keys, n)|
            && |x.elements[n].outgoing| == |Sourced(p.flows, p.flows.Keys, n)|
  {
    FileFinished(doc, subs, w, x);
    ItemKept(doc, subs, k);
    DotlessUnclosed(doc, subs, doc[k].id);
    FinishedKind(Assembled(doc, subs), w, x, doc[k].id);
    FinishedSizes(Assembled(doc, subs), w, x, doc[k].id);
  }

  /** How a top-level parallel gateway decides, in every well-formed file, by the flows of the file: with `m`
      sequence flows aimed at it and `n` starting at it. */
  lemma OuterGateDecision(doc: seq<FlowElement>, subs: seq<SubParse>, w: Process, x: Process, k: nat,
                          store: seq<FlowRecord>)
    requires WellFormed(doc) && ParsedAs(doc, subs, w, x)
    requires k < |doc| && doc[k].Node? && doc[k].element.kind == ParallelGateway
    ensures var id, direction := doc[k].id, doc[k].element.direction;
            var m, n := |SequencesTo(doc, id)|, |SequencesFrom(doc, id)|;
            && ParallelJoin.Decision(x, id, store) in {Wait, Route}
            && (ParallelJoin.Decision(x, id, store) == Wait <==>
                  && (direction == Converging || (direction in {Unspecified, Mixed} && n <= 1 && m > 1))
                  && ArrivalsAt(store, id) < m)
  {
    OuterNode(doc, subs, w, x, k);
    OuterListSizes(doc, subs, w, x, k);
  }

  lemma LoadedFlowSets(items: seq<FlowElement>, n: Id)
    requires DistinctIds(items)
    ensures var p0 := Loaded(items);
            && Aimed(p0.flows, p0.flows.Keys, n) == SequencesTo(items, n)
            && Sourced(p0.flows, p0.flows.Keys, n) == SequencesFrom(items, n)
  {
    var p0 := Loaded(items);
    forall g ensures g in p0.flows <==> exists i :: 0 <= i < |items| && items[i].Sequence? && items[i].id == g
    {
      if g in p0.flows {
        LoadedFlow(items, g);
      }
      forall i | 0 <= i < |items| && items[i].Sequence? && items[i].id == g ensures g in p0.flows {
        LoadedItem(items, i);
      }
    }
    forall i | 0 <= i < |items| && items[i].Sequence?
      ensures items[i].id in p0.flows && p0.flows[items[i].id] == items[i].flow
    {
      LoadedItem(items, i);
    }
  }

  lemma LoadedSizes(items: seq<FlowElement>, w0: Process, j: nat)
    requires DistinctIds(items) && j < |items| && items[j].Node? && items[j].element.kind != SequenceFlow
    requires Wired(Loaded(items), w0)
    ensures var id, s := items[j].id, Synthesized(w0);
            && id in s.elements && |s.elements[id].incoming| == |SequencesTo(items, id)|
            && |s.elements[id].outgoing| == |SequencesFrom(items, id)|
  {
    LoadedItem(items, j);
    NodeLists(Loaded(items), w0, items[j].id);
    LoadedFlowSets(items, items[j].id);
  }

  /** How a parallel gateway inside a sub-process decides, by the flows of the file: as if each flow aimed at
      it were three, and as if there were two of each that starts at it. */
  lemma InnerGateByFile(doc: seq<FlowElement>, subs: seq<SubParse>, w: Process, x: Process, k: nat, j: nat,
                        store: seq<FlowRecord>)
    requires WellFormed(doc) && ParsedAs(doc, subs, w, x) && k < |doc| && HasInner(doc[k])
    requires j < |doc[k].inner.value| && doc[k].inner.value[j].Node?
    requires doc[k].inner.value[j].element.kind == ParallelGateway
    requires doc[k].inner.value[j].id != subs[k].inner.start
    ensures var items, id, direction := doc[k].inner.value, doc[k].inner.value[j].id,
            doc[k].inner.value[j].element.direction;
            var m, n, c := |SequencesTo(items, id)|, |SequencesFrom(items, id)|, doc[k].id + "." + id;
            && ParallelJoin.Decision(x, c, store) in {Wait, Route}
            && (ParallelJoin.Decision(x, c, store) == Wait <==>
                  && (direction == Converging || (direction in {Unspecified, Mixed} && n == 0 && 3 * m > 1))
                  && ArrivalsAt(store, c) < 3 * m)
  {
    var items := doc[k].inner.value;
    assert SubParsed(doc[k], subs[k]);
    var w0 := InnerWiring(items, subs[k].inner);
    LoadedFields(items, w0, j);
    LoadedSizes(items, w0, j);
    InnerGateDecision(doc, subs, w, x, k, items[j].id, store);
  }
}

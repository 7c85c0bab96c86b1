/** The graph theorems, for every well-formed file and every way of parsing it. */
module ParsedFiles {
  import opened Bpmn
  import opened Routing
  import opened Strings
  import opened Prefixing
  import opened Wiring
  import opened Reification
  import opened SubProcesses
  import opened Embedding
  import opened Documents
  import opened DocumentTheorems
  import opened Duplication
  import opened Records
  import ParallelJoin

  lemma AllItemsOk(doc: seq<FlowElement>)
    requires WellFormed(doc)
    ensures forall i | 0 <= i < |doc| :: ItemOk(doc[i])
  {
  }

  lemma EachInner(doc: seq<FlowElement>, subs: seq<SubParse>, i: nat)
    requires WellFormed(doc) && SubsParsed(doc, subs) && i < |doc| && HasInner(doc[i])
    ensures var s := subs[i].inner;
            && Inner(s) && FirstEnd(s, subs[i].end)
            && (forall f | f in s.flows :: InnerFlowName(doc[i].inner.value, f))
            && (forall n | n in s.elements :: XmlId(n))
  {
    assert SubParsed(doc[i], subs[i]);
    InnerFacts(doc[i].inner.value, subs[i].inner);
  }

  ghost predicate InnerIdsPlain(doc: seq<FlowElement>, subs: seq<SubParse>)
    requires |subs| == |doc|
  {
    forall i, n | 0 <= i < |doc| && HasInner(doc[i]) && n in subs[i].inner.elements :: XmlId(n)
  }

  lemma EveryInner(doc: seq<FlowElement>, subs: seq<SubParse>)
    requires WellFormed(doc) && SubsParsed(doc, subs)
    ensures AllInner(doc, subs) && InnerIdsPlain(doc, subs)
  {
    forall i | 0 <= i < |doc| && HasInner(doc[i])
      ensures Inner(subs[i].inner) && forall n | n in subs[i].inner.elements :: XmlId(n)
    {
      EachInner(doc, subs, i);
    }
  }

  lemma StepUnsynth(p: Process, item: FlowElement, parse: SubParse, n: Id)
    requires XmlId(item.id) && (HasInner(item) ==> forall y | y in parse.inner.elements :: XmlId(y))
    requires n in AddedOuter(p, item, parse).elements && n !in p.elements
    ensures !HasSuffix(n, SYNTH)
  {
    if n != item.id && HasSuffix(n, SYNTH) {
      SynthSplits(Within(item.id), n);
    }
  }

  /** No element has an id the reification pass makes up. */
  lemma {:induction false} ElementsUnsynth(doc: seq<FlowElement>, subs: seq<SubParse>, n: Id)
    requires |subs| == |doc| && InnerIdsPlain(doc, subs) && forall i | 0 <= i < |doc| :: XmlId(doc[i].id)
    requires n in Assembled(doc, subs).elements
    ensures !HasSuffix(n, SYNTH)
  {
    var m := |doc| - 1;
    if n in Assembled(doc[..m], subs[..m]).elements {
      assert InnerIdsPlain(doc[..m], subs[..m]);
      ElementsUnsynth(doc[..m], subs[..m], n);
    } else {
      StepUnsynth(Assembled(doc[..m], subs[..m]), doc[m], subs[m], n);
    }
  }

  lemma FileNoClash(doc: seq<FlowElement>, subs: seq<SubParse>)
    requires WellFormed(doc) && SubsParsed(doc, subs)
    ensures NoClash(Assembled(doc, subs))
  {
    EveryInner(doc, subs);
    forall n | n in Assembled(doc, subs).elements ensures !HasSuffix(n, SYNTH) {
      ElementsUnsynth(doc, subs, n);
    }
    forall id ensures HasSuffix(Synth(id), SYNTH) {
      BaseOfSynth(id);
    }
  }

  lemma FileOneCloser(doc: seq<FlowElement>, subs: seq<SubParse>)
    requires |subs| == |doc| && DistinctIds(doc) && AllInner(doc, subs)
    ensures OneCloser(Assembled(doc, subs))
  {
    var p := Assembled(doc, subs);
    forall s, t, e | Closes(p, s, e) && Closes(p, t, e) ensures s == t {
      CloserOrigin(doc, subs, s);
      var i :| 0 <= i < |doc| && HasInner(doc[i]) && s == doc[i].id
               && subs[i].end.Some? && e == Within(s) + subs[i].end.value;
      ClosedBySub(doc, subs, i, t, subs[i].end.value);
    }
    forall s, e | Closes(p, s, e) ensures p.elements[e].innerEnd == "" {
      CloserOrigin(doc, subs, s);
      ClosedHasDot(doc, subs, s, e);
      if p.elements[e].innerEnd != "" {
        CloserOrigin(doc, subs, e);
      }
    }
  }

  lemma OneCloserKept(p: Process, w: Process)
    requires Wired(p, w) && OneCloser(p)
    ensures OneCloser(Synthesized(w))
  {
    var q := Synthesized(w);
    forall s, t, e | Closes(q, s, e) && Closes(q, t, e) ensures s == t {
      ClosesSame(p, w, s, e);
      ClosesSame(p, w, t, e);
    }
    forall s, e | Closes(q, s, e) ensures q.elements[e].innerEnd == "" {
      ClosesSame(p, w, s, e);
      assert Grown(p.flows, p.flows.Keys, e, p.elements[e], w.elements[e]);
    }
  }

  /** A parse of a well-formed file went through all its passes. */
  lemma FileFinished(doc: seq<FlowElement>, subs: seq<SubParse>, w: Process, x: Process)
    requires WellFormed(doc) && ParsedAs(doc, subs, w, x)
    ensures var p := Assembled(doc, subs);
            Finished(p, w, x) && SynthNamed(p) && OneCloser(Synthesized(w)) && NoClash(p) && AllInner(doc, subs)
  {
    var p := Assembled(doc, subs);
    EveryInner(doc, subs);
    AllItemsOk(doc);
    FileNoClash(doc, subs);
    SameReified(p, w);
    FileOneCloser(doc, subs);
    OneCloserKept(p, w);
    SynthNamedAssembled(doc, subs);
  }

  lemma SynthOfXml(id: Id)
    requires XmlId(id)
    ensures Dotless(Synth(id)) && !HasSuffix(Synth(id), ENTRY) && HasSuffix(Synth(id), SYNTH)
  {
    BaseOfSynth(id);
    var s := Synth(id);
    assert s[|s| - 1] == 'h';
    assert |s| >= |ENTRY| ==> s[|s| - |ENTRY|..][|ENTRY| - 1] == 'h';
  }

  /** The flows of a sub-process share no id with the finished process. */
  lemma FileSeparate(doc: seq<FlowElement>, subs: seq<SubParse>, k: nat)
    requires WellFormed(doc) && SubsParsed(doc, subs) && k < |doc| && HasInner(doc[k])
    ensures Separate(Assembled(doc, subs), subs[k].inner)
  {
    var p, s := Assembled(doc, subs), subs[k].inner;
    EachInner(doc, subs, k);
    var items := doc[k].inner.value;
    forall j | 0 <= j < |items| ensures items[j].id !in p.flows && Synth(items[j].id) !in p.flows {
      SynthOfXml(items[j].id);
      if items[j].id in p.flows {
        FlowOrigin(doc, subs, items[j].id);
      } else if Synth(items[j].id) in p.flows {
        FlowOrigin(doc, subs, Synth(items[j].id));
      }
    }
    forall f | f in s.flows ensures f !in p.flows && f !in SynthIds(p, p.elements.Keys) {
      var j :| 0 <= j < |items| && items[j].Sequence? && (f == items[j].id || f == Synth(items[j].id));
      NoSynthOf(p, items[j].id);
    }
  }

  lemma NoSynthOf(p: Process, id: Id)
    requires XmlId(id) && id !in p.flows
    ensures id !in SynthIds(p, p.elements.Keys) && Synth(id) !in SynthIds(p, p.elements.Keys)
  {
    forall y | Reified(p, y) ensures Synth(y) != id && Synth(y) != Synth(id) {
      BaseOfSynth(y);
      BaseOfSynth(id);
    }
  }

  lemma FileContains(doc: seq<FlowElement>, subs: seq<SubParse>, k: nat)
    requires WellFormed(doc) && SubsParsed(doc, subs) && k < |doc| && HasInner(doc[k])
    ensures Contains(Assembled(doc, subs), doc[k].id, subs[k].inner, subs[k].end)
  {
    AllItemsOk(doc);
    ContainsEach(doc, subs, k);
  }

  lemma InsideUnclosed(doc: seq<FlowElement>, subs: seq<SubParse>, k: nat, n: Id)
    requires |subs| == |doc| && DistinctIds(doc) && AllInner(doc, subs) && k < |doc| && HasInner(doc[k])
    requires subs[k].end != Some(n)
    ensures Unclosed(Assembled(doc, subs), Within(doc[k].id) + n)
  {
    forall t ensures !Closes(Assembled(doc, subs), t, Within(doc[k].id) + n) {
      if Closes(Assembled(doc, subs), t, Within(doc[k].id) + n) {
        ClosedBySub(doc, subs, k, t, n);
      }
    }
  }

  /** All the graph theorems ask for. */
  ghost predicate Established(p: Process, w: Process, x: Process, sub: Id, s: Process, end: Option<Id>) {
    && Finished(p, w, x) && SynthNamed(p) && OneCloser(Synthesized(w))
    && Contains(p, sub, s, end) && Separate(p, s) && Inner(s) && FirstEnd(s, end)
  }

  lemma FileEstablishes(doc: seq<FlowElement>, subs: seq<SubParse>, w: Process, x: Process, k: nat)
    requires WellFormed(doc) && ParsedAs(doc, subs, w, x) && k < |doc| && HasInner(doc[k])
    ensures Established(Assembled(doc, subs), w, x, doc[k].id, subs[k].inner, subs[k].end)
    ensures AllInner(doc, subs)
  {
    FileFinished(doc, subs, w, x);
    FileContains(doc, subs, k);
    FileSeparate(doc, subs, k);
    EachInner(doc, subs, k);
  }

  /** Inside a sub-process everything leads where it led before flattening. */
  lemma SubProcessInside(doc: seq<FlowElement>, subs: seq<SubParse>, w: Process, x: Process, k: nat, n: Id,
                         filters: seq<Id>)
    requires WellFormed(doc) && ParsedAs(doc, subs, w, x) && k < |doc| && HasInner(doc[k])
    requires n in subs[k].inner.elements && subs[k].end != Some(n)
    ensures var prefix := Within(doc[k].id);
            Successors(x, prefix + n, PrefixAll(prefix, filters))
            == PrefixSet(prefix, Successors(subs[k].inner, n, filters))
  {
    FileEstablishes(doc, subs, w, x, k);
    InsideUnclosed(doc, subs, k, n);
    InsideIsEmbedded(Assembled(doc, subs), w, x, doc[k].id, subs[k].inner, subs[k].end, n, filters);
  }

  /** Reachability inside a sub-process is the same before and after flattening. */
  lemma SubProcessWalks(doc: seq<FlowElement>, subs: seq<SubParse>, w: Process, x: Process, k: nat, ids: seq<Id>)
    requires WellFormed(doc) && ParsedAs(doc, subs, w, x) && k < |doc| && HasInner(doc[k])
    requires ids != [] && forall n | n in ids[..|ids| - 1] :: n in subs[k].inner.elements && subs[k].end != Some(n)
    ensures IsWalk(x, PrefixAll(Within(doc[k].id), ids)) <==> IsWalk(subs[k].inner, ids)
  {
    FileEstablishes(doc, subs, w, x, k);
    forall n | n in ids[..|ids| - 1] ensures Unclosed(Assembled(doc, subs), Within(doc[k].id) + n) {
      InsideUnclosed(doc, subs, k, n);
    }
    WalksInside(Assembled(doc, subs), w, x, doc[k].id, subs[k].inner, subs[k].end, ids);
  }

  /** A token that reaches a sub-process goes to its start event and nowhere else. */
  lemma SubProcessEntry(doc: seq<FlowElement>, subs: seq<SubParse>, w: Process, x: Process, k: nat)
    requires WellFormed(doc) && ParsedAs(doc, subs, w, x) && k < |doc| && HasInner(doc[k])
    ensures Successors(x, doc[k].id, [EntryOf(doc[k].id)]) == {Within(doc[k].id) + subs[k].inner.start}
  {
    FileEstablishes(doc, subs, w, x, k);
    DotlessUnclosed(doc, subs, doc[k].id);
    EntersAtStart(Assembled(doc, subs), w, x, doc[k].id, subs[k].inner, subs[k].end);
  }

  lemma StepSource(p: Process, item: FlowElement, parse: SubParse, g: Id)
    requires g in AddedOuter(p, item, parse).flows && Dotless(AddedOuter(p, item, parse).flows[g].source)
    ensures var q := AddedOuter(p, item, parse);
            || item == Sequence(g, q.flows[g])
            || (HasInner(item) && g == EntryOf(item.id) && q.flows[g].source == item.id)
            || (g in p.flows && q.flows[g] == p.flows[g])
  {
    if HasInner(item) && g in PrefixFlows(Within(item.id), parse.inner.flows) {
      PrefixedTail(Within(item.id), g);
      TailOfPrefixed(Within(item.id), parse.inner.flows[Tail(Within(item.id), g)].source);
      DotWithin(item.id, Within(item.id) + parse.inner.flows[Tail(Within(item.id), g)].source);
    }
  }

  lemma EntrySuffix(sub: Id)
    ensures HasSuffix(EntryOf(sub), ENTRY)
  {
  }

  ghost predicate HasSource(doc: seq<FlowElement>, g: Id, flow: Flow) {
    exists i :: 0 <= i < |doc| &&
      (doc[i] == Sequence(g, flow) || (HasInner(doc[i]) && g == EntryOf(doc[i].id) && flow.source == doc[i].id))
  }

  lemma HasSourceGrows(doc: seq<FlowElement>, m: nat, g: Id, flow: Flow)
    requires m <= |doc| && HasSource(doc[..m], g, flow)
    ensures HasSource(doc, g, flow)
  {
    var i :| 0 <= i < m && (doc[..m][i] == Sequence(g, flow)
             || (HasInner(doc[..m][i]) && g == EntryOf(doc[..m][i].id) && flow.source == doc[..m][i].id));
    assert doc[i] == doc[..m][i];
  }

  /** A flow of the process that starts outside the sub-processes is one of the file, or the entry
      into a sub-process. */
  lemma {:induction false} SourceOrigin(doc: seq<FlowElement>, subs: seq<SubParse>, g: Id)
    requires |subs| == |doc| && g in Assembled(doc, subs).flows && Dotless(Assembled(doc, subs).flows[g].source)
    ensures HasSource(doc, g, Assembled(doc, subs).flows[g])
  {
    var m, flow := |doc| - 1, Assembled(doc, subs).flows[g];
    var front := Assembled(doc[..m], subs[..m]);
    StepSource(front, doc[m], subs[m], g);
    if g in front.flows && front.flows[g] == flow {
      SourceOrigin(doc[..m], subs[..m], g);
      HasSourceGrows(doc, m, g, flow);
    }
  }

  lemma StepSequence(p: Process, item: FlowElement, parse: SubParse, f: Id)
    requires XmlId(f) && XmlId(item.id) && item.id != f
    ensures var q := AddedOuter(p, item, parse);
            && (f in p.flows ==> f in q.flows && q.flows[f] == p.flows[f])
            && (f in p.elements ==> f in q.elements && q.elements[f] == p.elements[f])
  {
    EntrySuffix(item.id);
    if HasPrefix(f, Within(item.id)) {
      DotWithin(item.id, f);
    }
  }

  /** A node or sequence flow of the file is in the process. */
  predicate Installed(p: Process, item: FlowElement)
    requires !item.Sub?
  {
    && item.id in p.elements
    && match item
       case Node(_, el, _) => p.elements[item.id] == Unlinked(el)
       case Sequence(_, flow) =>
         p.elements[item.id] == FlowElementOf() && item.id in p.flows && p.flows[item.id] == flow
  }

  lemma {:induction false} ItemKept(doc: seq<FlowElement>, subs: seq<SubParse>, i: nat)
    requires |subs| == |doc| && DistinctIds(doc) && i < |doc| && !doc[i].Sub?
    ensures Installed(Assembled(doc, subs), doc[i])
    decreases |doc|
  {
    var m := |doc| - 1;
    if i < m {
      assert DistinctIds(doc[..m]);
      ItemKept(doc[..m], subs[..m], i);
      StepSequence(Assembled(doc[..m], subs[..m]), doc[m], subs[m], doc[i].id);
    } else {
      StepInstalls(Assembled(doc[..m], subs[..m]), doc[m], subs[m]);
    }
  }

  lemma StepInstalls(p: Process, item: FlowElement, parse: SubParse)
    requires !item.Sub?
    ensures Installed(AddedOuter(p, item, parse), item)
  {
  }

  /** The sequence flows of the file that start at `n`. */
  function SequencesFrom(doc: seq<FlowElement>, n: Id): set<Id> {
    set i | 0 <= i < |doc| && doc[i].Sequence? && doc[i].flow.source == n :: doc[i].id
  }

  lemma FlowsFrom(doc: seq<FlowElement>, subs: seq<SubParse>, n: Id, f: Id)
    requires |subs| == |doc| && DistinctIds(doc) && Dotless(n)
    ensures var p := Assembled(doc, subs);
            f in p.flows && p.flows[f].source == n && !HasSuffix(f, ENTRY) <==> f in SequencesFrom(doc, n)
  {
    var p := Assembled(doc, subs);
    if f in p.flows && p.flows[f].source == n && !HasSuffix(f, ENTRY) {
      SourceOrigin(doc, subs, f);
      forall i | 0 <= i < |doc| ensures f != EntryOf(doc[i].id) {
        EntrySuffix(doc[i].id);
      }
    }
    if f in SequencesFrom(doc, n) {
      var i :| 0 <= i < |doc| && doc[i].Sequence? && doc[i].flow.source == n && doc[i].id == f;
      ItemKept(doc, subs, i);
    }
  }

  /** In the finished process the flows from a node outside the sub-processes are those of the file,
      each a step of its own. */
  lemma FinishedFrom(doc: seq<FlowElement>, subs: seq<SubParse>, w: Process, x: Process, n: Id, f: Id)
    requires WellFormed(doc) && ParsedAs(doc, subs, w, x) && Dotless(n) && !IsSequenceFlow(Assembled(doc, subs), n)
    ensures f in x.flows && x.flows[f].source == n && !HasSuffix(f, ENTRY) <==> f in SequencesFrom(doc, n)
    ensures f in SequencesFrom(doc, n) ==> f in x.flows && StepAlong(x, f) == NextFlow(f, f, SequenceFlow)
  {
    var p := Assembled(doc, subs);
    FileFinished(doc, subs, w, x);
    FlowsFrom(doc, subs, n, f);
    if f in p.flows {
      FinishedFlow(p, w, x, f);
    } else if f in x.flows {
      var id := SynthOnlyAdds(p, w, f);
    }
    if f in SequencesFrom(doc, n) {
      var i :| 0 <= i < |doc| && doc[i].Sequence? && doc[i].flow.source == n && doc[i].id == f;
      ItemKept(doc, subs, i);
      FinishedKind(p, w, x, f);
    }
  }

  /** What the exits of a sub-process are, in terms of the file. */
  lemma ExitsAreSequences(doc: seq<FlowElement>, subs: seq<SubParse>, w: Process, x: Process, k: nat)
    requires WellFormed(doc) && ParsedAs(doc, subs, w, x) && k < |doc| && HasInner(doc[k])
    ensures doc[k].id in x.elements
    ensures forall f :: f in ExitsOf(x.elements[doc[k].id].outgoing) <==> f in SequencesFrom(doc, doc[k].id)
  {
    var p, sub := Assembled(doc, subs), doc[k].id;
    FileFinished(doc, subs, w, x);
    FileContains(doc, subs, k);
    DotlessUnclosed(doc, subs, sub);
    FinishedElement(p, w, x, sub);
    forall f ensures f in x.elements[sub].outgoing && !HasSuffix(f, ENTRY) <==> f in SequencesFrom(doc, sub) {
      SynthesizedOutgoing(p, w, sub, f);
      FlowsFrom(doc, subs, sub, f);
    }
  }

  /** A token that reaches the end event of a sub-process goes on to exactly the sequence flows that
      leave the sub-process in the file, by way of the string the parser left on the end event. */
  lemma SubProcessExit(doc: seq<FlowElement>, subs: seq<SubParse>, w: Process, x: Process, k: nat, e: Id)
    requires WellFormed(doc) && ParsedAs(doc, subs, w, x) && k < |doc| && HasInner(doc[k])
    requires subs[k].end == Some(e) && EndIsLast(subs[k].inner, e)
    requires SequencesFrom(doc, doc[k].id) != {}
             && forall f | f in SequencesFrom(doc, doc[k].id) :: f != "" && ',' !in f
    ensures var end := Within(doc[k].id) + e;
            && end in x.elements && x.elements[end].exitFlows != ""
            && Successors(x, end, Split(x.elements[end].exitFlows)) == SequencesFrom(doc, doc[k].id)
  {
    FileEstablishes(doc, subs, w, x, k);
    ExitsAreSequences(doc, subs, w, x, k);
    forall y ensures LeadsOut(x, doc[k].id, y) <==> y in SequencesFrom(doc, doc[k].id) {
      LeadsOutSequence(doc, subs, w, x, k, y);
    }
    ExitReady(doc, subs, w, x, k, e);
    ExitsToFlows(x, doc[k].id, Within(doc[k].id) + e, SequencesFrom(doc, doc[k].id));
  }

  lemma ExitReady(doc: seq<FlowElement>, subs: seq<SubParse>, w: Process, x: Process, k: nat, e: Id)
    requires WellFormed(doc) && ParsedAs(doc, subs, w, x) && k < |doc| && HasInner(doc[k])
    requires subs[k].end == Some(e) && EndIsLast(subs[k].inner, e) && doc[k].id in x.elements
    ensures Exits(x, doc[k].id, Within(doc[k].id) + e)
  {
    FileEstablishes(doc, subs, w, x, k);
    EndReady(Assembled(doc, subs), w, x, doc[k].id, subs[k].inner, e);
  }

  /** The element at `c` carries the exits of `sub`, as list and as string. */
  ghost predicate Exits(x: Process, sub: Id, c: Id) {
    && Adjacent(x, sub) && c in x.elements
    && x.elements[c].outgoing == ExitsOf(x.elements[sub].outgoing)
    && x.elements[c].exitFlows == Join(x.elements[c].outgoing)
  }

  lemma ExitsToFlows(x: Process, sub: Id, c: Id, flows: set<Id>)
    requires Exits(x, sub, c)
    requires forall y :: LeadsOut(x, sub, y) <==> y in flows
    requires forall f :: f in ExitsOf(x.elements[sub].outgoing) <==> f in flows
    requires flows != {} && forall f | f in flows :: f != "" && ',' !in f
    ensures x.elements[c].exitFlows != "" && Successors(x, c, Split(x.elements[c].exitFlows)) == flows
  {
    ExitsUsable(ExitsOf(x.elements[sub].outgoing), flows);
    ExitsRoundTrip(x, sub, c);
  }

  /** Nothing leaves the end event inside the sub-process. */
  predicate EndIsLast(s: Process, e: Id) { e in s.elements ==> s.elements[e].outgoing == [] }

  lemma ExitsUsable(exits: seq<Id>, flows: set<Id>)
    requires (forall f :: f in exits <==> f in flows) && flows != {} && forall f | f in flows :: f != "" && ',' !in f
    ensures exits != [] && exits != [""] && forall f | f in exits :: ',' !in f
  {
    var f :| f in flows;
    assert f in exits;
    assert exits == [""] ==> "" in exits;
  }

  lemma LeadsOutSequence(doc: seq<FlowElement>, subs: seq<SubParse>, w: Process, x: Process, k: nat, y: Id)
    requires WellFormed(doc) && ParsedAs(doc, subs, w, x) && k < |doc| && HasInner(doc[k])
    ensures LeadsOut(x, doc[k].id, y) <==> y in SequencesFrom(doc, doc[k].id)
  {
    var sub := doc[k].id;
    FileContains(doc, subs, k);
    FinishedFrom(doc, subs, w, x, sub, y);
    if LeadsOut(x, sub, y) {
      var f :| f in x.flows && x.flows[f].source == sub && !HasSuffix(f, ENTRY) && StepAlong(x, f).element == y;
      FinishedFrom(doc, subs, w, x, sub, f);
    }
  }

  /** Sequence flows connect nodes and sub-processes, never other sequence flows. */
  ghost predicate FlowsConnectNodes(doc: seq<FlowElement>) {
    forall a, b | 0 <= a < |doc| && 0 <= b < |doc| && doc[a].Sequence? && doc[b].Sequence? ::
      doc[b].flow.source != doc[a].id
  }

  lemma SequenceIsClean(doc: seq<FlowElement>, subs: seq<SubParse>, i: nat)
    requires WellFormed(doc) && SubsParsed(doc, subs) && FlowsConnectNodes(doc) && i < |doc| && doc[i].Sequence?
    ensures CleanFlow(Assembled(doc, subs), doc[i].id)
  {
    var p, f := Assembled(doc, subs), doc[i].id;
    ItemKept(doc, subs, i);
    EveryInner(doc, subs);
    if Synth(f) in p.elements {
      ElementsUnsynth(doc, subs, Synth(f));
      BaseOfSynth(f);
    }
    forall g | g in p.flows ensures p.flows[g].source != f {
      if p.flows[g].source == f {
        SourceOrigin(doc, subs, g);
      }
    }
  }

  /** Elements the exit pass leaves alone route the same before and after it. */
  lemma {:induction false} AlongSame(q: Process, x: Process, outgoing: seq<Id>, filters: seq<Id>)
    requires q.flows == x.flows
             && forall id :: KindOf(q, id) == KindOf(x, id) && (id in q.elements <==> id in x.elements)
    ensures Along(q, outgoing, filters) == Along(x, outgoing, filters)
  {
    if outgoing != [] {
      AlongSame(q, x, outgoing[..|outgoing| - 1], filters);
      var f := outgoing[|outgoing| - 1];
      assert KindOf(q, f) == KindOf(x, f);
    }
  }

  lemma FinishedRoutes(p: Process, w: Process, x: Process, n: Id, filters: seq<Id>)
    requires Finished(p, w, x) && n in p.elements && Unclosed(p, n)
    ensures NextFlows(x, Route, n, filters) == NextFlows(Synthesized(w), Route, n, filters)
  {
    FinishedElement(p, w, x, n);
    forall id ensures KindOf(Synthesized(w), id) == KindOf(x, id)
      && (id in Synthesized(w).elements <==> id in x.elements) {
      FinishedKind(p, w, x, id);
      KindsKept(p, w, id);
    }
    AlongSame(Synthesized(w), x, x.elements[n].outgoing, filters);
  }

  lemma {:induction false} TwoHopsSame(p: Process, w: Process, x: Process, next: seq<NextFlow>)
    requires Finished(p, w, x) && forall h | h in next :: h.element in p.elements && Unclosed(p, h.element)
    ensures TwoHops(x, next) == TwoHops(Synthesized(w), next)
  {
    if next != [] {
      var last := next[|next| - 1];
      assert last in next;
      TwoHopsSame(p, w, x, next[..|next| - 1]);
      FinishedRoutes(p, w, x, last.element, []);
    }
  }

  function PassingSet(flows: set<Id>, filters: seq<Id>): set<Id> {
    set f | f in flows && (filters == [] || f in filters)
  }

  /** In any file, with or without sub-processes, and for any order of the maps: from a node, through
      the sequence flows visited as steps of their own, a token reaches exactly the targets of the
      node's selected sequence flows, each flow counted once. */
  lemma NodesReachTargets(doc: seq<FlowElement>, subs: seq<SubParse>, w: Process, x: Process, k: nat, filters: seq<Id>)
      returns (flows: seq<Id>)
    requires WellFormed(doc) && ParsedAs(doc, subs, w, x) && FlowsConnectNodes(doc)
    requires k < |doc| && doc[k].Node? && doc[k].element.kind != SequenceFlow
    ensures multiset(flows) == multiset(PassingSet(SequencesFrom(doc, doc[k].id), filters))
    ensures forall f | f in flows :: f in x.flows
    ensures TwoHops(x, NextFlows(x, Route, doc[k].id, filters)) == TargetsOf(x, flows)
  {
    var p, n := Assembled(doc, subs), doc[k].id;
    FileFinished(doc, subs, w, x);
    NodeReady(doc, subs, k, filters);
    StepsUnclosed(doc, subs, w, k, filters);
    flows := TwoHopsInGraph(p, w, x, n, filters);
  }

  lemma NodeReady(doc: seq<FlowElement>, subs: seq<SubParse>, k: nat, filters: seq<Id>)
    requires WellFormed(doc) && SubsParsed(doc, subs) && FlowsConnectNodes(doc) && AllInner(doc, subs)
    requires k < |doc| && doc[k].Node? && doc[k].element.kind != SequenceFlow
    ensures var p, n := Assembled(doc, subs), doc[k].id;
            && n in p.elements && !IsSequenceFlow(p, n) && p.elements[n].outgoing == [] && Unclosed(p, n)
            && (forall f | f in p.flows && p.flows[f].source == n :: CleanFlow(p, f))
            && SelectedFrom(p, n, filters) == PassingSet(SequencesFrom(doc, n), filters)
  {
    ItemKept(doc, subs, k);
    NodeFlows(doc, subs, k);
    DotlessUnclosed(doc, subs, doc[k].id);
  }

  lemma TwoHopsInGraph(p: Process, w: Process, x: Process, n: Id, filters: seq<Id>) returns (flows: seq<Id>)
    requires Finished(p, w, x) && SynthNamed(p) && NoClash(p)
    requires n in p.elements && !IsSequenceFlow(p, n) && p.elements[n].outgoing == [] && Unclosed(p, n)
    requires forall f | f in p.flows && p.flows[f].source == n :: CleanFlow(p, f)
    requires forall h | h in NextFlows(Synthesized(w), Route, n, filters) ::
               h.element in p.elements && Unclosed(p, h.element)
    ensures multiset(flows) == multiset(SelectedFrom(p, n, filters))
    ensures forall f | f in flows :: f in x.flows
    ensures TwoHops(x, NextFlows(x, Route, n, filters)) == TargetsOf(x, flows)
  {
    flows := TwoHopSimulation(p, w, n, filters);
    FinishedTargets(p, w, x, flows);
    FinishedRoutes(p, w, x, n, filters);
    TwoHopsSame(p, w, x, NextFlows(Synthesized(w), Route, n, filters));
  }

  lemma FinishedTargets(p: Process, w: Process, x: Process, flows: seq<Id>)
    requires Finished(p, w, x) && SynthNamed(p) && forall f | f in flows :: f in p.flows
    ensures forall f | f in flows :: f in x.flows
    ensures TargetsOf(p, flows) == TargetsOf(x, flows)
  {
    forall f | f in flows ensures f in x.flows && x.flows[f] == p.flows[f] {
      FinishedFlow(p, w, x, f);
    }
  }

  lemma NodeFlows(doc: seq<FlowElement>, subs: seq<SubParse>, k: nat)
    requires WellFormed(doc) && SubsParsed(doc, subs) && FlowsConnectNodes(doc) && k < |doc| && doc[k].Node?
    ensures var p := Assembled(doc, subs);
            forall f :: (f in p.flows && p.flows[f].source == doc[k].id <==> f in SequencesFrom(doc, doc[k].id))
                        && (f in SequencesFrom(doc, doc[k].id) ==> CleanFlow(p, f) && Dotless(f))
  {
    var p, n := Assembled(doc, subs), doc[k].id;
    forall f ensures (f in p.flows && p.flows[f].source == n <==> f in SequencesFrom(doc, n))
                     && (f in SequencesFrom(doc, n) ==> CleanFlow(p, f) && Dotless(f))
    {
      if f in p.flows && p.flows[f].source == n {
        SourceOrigin(doc, subs, f);
      }
      if f in SequencesFrom(doc, n) {
        var i :| 0 <= i < |doc| && doc[i].Sequence? && doc[i].flow.source == n && doc[i].id == f;
        ItemKept(doc, subs, i);
        SequenceIsClean(doc, subs, i);
      }
    }
  }

  lemma StepsUnclosed(doc: seq<FlowElement>, subs: seq<SubParse>, w: Process, k: nat, filters: seq<Id>)
    requires WellFormed(doc) && SubsParsed(doc, subs) && FlowsConnectNodes(doc) && k < |doc| && doc[k].Node?
    requires Wired(Assembled(doc, subs), w) && AllInner(doc, subs) && doc[k].element.kind != SequenceFlow
    ensures forall h | h in NextFlows(Synthesized(w), Route, doc[k].id, filters) ::
              h.element in Assembled(doc, subs).elements && Unclosed(Assembled(doc, subs), h.element)
  {
    var p, q, n := Assembled(doc, subs), Synthesized(w), doc[k].id;
    ItemKept(doc, subs, k);
    NodeFlows(doc, subs, k);
    forall h | h in NextFlows(q, Route, n, filters) ensures h.element in p.elements && Unclosed(p, h.element) {
      AlongMembers(q, q.elements[n].outgoing, filters, h);
      var f :| f in q.elements[n].outgoing && Selected(q, filters, f) && h == StepAlong(q, f);
      SynthesizedOutgoing(p, w, n, f);
      KindsKept(p, w, f);
      DotlessUnclosed(doc, subs, f);
    }
  }

  /** Every flow of a sub-process as loaded is an element of it. */
  lemma {:induction false} LoadedReified(items: seq<FlowElement>)
    requires DistinctIds(items)
    ensures forall f | f in Loaded(items).flows :: Reified(Loaded(items), f)
  {
    if items != [] {
      var n := |items| - 1;
      var front := Loaded(items[..n]);
      LoadedReified(items[..n]);
      LoadedPlain(items[..n]);
      forall f | f in front.flows ensures f != items[n].id {
        var i :| 0 <= i < n && items[..n][i].Sequence? && items[..n][i].id == f;
      }
    }
  }

  /** The lists of a node inside a sub-process, after and before flattening. */
  lemma InnerListSizes(doc: seq<FlowElement>, subs: seq<SubParse>, w: Process, x: Process, k: nat, n: Id)
    requires WellFormed(doc) && ParsedAs(doc, subs, w, x) && k < |doc| && HasInner(doc[k])
    requires n in subs[k].inner.elements && !IsSequenceFlow(subs[k].inner, n) && subs[k].end != Some(n)
    ensures var before, c := subs[k].inner.elements[n], Within(doc[k].id) + n;
            && c in x.elements
            && |x.elements[c].incoming| == 3 * |before.incoming| + (if n == subs[k].inner.start then 1 else 0)
            && |x.elements[c].outgoing| == 2 * |before.outgoing|
  {
    var items := doc[k].inner.value;
    assert SubParsed(doc[k], subs[k]);
    var w0 := InnerWiring(items, subs[k].inner);
    InnerNodeLoaded(items, w0, n);
    FileEstablishes(doc, subs, w, x, k);
    InsideUnclosed(doc, subs, k, n);
    EntryOutside(doc[k].id);
    ListSizes(Loaded(items), w0, Assembled(doc, subs), w, x, doc[k].id, subs[k].end, n);
    FinishedKind(Assembled(doc, subs), w, x, Within(doc[k].id) + n);
  }

  /** Exactly when a parallel gateway inside a sub-process waits, in every well-formed file. */
  lemma InnerGateDecision(doc: seq<FlowElement>, subs: seq<SubParse>, w: Process, x: Process, k: nat, n: Id,
                          store: seq<FlowRecord>)
    requires WellFormed(doc) && ParsedAs(doc, subs, w, x) && k < |doc| && HasInner(doc[k])
    requires n in subs[k].inner.elements && subs[k].inner.elements[n].kind == ParallelGateway && subs[k].end != Some(n)
    ensures var before, c := subs[k].inner.elements[n], Within(doc[k].id) + n;
            var extra := if n == subs[k].inner.start then 1 else 0;
            && ParallelJoin.Decision(x, c, store) in {Wait, Route}
            && (ParallelJoin.Decision(x, c, store) == Wait <==>
                  WaitsInside(before.direction, |before.incoming|, |before.outgoing|, extra)
                  && ArrivalsAt(store, c) < 3 * |before.incoming| + extra)
  {
    var items := doc[k].inner.value;
    assert SubParsed(doc[k], subs[k]);
    var w0 := InnerWiring(items, subs[k].inner);
    InnerNodeLoaded(items, w0, n);
    FileEstablishes(doc, subs, w, x, k);
    InsideUnclosed(doc, subs, k, n);
    EntryOutside(doc[k].id);
    InnerJoins(Loaded(items), w0, Assembled(doc, subs), w, x, doc[k].id, subs[k].end, n, store);
  }

  lemma InnerNodeLoaded(items: seq<FlowElement>, w0: Process, n: Id)
    requires DistinctIds(items) && Wired(Loaded(items), w0)
    requires n in Synthesized(w0).elements
    ensures var p0 := Loaded(items);
            && Plain(p0) && n in p0.elements && p0.elements[n].kind == Synthesized(w0).elements[n].kind
            && p0.elements[n].incoming == [] && p0.elements[n].outgoing == []
  {
    var p0 := Loaded(items);
    LoadedPlain(items);
    LoadedReified(items);
    KindsKept(p0, w0, n);
  }
}

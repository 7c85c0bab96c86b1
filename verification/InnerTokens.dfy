/** Tokens inside flattened sub-processes: how many arrive in a run, and when a join there opens. */
module InnerTokens {
  import opened Bpmn
  import opened Routing
  import opened Records
  import opened Strings
  import opened Prefixing
  import opened Wiring
  import opened Reification
  import opened SubProcesses
  import opened Embedding
  import opened Documents
  import opened DocumentTheorems
  import opened Duplication
  import opened ParsedFiles
  import opened Engine
  import opened EngineTokens
  import opened EngineArrivals
  import ParallelJoin

  /** Sequence flows have ids and connect nodes, never other sequence flows. */
  ghost predicate FlowsJoinNodes(items: seq<FlowElement>) {
    forall a, b | 0 <= a < |items| && 0 <= b < |items| && items[a].Sequence? && items[b].Sequence? ::
      items[a].id != "" && items[b].flow.source != items[a].id && items[b].flow.target != items[a].id
  }

  ghost predicate Inside(doc: seq<FlowElement>, subs: seq<SubParse>, w: Process, x: Process, k: nat) {
    WellFormed(doc) && ParsedAs(doc, subs, w, x) && k < |doc| && HasInner(doc[k]) && FlowsJoinNodes(doc[k].inner.value)
  }

  /** No flow of the sub-process starts or ends at a flow. */
  lemma LoadedJoinsNodes(items: seq<FlowElement>, f: Id, g: Id)
    requires FlowsJoinNodes(items) && f in Loaded(items).flows && g in Loaded(items).flows
    ensures Loaded(items).flows[g].source != f && Loaded(items).flows[g].target != f
  {
    LoadedFlow(items, f);
    LoadedFlow(items, g);
  }

  lemma {:induction false} LoadedStart(items: seq<FlowElement>)
    requires Loaded(items).start != ""
    ensures exists i :: 0 <= i < |items| && items[i].Node? && items[i].id == Loaded(items).start
  {
    var n := |items| - 1;
    var front := Loaded(items[..n]);
    if front.start != "" {
      LoadedStart(items[..n]);
      var i :| 0 <= i < n && items[..n][i].Node? && items[..n][i].id == front.start;
      assert items[i].Node? && items[i].id == Loaded(items).start;
    } else {
      assert items[n].Node? && items[n].id == Loaded(items).start;
    }
  }

  /** The start event is no flow. */
  lemma StartIsNoFlow(items: seq<FlowElement>, f: Id)
    requires DistinctIds(items) && FlowsJoinNodes(items) && f in Loaded(items).flows
    ensures f != Loaded(items).start
  {
    LoadedFlow(items, f);
    if Loaded(items).start != "" {
      LoadedStart(items);
    }
  }

  lemma LoadedClean(items: seq<FlowElement>, f: Id)
    requires DistinctIds(items) && FlowsJoinNodes(items) && f in Loaded(items).flows
    ensures CleanFlow(Loaded(items), f)
  {
    LoadedPlain(items);
    LoadedReified(items);
    BaseOfSynth(f);
    forall g | g in Loaded(items).flows ensures Loaded(items).flows[g].source != f {
      LoadedJoinsNodes(items, f, g);
    }
  }

  /** The flow of the sub-process `f` and what the inner parse made of it. */
  lemma InnerFlow(items: seq<FlowElement>, w0: Process, f: Id)
    requires DistinctIds(items) && FlowsJoinNodes(items) && Wired(Loaded(items), w0) && f in Loaded(items).flows
    ensures var s := Synthesized(w0);
            && Reified(s, f) && s.elements[f].outgoing == [Synth(f)] && Synth(f) !in s.elements
            && s.flows[f] == Loaded(items).flows[f]
            && Synth(f) in s.flows && s.flows[Synth(f)] == Flow(f, Loaded(items).flows[f].target)
  {
    var p0 := Loaded(items);
    LoadedClean(items, f);
    LoadedNoClash(items);
    FlowElementLists(p0, w0, f);
    SynthesizedFlow(p0, w0, f);
    KindsKept(p0, w0, f);
  }

  /** The flow elements inside the sub-process that lead to `n`. */
  function FlowsInto(prefix: string, p0: Process, n: Id): set<Id> {
    PrefixSet(prefix, Aimed(p0.flows, p0.flows.Keys, n))
  }

  /** A token at a flow element inside a sub-process is handed on twice, to the target of the flow. */
  lemma FlowHandsOnTwice(doc: seq<FlowElement>, subs: seq<SubParse>, w: Process, x: Process, k: nat, w0: Process, f: Id)
    requires Inside(doc, subs, w, x, k) && f in Loaded(doc[k].inner.value).flows && subs[k].end != Some(f)
    requires Wired(Loaded(doc[k].inner.value), w0) && subs[k].inner == Synthesized(w0)
    ensures var prefix, target := Within(doc[k].id), Loaded(doc[k].inner.value).flows[f].target;
            var hop := NextFlow(prefix + Synth(f), prefix + target, KindOf(subs[k].inner, target));
            prefix + f in x.elements && NextFlows(x, Route, prefix + f, []) == [hop, hop]
  {
    var p, s := Assembled(doc, subs), subs[k].inner;
    FileEstablishes(doc, subs, w, x, k);
    InsideUnclosed(doc, subs, k, f);
    InnerFlow(doc[k].inner.value, w0, f);
    TokensDouble(p, w, x, doc[k].id, s, subs[k].end, f);
    FinishedKind(p, w, x, Within(doc[k].id) + f);
  }

  /** A flow that is no step of its own and leads to an inner node other than the start is the second
      half of a flow of the sub-process. */
  lemma TargetInside(p: Process, w: Process, x: Process, sub: Id, s: Process, end: Option<Id>, p0: Process, w0: Process,
                     n: Id, h: Id) returns (f: Id)
    requires Finished(p, w, x) && SynthNamed(p) && Contains(p, sub, s, end) && Inner(s)
    requires Wired(p0, w0) && s == Synthesized(w0) && (forall g | g in p0.flows :: Reified(p0, g))
    requires h in x.flows && x.flows[h].target == Within(sub) + n && !IsSequenceFlow(x, h) && n != s.start
    ensures f in p0.flows && p0.flows[f].target == n && h == Within(sub) + Synth(f)
    ensures x.flows[h].source == Within(sub) + f
  {
    var prefix := Within(sub);
    TailOfPrefixed(prefix, n);
    if h in p.flows {
      SynthKeeps(p, w, h);
      if h == EntryOf(sub) {
        SameTail(prefix, s.start, n);
      }
      f := CopiedTarget(p, w, x, prefix, s, p0, w0, n, h);
    } else {
      f := "";
      var id := SynthOnlyAdds(p, w, h);
      EntryNotReified(p, sub, s, end);
      PrefixedTail(prefix, id);
      SynthInside(p, prefix, s, Tail(prefix, id));
    }
  }

  lemma EntryNotReified(p: Process, sub: Id, s: Process, end: Option<Id>)
    requires Contains(p, sub, s, end)
    ensures !Reified(p, EntryOf(sub))
  {
  }

  lemma CopiedTarget(p: Process, w: Process, x: Process, prefix: string, s: Process, p0: Process, w0: Process, n: Id,
                     h: Id)
      returns (f: Id)
    requires Finished(p, w, x) && SynthNamed(p) && Copies(p, prefix, s)
    requires Wired(p0, w0) && s == Synthesized(w0) && (forall g | g in p0.flows :: Reified(p0, g))
    requires h in p.flows && HasPrefix(h, prefix) && p.flows[h].target == prefix + n && !IsSequenceFlow(x, h)
    ensures f in p0.flows && p0.flows[f].target == n && h == prefix + Synth(f)
    ensures h in x.flows && x.flows[h].source == prefix + f
  {
    var t := Tail(prefix, h);
    PrefixedTail(prefix, h);
    FinishedFlow(p, w, x, h);
    SameTail(prefix, s.flows[t].target, n);
    if t in p0.flows {
      OriginalsAreSteps(p, w, x, prefix, p0, w0, t);
    }
    f := SynthOnlyAdds(p0, w0, t);
  }

  lemma OriginalsAreSteps(p: Process, w: Process, x: Process, prefix: string, p0: Process, w0: Process, t: Id)
    requires Finished(p, w, x) && Copies(p, prefix, Synthesized(w0)) && Wired(p0, w0) && Reified(p0, t)
    ensures IsSequenceFlow(x, prefix + t)
  {
    KindsKept(p0, w0, t);
    KindInside(p, w, x, prefix, Synthesized(w0), t);
  }

  /** Some sub-process of the file has a flow that the inner parse lists as `h`. */
  ghost predicate InnerListed(doc: seq<FlowElement>, h: Id) {
    exists i :: 0 <= i < |doc| && HasInner(doc[i]) && InnerFlowName(doc[i].inner.value, h)
  }

  lemma StepLists(p: Process, item: FlowElement, parse: SubParse, y: Id, h: Id)
    requires HasInner(item) ==>
               forall z, g | z in parse.inner.elements && g in parse.inner.elements[z].outgoing ::
                 InnerFlowName(item.inner.value, g)
    requires y in AddedOuter(p, item, parse).elements && h in AddedOuter(p, item, parse).elements[y].outgoing
    ensures (HasInner(item) && InnerFlowName(item.inner.value, h)) || (y in p.elements && h in p.elements[y].outgoing)
  {
    if HasInner(item) && y != item.id && HasPrefix(y, Within(item.id)) {
      PrefixedTail(Within(item.id), y);
    }
  }

  lemma InnerLists(doc: seq<FlowElement>, subs: seq<SubParse>, i: nat, z: Id, g: Id)
    requires WellFormed(doc) && SubsParsed(doc, subs) && i < |doc| && HasInner(doc[i])
    requires z in subs[i].inner.elements && g in subs[i].inner.elements[z].outgoing
    ensures InnerFlowName(doc[i].inner.value, g)
  {
    EachInner(doc, subs, i);
  }

  lemma FrontParsed(doc: seq<FlowElement>, subs: seq<SubParse>)
    requires WellFormed(doc) && SubsParsed(doc, subs) && doc != []
    ensures WellFormed(doc[..|doc| - 1]) && SubsParsed(doc[..|doc| - 1], subs[..|doc| - 1])
  {
  }

  /** What an element lists when the file has been assembled was listed by an inner parse. */
  lemma {:induction false} ListsFromInside(doc: seq<FlowElement>, subs: seq<SubParse>, y: Id, h: Id)
    requires WellFormed(doc) && SubsParsed(doc, subs)
    requires y in Assembled(doc, subs).elements && h in Assembled(doc, subs).elements[y].outgoing
    ensures InnerListed(doc, h)
  {
    var n := |doc| - 1;
    var front := Assembled(doc[..n], subs[..n]);
    if HasInner(doc[n]) {
      forall z, g | z in subs[n].inner.elements && g in subs[n].inner.elements[z].outgoing
        ensures InnerFlowName(doc[n].inner.value, g)
      {
        InnerLists(doc, subs, n, z, g);
      }
    }
    StepLists(front, doc[n], subs[n], y, h);
    if y in front.elements && h in front.elements[y].outgoing {
      FrontParsed(doc, subs);
      ListsFromInside(doc[..n], subs[..n], y, h);
      var i :| 0 <= i < n && HasInner(doc[..n][i]) && InnerFlowName(doc[..n][i].inner.value, h);
      assert doc[i] == doc[..n][i];
    }
  }

  lemma ListsDotless(doc: seq<FlowElement>, subs: seq<SubParse>, y: Id, h: Id)
    requires WellFormed(doc) && SubsParsed(doc, subs)
    requires y in Assembled(doc, subs).elements && h in Assembled(doc, subs).elements[y].outgoing
    ensures Dotless(h)
  {
    ListsFromInside(doc, subs, y, h);
    var i :| 0 <= i < |doc| && HasInner(doc[i]) && InnerFlowName(doc[i].inner.value, h);
    var items := doc[i].inner.value;
    var j :| 0 <= j < |items| && items[j].Sequence? && (h == items[j].id || h == Synth(items[j].id));
    SynthOfXml(items[j].id);
  }

  lemma ListedStarts(p: Process, w: Process, y: Id, h: Id)
    requires Wired(p, w) && SynthNamed(p) && y in p.elements && h in Synthesized(w).flows
    requires h in Synthesized(w).elements[y].outgoing && h !in p.elements[y].outgoing
    ensures Synthesized(w).flows[h].source == y
  {
    SynthesizedOutgoing(p, w, y, h);
    BaseOfSynth(y);
    if h in p.flows {
      SynthKeeps(p, w, h);
    } else {
      var id := SynthOnlyAdds(p, w, h);
      SynthInjective(id, y);
    }
  }

  /** A flow from inside a sub-process is listed by no other element than the one it starts at. */
  lemma ListedAtSource(doc: seq<FlowElement>, subs: seq<SubParse>, w: Process, x: Process, y: Id, h: Id)
    requires WellFormed(doc) && ParsedAs(doc, subs, w, x)
    requires y in x.elements && h in x.elements[y].outgoing
    requires h in x.flows && !Dotless(h) && !Dotless(x.flows[h].source)
    ensures x.flows[h].source == y
  {
    var p, q := Assembled(doc, subs), Synthesized(w);
    FileFinished(doc, subs, w, x);
    FinishedKind(p, w, x, y);
    var at := ListedAt(p, w, x, y, h);
    if h in p.elements[at].outgoing {
      ListsDotless(doc, subs, at, h);
    }
    ListedStarts(p, w, at, h);
    if at != y {
      assert Closes(p, at, y);
      CloserOrigin(doc, subs, at);
    }
  }

  /** The element, or the sub-process it closes, listed the flow before the exits were routed. */
  lemma ListedAt(p: Process, w: Process, x: Process, y: Id, h: Id) returns (at: Id)
    requires Finished(p, w, x) && OneCloser(Synthesized(w)) && y in p.elements && y in x.elements
    requires h in x.elements[y].outgoing
    ensures at in p.elements && h in Synthesized(w).elements[at].outgoing
    ensures at == y || Closes(p, at, y)
  {
    at := y;
    if t :| Closes(p, t, y) {
      ClosingElement(p, w, x, t, y);
      if h !in Synthesized(w).elements[y].outgoing {
        at := t;
      }
    } else {
      FinishedElement(p, w, x, y);
    }
  }

  lemma {:induction false} NoStepsTo(x: Process, outgoing: seq<Id>, filters: seq<Id>, e: Id)
    requires forall h | h in outgoing && h in x.flows :: StepAlong(x, h).element != e
    ensures StepsTo(Along(x, outgoing, filters), e) == 0
  {
    if outgoing != [] {
      var front, last := outgoing[..|outgoing| - 1], outgoing[|outgoing| - 1];
      NoStepsTo(x, front, filters, e);
      var rest := Along(x, front, filters);
      if Selected(x, filters, last) {
        assert (rest + [StepAlong(x, last)])[..|rest|] == rest;
      }
    }
  }

  lemma {:induction false} StepsAlongFlow(x: Process, outgoing: seq<Id>, g: Id)
    requires g in x.flows && IsSequenceFlow(x, g)
    requires forall h | h in outgoing && h in x.flows && h != g :: StepAlong(x, h).element != g
    ensures StepsTo(Along(x, outgoing, []), g) == multiset(outgoing)[g]
  {
    if outgoing != [] {
      var front, last := outgoing[..|outgoing| - 1], outgoing[|outgoing| - 1];
      StepsAlongFlow(x, front, g);
      assert outgoing == front + [last];
      var rest := Along(x, front, []);
      if Selected(x, [], last) {
        assert (rest + [StepAlong(x, last)])[..|rest|] == rest;
      }
    }
  }

  lemma ListedOnce(p: Process, w: Process, c: Id, g: Id)
    requires Wired(p, w) && c in p.elements && g in p.flows && p.flows[g].source == c
    requires g !in p.elements[c].outgoing && g != Synth(c)
    ensures multiset(Synthesized(w).elements[c].outgoing)[g] == 1
  {
    var before, after, out := p.elements[c].outgoing, w.elements[c].outgoing, Sourced(p.flows, p.flows.Keys, c);
    assert Extends(before, after, out);
    assert after == before + after[|before|..];
    assert multiset(out)[g] == 1;
  }

  /** The sub-process `doc[k]`, its flows as loaded and as wired. */
  ghost predicate Setting(doc: seq<FlowElement>, subs: seq<SubParse>, w: Process, x: Process, k: nat, w0: Process) {
    && Inside(doc, subs, w, x, k)
    && Wired(Loaded(doc[k].inner.value), w0) && subs[k].inner == Synthesized(w0)
  }

  lemma FlowKinds(doc: seq<FlowElement>, subs: seq<SubParse>, w: Process, x: Process, k: nat, w0: Process, f: Id)
    requires Setting(doc, subs, w, x, k, w0) && f in Loaded(doc[k].inner.value).flows
    ensures IsSequenceFlow(subs[k].inner, f) && IsSequenceFlow(x, Within(doc[k].id) + f) && subs[k].end != Some(f)
  {
    InnerFlow(doc[k].inner.value, w0, f);
    FileEstablishes(doc, subs, w, x, k);
    KindInside(Assembled(doc, subs), w, x, Within(doc[k].id), subs[k].inner, f);
  }

  lemma FlowFinished(doc: seq<FlowElement>, subs: seq<SubParse>, w: Process, x: Process, k: nat, w0: Process, f: Id)
    requires Setting(doc, subs, w, x, k, w0) && f in Loaded(doc[k].inner.value).flows
    ensures Within(doc[k].id) + f in x.flows
    ensures x.flows[Within(doc[k].id) + f] == PrefixEnds(Within(doc[k].id), Loaded(doc[k].inner.value).flows[f])
  {
    FlowCopy(doc, subs, w, x, k, w0, f);
    FileFinished(doc, subs, w, x);
    FinishedFlow(Assembled(doc, subs), w, x, Within(doc[k].id) + f);
  }

  /** The only steps to an inner id other than the start: the id itself as a flow, and the second halves
      of the flows that aim at it. */
  lemma StepsInside(doc: seq<FlowElement>, subs: seq<SubParse>, w: Process, x: Process, k: nat, w0: Process,
                    n: Id, y: Id, h: Id)
    requires Setting(doc, subs, w, x, k, w0) && n != subs[k].inner.start
    requires y in x.elements && h in x.elements[y].outgoing && h in x.flows
    requires StepAlong(x, h).element == Within(doc[k].id) + n
    ensures (h == Within(doc[k].id) + n && IsSequenceFlow(x, h))
            || y in FlowsInto(Within(doc[k].id), Loaded(doc[k].inner.value), n)
  {
    var prefix, p0 := Within(doc[k].id), Loaded(doc[k].inner.value);
    if !IsSequenceFlow(x, h) {
      FileEstablishes(doc, subs, w, x, k);
      LoadedReified(doc[k].inner.value);
      var f := TargetInside(Assembled(doc, subs), w, x, doc[k].id, subs[k].inner, subs[k].end, p0, w0, n, h);
      TailOfPrefixed(prefix, Synth(f));
      TailOfPrefixed(prefix, f);
      DotWithin(doc[k].id, h);
      DotWithin(doc[k].id, prefix + f);
      ListedAtSource(doc, subs, w, x, y, h);
      assert f in Aimed(p0.flows, p0.flows.Keys, n);
    }
  }

  lemma TwiceTo(hop: NextFlow)
    ensures StepsTo([hop, hop], hop.element) == 2
  {
    assert [hop, hop][..1] == [hop] && [hop][..0] == [];
    assert StepsTo([hop], hop.element) == 1;
  }

  /** A node inside a sub-process gets its tokens from the flows that aim at it, two for each token
      there. */
  lemma NodeFed(doc: seq<FlowElement>, subs: seq<SubParse>, w: Process, x: Process, k: nat, w0: Process, n: Id)
    requires Setting(doc, subs, w, x, k, w0) && n != subs[k].inner.start && !IsSequenceFlow(subs[k].inner, n)
    ensures FedBy(x, Within(doc[k].id) + n, FlowsInto(Within(doc[k].id), Loaded(doc[k].inner.value), n), 2)
  {
    var p0, prefix := Loaded(doc[k].inner.value), Within(doc[k].id);
    var c, feeders := prefix + n, FlowsInto(prefix, p0, n);
    forall r | Relays(x, r) ensures Spawns(x, r, c) == if r.item.element in feeders then 2 else 0 {
      var y := r.item.element;
      if y in feeders {
        var f :| f in Aimed(p0.flows, p0.flows.Keys, n) && y == prefix + f;
        FlowKinds(doc, subs, w, x, k, w0, f);
        FlowHandsOnTwice(doc, subs, w, x, k, w0, f);
        TwiceTo(NextFlow(prefix + Synth(f), c, KindOf(subs[k].inner, n)));
      } else if y in x.elements {
        NotAFlow(doc, subs, w, x, k, n);
        forall h | h in x.elements[y].outgoing && h in x.flows ensures StepAlong(x, h).element != c {
          if StepAlong(x, h).element == c {
            StepsInside(doc, subs, w, x, k, w0, n, y, h);
          }
        }
        NoStepsTo(x, x.elements[y].outgoing, r.filters, c);
      }
    }
  }

  lemma NotAFlow(doc: seq<FlowElement>, subs: seq<SubParse>, w: Process, x: Process, k: nat, n: Id)
    requires Inside(doc, subs, w, x, k) && !IsSequenceFlow(subs[k].inner, n)
    ensures !IsSequenceFlow(x, Within(doc[k].id) + n)
  {
    FileEstablishes(doc, subs, w, x, k);
    KindInside(Assembled(doc, subs), w, x, Within(doc[k].id), subs[k].inner, n);
  }

  lemma FlowStepAlone(doc: seq<FlowElement>, subs: seq<SubParse>, w: Process, x: Process, k: nat, w0: Process,
                      f: Id, y: Id, h: Id)
    requires Setting(doc, subs, w, x, k, w0) && f in Loaded(doc[k].inner.value).flows && f != subs[k].inner.start
    requires y in x.elements && h in x.elements[y].outgoing && h in x.flows
    requires StepAlong(x, h).element == Within(doc[k].id) + f
    ensures h == Within(doc[k].id) + f && y == Within(doc[k].id) + Loaded(doc[k].inner.value).flows[f].source
  {
    var p0, prefix := Loaded(doc[k].inner.value), Within(doc[k].id);
    StepsInside(doc, subs, w, x, k, w0, f, y, h);
    forall g | g in Aimed(p0.flows, p0.flows.Keys, f) ensures false {
      LoadedJoinsNodes(doc[k].inner.value, f, g);
    }
    FlowFinished(doc, subs, w, x, k, w0, f);
    DotWithin(doc[k].id, prefix + f);
    DotWithin(doc[k].id, prefix + p0.flows[f].source);
    ListedAtSource(doc, subs, w, x, y, h);
  }

  lemma NotItsSynth(items: seq<FlowElement>, prefix: string, f: Id, src: Id)
    requires DistinctIds(items) && f in Loaded(items).flows
    ensures prefix + f != Synth(prefix + src)
  {
    LoadedPlain(items);
    BaseOfSynth(src);
    SynthWithin(prefix, src);
    if prefix + f == prefix + Synth(src) {
      SameTail(prefix, f, Synth(src));
    }
  }

  lemma FlowCopy(doc: seq<FlowElement>, subs: seq<SubParse>, w: Process, x: Process, k: nat, w0: Process, f: Id)
    requires Setting(doc, subs, w, x, k, w0) && f in Loaded(doc[k].inner.value).flows
    ensures var p, prefix := Assembled(doc, subs), Within(doc[k].id);
            && prefix + f in p.flows
            && p.flows[prefix + f] == PrefixEnds(prefix, Loaded(doc[k].inner.value).flows[f])
            && !Dotless(prefix + f)
  {
    InnerFlow(doc[k].inner.value, w0, f);
    FileContains(doc, subs, k);
    DotWithin(doc[k].id, Within(doc[k].id) + f);
  }

  /** Elements inside a sub-process that are no end events stay as the `_synth` pass left them. */
  lemma InsideFinished(doc: seq<FlowElement>, subs: seq<SubParse>, w: Process, x: Process, k: nat, n: Id)
    requires Inside(doc, subs, w, x, k)
    requires Within(doc[k].id) + n in x.elements && x.elements[Within(doc[k].id) + n].kind != EndEvent
    ensures var c := Within(doc[k].id) + n;
            c in Assembled(doc, subs).elements && x.elements[c] == Synthesized(w).elements[c]
  {
    FileEstablishes(doc, subs, w, x, k);
    KindInside(Assembled(doc, subs), w, x, Within(doc[k].id), subs[k].inner, n);
    InsideUnclosed(doc, subs, k, n);
    FinishedKind(Assembled(doc, subs), w, x, Within(doc[k].id) + n);
    FinishedElement(Assembled(doc, subs), w, x, Within(doc[k].id) + n);
  }

  lemma OnceAtSource(doc: seq<FlowElement>, subs: seq<SubParse>, w: Process, x: Process, k: nat, w0: Process, f: Id)
    requires Setting(doc, subs, w, x, k, w0) && f in Loaded(doc[k].inner.value).flows
    requires var c := Within(doc[k].id) + Loaded(doc[k].inner.value).flows[f].source;
             c in x.elements && x.elements[c].kind != EndEvent
    ensures var src := Loaded(doc[k].inner.value).flows[f].source;
            multiset(x.elements[Within(doc[k].id) + src].outgoing)[Within(doc[k].id) + f] == 1
  {
    var src := Loaded(doc[k].inner.value).flows[f].source;
    var c, g := Within(doc[k].id) + src, Within(doc[k].id) + f;
    InsideFinished(doc, subs, w, x, k, src);
    FlowCopy(doc, subs, w, x, k, w0, f);
    NotItsSynth(doc[k].inner.value, Within(doc[k].id), f, src);
    if g in Assembled(doc, subs).elements[c].outgoing {
      ListsDotless(doc, subs, c, g);
    }
    ListedOnce(Assembled(doc, subs), w, c, g);
  }

  /** A flow inside a sub-process that leaves a start event or a fork gets one token for each token there. */
  lemma FlowFed(doc: seq<FlowElement>, subs: seq<SubParse>, w: Process, x: Process, k: nat, w0: Process, f: Id)
    requires Setting(doc, subs, w, x, k, w0) && f in Loaded(doc[k].inner.value).flows && f != subs[k].inner.start
    requires ForwardsAll(x, Within(doc[k].id) + Loaded(doc[k].inner.value).flows[f].source)
    ensures FedBy(x, Within(doc[k].id) + f, {Within(doc[k].id) + Loaded(doc[k].inner.value).flows[f].source}, 1)
  {
    var p0, prefix := Loaded(doc[k].inner.value), Within(doc[k].id);
    var c, g := prefix + p0.flows[f].source, prefix + f;
    FlowKinds(doc, subs, w, x, k, w0, f);
    FlowFinished(doc, subs, w, x, k, w0, f);
    forall r | Relays(x, r) ensures Spawns(x, r, g) == if r.item.element in {c} then 1 else 0 {
      var y := r.item.element;
      if y in x.elements {
        forall h | h in x.elements[y].outgoing && h in x.flows && (y != c || h != g)
          ensures StepAlong(x, h).element != g
        {
          if StepAlong(x, h).element == g {
            FlowStepAlone(doc, subs, w, x, k, w0, f, y, h);
          }
        }
        if y == c {
          OnceAtSource(doc, subs, w, x, k, w0, f);
          StepsAlongFlow(x, x.elements[y].outgoing, g);
        } else {
          NoStepsTo(x, x.elements[y].outgoing, r.filters, g);
        }
      }
    }
  }
}

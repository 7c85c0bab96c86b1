/** Parsing a well-formed file establishes what the graph theorems need, for every order of the maps. */
module DocumentTheorems {
  import opened Bpmn
  import opened Routing
  import opened Strings
  import opened Prefixing
  import opened Wiring
  import opened Reification
  import opened SubProcesses
  import opened Embedding
  import opened Documents

  ghost predicate FromFlow(items: seq<FlowElement>, f: Id) {
    exists i :: 0 <= i < |items| && items[i].Sequence? && items[i].id == f
  }

  lemma FromFlowGrows(items: seq<FlowElement>, f: Id)
    requires items != [] && FromFlow(items[..|items| - 1], f)
    ensures FromFlow(items, f)
  {
    var i :| 0 <= i < |items| - 1 && items[i].Sequence? && items[i].id == f;
  }

  /** What loading leaves: plain ids, empty lists, flows that come from the file. */
  lemma {:induction false} LoadedPlain(items: seq<FlowElement>)
    requires forall i | 0 <= i < |items| :: XmlId(items[i].id)
    ensures var p := Loaded(items);
            && (forall n | n in p.elements ::
                  XmlId(n) && p.elements[n].incoming == [] && p.elements[n].outgoing == []
                  && p.elements[n].innerEnd == "")
            && (forall f | f in p.flows :: XmlId(f) && FromFlow(items, f))
  {
    if items != [] {
      var n := |items| - 1;
      LoadedPlain(items[..n]);
      forall f | f in Loaded(items[..n]).flows ensures FromFlow(items, f) {
        FromFlowGrows(items, f);
      }
    }
  }

  /** The flows of a file fragment are those of the fragment. */
  lemma {:induction false} LoadedFlow(items: seq<FlowElement>, f: Id)
    requires f in Loaded(items).flows
    ensures exists i :: 0 <= i < |items| && items[i] == Sequence(f, Loaded(items).flows[f])
  {
    var n := |items| - 1;
    if items[n] != Sequence(f, Loaded(items).flows[f]) {
      LoadedFlow(items[..n], f);
      var i :| 0 <= i < n && items[..n][i] == Sequence(f, Loaded(items[..n]).flows[f]);
      assert items[i] == Sequence(f, Loaded(items).flows[f]);
    }
  }

  /** The names of the flows of a parsed sub-process. */
  ghost predicate InnerFlowName(items: seq<FlowElement>, f: Id) {
    exists j :: 0 <= j < |items| && items[j].Sequence? && (f == items[j].id || f == Synth(items[j].id))
  }

  lemma LoadedNoClash(items: seq<FlowElement>)
    requires DistinctIds(items)
    ensures NoClash(Loaded(items))
  {
    LoadedPlain(items);
    forall id ensures HasSuffix(Synth(id), SYNTH) {
      BaseOfSynth(id);
    }
  }

  lemma InnerNames(items: seq<FlowElement>, w: Process, f: Id)
    requires DistinctIds(items) && Wired(Loaded(items), w) && f in Synthesized(w).flows
    ensures InnerFlowName(items, f)
  {
    LoadedPlain(items);
    if f in Loaded(items).flows {
      assert FromFlow(items, f);
    } else {
      var id := SynthOnlyAdds(Loaded(items), w, f);
      assert FromFlow(items, id);
    }
  }

  lemma InnerWiring(items: seq<FlowElement>, s: Process) returns (w: Process)
    requires DistinctIds(items) && InnerParse(items, s)
    ensures Wired(Loaded(items), w) && s == Synthesized(w)
  {
    LoadedNoClash(items);
    w :| Wired(Loaded(items), w) && s == Synthesized(w);
  }

  lemma InnerElements(items: seq<FlowElement>, w: Process)
    requires DistinctIds(items) && Wired(Loaded(items), w)
    ensures Inner(Synthesized(w)) && forall n | n in Synthesized(w).elements :: XmlId(n)
  {
    LoadedPlain(items);
    InnerParsed(Loaded(items), w);
  }

  lemma InnerFacts(items: seq<FlowElement>, s: Process)
    requires DistinctIds(items) && InnerParse(items, s)
    ensures Inner(s) && (forall f | f in s.flows :: InnerFlowName(items, f)) && forall n | n in s.elements :: XmlId(n)
  {
    var w := InnerWiring(items, s);
    InnerElements(items, w);
    forall f | f in s.flows ensures InnerFlowName(items, f) {
      InnerNames(items, w, f);
    }
  }

  lemma DotWithin(sub: Id, x: Id)
    requires HasPrefix(x, Within(sub))
    ensures !Dotless(x)
  {
    assert x[|sub|] == Within(sub)[|sub|];
  }

  /** An id lies within at most one sub-process. */
  lemma OneWithin(a: Id, b: Id, x: Id)
    requires Dotless(a) && Dotless(b) && HasPrefix(x, Within(a)) && HasPrefix(x, Within(b))
    ensures a == b
  {
    assert x[..|a| + 1] == Within(a) && x[..|b| + 1] == Within(b);
    assert x[|a|] == Within(a)[|a|] == '.' && x[|b|] == Within(b)[|b|] == '.';
    assert a == x[..|a|] && b == x[..|b|];
    assert |a| == |b|;
  }

  lemma EntryIds(sub: Id)
    requires Dotless(sub)
    ensures HasSuffix(EntryOf(sub), ENTRY) && Dotless(EntryOf(sub)) && !HasSuffix(EntryOf(sub), SYNTH)
  {
    var e := EntryOf(sub);
    assert e[|e| - |SYNTH|..][|SYNTH| - 1] == 'y';
  }

  lemma SameEntry(a: Id, b: Id)
    requires EntryOf(a) == EntryOf(b)
    ensures a == b
  {
    assert EntryOf(a)[..|a|] == a && EntryOf(b)[..|b|] == b;
  }

  /** The ids a sub-process owns in the process around it. */
  predicate Owned(sub: Id, x: Id) { HasPrefix(x, Within(sub)) || x == sub || x == EntryOf(sub) }

  predicate Touches(sub: Id, f: Flow) { HasPrefix(f.source, Within(sub)) || HasPrefix(f.target, Within(sub)) }

  /** Nothing about the sub-process is different in `q`. */
  ghost predicate Agree(p: Process, q: Process, sub: Id) {
    && (forall x | Owned(sub, x) :: (x in q.elements <==> x in p.elements)
         && (x in p.elements ==> q.elements[x] == p.elements[x]))
    && (forall g | Owned(sub, g) :: (g in q.flows <==> g in p.flows) && (g in p.flows ==> q.flows[g] == p.flows[g]))
    && (forall g | g in q.flows && Touches(sub, q.flows[g]) :: g in p.flows && q.flows[g] == p.flows[g])
  }

  predicate ItemOk(item: FlowElement) {
    XmlId(item.id) && (item.Sequence? ==> Dotless(item.flow.source) && Dotless(item.flow.target))
  }

  lemma DotlessNotOwned(sub: Id, x: Id)
    requires XmlId(x) && x != sub && Dotless(sub)
    ensures !Owned(sub, x)
  {
    EntryIds(sub);
    if HasPrefix(x, Within(sub)) {
      DotWithin(sub, x);
    }
  }

  lemma DotlessUntouched(sub: Id, f: Flow)
    requires Dotless(f.source) && Dotless(f.target)
    ensures !Touches(sub, f)
  {
    if HasPrefix(f.source, Within(sub)) {
      DotWithin(sub, f.source);
    } else if HasPrefix(f.target, Within(sub)) {
      DotWithin(sub, f.target);
    }
  }

  lemma WithinNotOwned(sub: Id, other: Id, x: Id)
    requires Dotless(sub) && Dotless(other) && sub != other && HasPrefix(x, Within(other))
    ensures !Owned(sub, x)
  {
    DotWithin(other, x);
    EntryIds(sub);
    if HasPrefix(x, Within(sub)) {
      OneWithin(sub, other, x);
    }
  }

  lemma FlattenedAgrees(p: Process, other: Id, s: Process, end: Option<Id>, sub: Id)
    requires XmlId(other) && XmlId(sub) && sub != other
    ensures Agree(p, Flattened(p, other, s, end), sub)
  {
    var prefix, q := Within(other), Flattened(p, other, s, end);
    DotlessNotOwned(sub, other);
    EntryIds(other);
    if EntryOf(sub) == EntryOf(other) {
      SameEntry(sub, other);
    }
    assert !Owned(sub, EntryOf(other)) by {
      if HasPrefix(EntryOf(other), Within(sub)) {
        DotWithin(sub, EntryOf(other));
      }
    }
    forall x | HasPrefix(x, prefix) ensures !Owned(sub, x) {
      WithinNotOwned(sub, other, x);
    }
    forall g | g in q.flows && Touches(sub, q.flows[g]) ensures g in p.flows && q.flows[g] == p.flows[g] {
      FlattenedFlow(p, other, s, end, sub, g);
    }
  }

  lemma FlattenedFlow(p: Process, other: Id, s: Process, end: Option<Id>, sub: Id, g: Id)
    requires XmlId(other) && XmlId(sub) && sub != other
    requires g in Flattened(p, other, s, end).flows && Touches(sub, Flattened(p, other, s, end).flows[g])
    ensures g in p.flows && Flattened(p, other, s, end).flows[g] == p.flows[g]
  {
    var prefix := Within(other);
    if g == EntryOf(other) {
      EndsElsewhere(sub, other, Flow(other, prefix + s.start));
    } else if g in PrefixFlows(prefix, s.flows) {
      PrefixedTail(prefix, g);
      EndsElsewhere(sub, other, PrefixEnds(prefix, s.flows[Tail(prefix, g)]));
    }
  }

  lemma EndsElsewhere(sub: Id, other: Id, f: Flow)
    requires XmlId(other) && XmlId(sub) && sub != other
    requires (f.source == other || HasPrefix(f.source, Within(other))) && HasPrefix(f.target, Within(other))
    ensures !Touches(sub, f)
  {
    DotlessNotOwned(sub, other);
    WithinNotOwned(sub, other, f.target);
    if f.source != other {
      WithinNotOwned(sub, other, f.source);
    }
  }

  lemma StepAgrees(p: Process, item: FlowElement, parse: SubParse, sub: Id)
    requires ItemOk(item) && XmlId(sub) && item.id != sub
    ensures Agree(p, AddedOuter(p, item, parse), sub)
  {
    DotlessNotOwned(sub, item.id);
    if HasInner(item) {
      FlattenedAgrees(p, item.id, parse.inner, parse.end, sub);
    } else if item.Sequence? {
      DotlessUntouched(sub, item.flow);
    }
  }

  ghost predicate Absent(p: Process, sub: Id) {
    && (forall x | Owned(sub, x) :: x !in p.elements && x !in p.flows)
    && (forall g | g in p.flows :: !Touches(sub, p.flows[g]))
  }

  lemma {:induction false} AbsentBefore(doc: seq<FlowElement>, subs: seq<SubParse>, sub: Id)
    requires |subs| == |doc| && XmlId(sub) && forall i | 0 <= i < |doc| :: ItemOk(doc[i]) && doc[i].id != sub
    ensures Absent(Assembled(doc, subs), sub)
  {
    if doc != [] {
      var n := |doc| - 1;
      AbsentBefore(doc[..n], subs[..n], sub);
      StepAgrees(Assembled(doc[..n], subs[..n]), doc[n], subs[n], sub);
    }
  }

  lemma FlattenedContains(p: Process, sub: Id, s: Process, end: Option<Id>)
    requires XmlId(sub) && Absent(p, sub)
    ensures Contains(Flattened(p, sub, s, end), sub, s, end)
  {
    EntryIds(sub);
    if HasPrefix(sub, Within(sub)) {
      DotWithin(sub, sub);
    } else if HasPrefix(EntryOf(sub), Within(sub)) {
      DotWithin(sub, EntryOf(sub));
    }
    FlattenedCopies(p, sub, s, end);
    FlattenedSealed(p, sub, s, end);
  }

  lemma FlattenedCopies(p: Process, sub: Id, s: Process, end: Option<Id>)
    requires Absent(p, sub) && !HasPrefix(sub, Within(sub)) && !HasPrefix(EntryOf(sub), Within(sub))
    ensures Copies(Flattened(p, sub, s, end), Within(sub), s)
  {
    forall id ensures HasPrefix(Within(sub) + id, Within(sub)) && Tail(Within(sub), Within(sub) + id) == id {
      TailOfPrefixed(Within(sub), id);
    }
  }

  lemma FlattenedSealed(p: Process, sub: Id, s: Process, end: Option<Id>)
    requires Absent(p, sub) && !HasPrefix(sub, Within(sub)) && !HasPrefix(EntryOf(sub), Within(sub))
    ensures Sealed(Flattened(p, sub, s, end), Within(sub), EntryOf(sub))
  {
    var q := Flattened(p, sub, s, end);
    forall g | g in q.flows && !HasPrefix(g, Within(sub))
      ensures !HasPrefix(q.flows[g].source, Within(sub))
              && (HasPrefix(q.flows[g].target, Within(sub)) ==> g == EntryOf(sub))
    {
      assert g == EntryOf(sub) || (g in p.flows && q.flows[g] == p.flows[g]);
    }
  }

  lemma ContainsKept(p: Process, q: Process, sub: Id, s: Process, end: Option<Id>)
    requires Contains(p, sub, s, end) && Agree(p, q, sub)
    ensures Contains(q, sub, s, end)
  {
    var prefix := Within(sub);
    forall id ensures Owned(sub, prefix + id) {
      TailOfPrefixed(prefix, id);
    }
  }

  /** Every sub-process of the file ends up whole and sealed off in the process. */
  lemma {:induction false} ContainsEach(doc: seq<FlowElement>, subs: seq<SubParse>, k: nat)
    requires |subs| == |doc| && k < |doc| && HasInner(doc[k])
    requires DistinctIds(doc) && forall i | 0 <= i < |doc| :: ItemOk(doc[i])
    ensures Contains(Assembled(doc, subs), doc[k].id, subs[k].inner, subs[k].end)
    decreases |doc|
  {
    var n := |doc| - 1;
    var front := Assembled(doc[..n], subs[..n]);
    if k == n {
      AbsentBefore(doc[..n], subs[..n], doc[n].id);
      FlattenedContains(front, doc[n].id, subs[n].inner, subs[n].end);
    } else {
      ContainsEach(doc[..n], subs[..n], k);
      StepAgrees(front, doc[n], subs[n], doc[k].id);
      ContainsKept(front, Assembled(doc, subs), doc[k].id, subs[k].inner, subs[k].end);
    }
  }

  ghost predicate AllInner(doc: seq<FlowElement>, subs: seq<SubParse>)
    requires |subs| == |doc|
  {
    forall i | 0 <= i < |doc| && HasInner(doc[i]) :: Inner(subs[i].inner)
  }

  /** A `_synth` flow copied from inside is still what the reification pass would make it. */
  lemma SynthCopied(p: Process, sub: Id, s: Process, end: Option<Id>, k: Id)
    requires SynthNamed(s) && Dotless(sub)
    requires HasPrefix(k, Within(sub)) && HasSuffix(k, SYNTH) && Tail(Within(sub), k) in s.flows
    ensures var q := Flattened(p, sub, s, end);
            k in q.flows && Base(k) in q.flows && q.flows[k] == Flow(Base(k), q.flows[Base(k)].target)
  {
    var prefix, t := Within(sub), Tail(Within(sub), k);
    SynthSplits(prefix, k);
    PrefixedTail(prefix, k);
    TailOfPrefixed(prefix, Base(t));
    EntryOutside(sub);
    assert PrefixFlows(prefix, s.flows)[k] == PrefixEnds(prefix, s.flows[t]);
  }

  lemma SynthOutside(p: Process, sub: Id, s: Process, end: Option<Id>, k: Id)
    requires SynthNamed(p) && XmlId(sub) && Absent(p, sub) && HasSuffix(k, SYNTH) && !HasPrefix(k, Within(sub))
    requires k in Flattened(p, sub, s, end).flows
    ensures var q := Flattened(p, sub, s, end);
            Base(k) in q.flows && q.flows[k] == Flow(Base(k), q.flows[Base(k)].target)
  {
    EntryIds(sub);
    assert k != EntryOf(sub);
    NotFlattened(p, sub, s, end, k);
    NotFlattened(p, sub, s, end, Base(k));
  }

  /** Flows the sub-process does not own stay. */
  lemma NotFlattened(p: Process, sub: Id, s: Process, end: Option<Id>, g: Id)
    requires Absent(p, sub) && ((g in p.flows) || (g in Flattened(p, sub, s, end).flows && !Owned(sub, g)))
    ensures g in p.flows && g in Flattened(p, sub, s, end).flows && Flattened(p, sub, s, end).flows[g] == p.flows[g]
  {
    assert g in p.flows ==> !Owned(sub, g);
  }

  /** Flows with a `_synth` id stay what the reification pass would make them. */
  lemma FlattenedSynth(p: Process, sub: Id, s: Process, end: Option<Id>)
    requires SynthNamed(p) && SynthNamed(s) && XmlId(sub) && Absent(p, sub)
    ensures SynthNamed(Flattened(p, sub, s, end))
  {
    var q := Flattened(p, sub, s, end);
    forall k | k in q.flows && HasSuffix(k, SYNTH)
      ensures Base(k) in q.flows && q.flows[k] == Flow(Base(k), q.flows[Base(k)].target)
    {
      if HasPrefix(k, Within(sub)) {
        CopiedFlow(p, sub, s, end, k);
        SynthCopied(p, sub, s, end, k);
      } else {
        SynthOutside(p, sub, s, end, k);
      }
    }
  }

  lemma CopiedFlow(p: Process, sub: Id, s: Process, end: Option<Id>, k: Id)
    requires XmlId(sub) && Absent(p, sub) && HasPrefix(k, Within(sub)) && k in Flattened(p, sub, s, end).flows
    ensures Tail(Within(sub), k) in s.flows
  {
    EntryOutside(sub);
    assert Owned(sub, k);
  }

  lemma EntryOutside(sub: Id)
    requires Dotless(sub)
    ensures !HasPrefix(EntryOf(sub), Within(sub))
  {
    EntryIds(sub);
    if HasPrefix(EntryOf(sub), Within(sub)) {
      DotWithin(sub, EntryOf(sub));
    }
  }

  /** The suffix of an id within a sub-process is a suffix of the inner id. */
  lemma SynthSplits(prefix: string, k: Id)
    requires HasPrefix(k, prefix) && HasSuffix(k, SYNTH) && prefix != "" && prefix[|prefix| - 1] == '.'
    ensures HasSuffix(Tail(prefix, k), SYNTH) && Base(k) == prefix + Base(Tail(prefix, k))
  {
    var n, m := |prefix|, |k| - |SYNTH|;
    assert k[n - 1] == '.';
    forall i | m <= i < |k| ensures k[i] != '.' {
      assert k[i] == k[m..][i - m] == SYNTH[i - m];
    }
    assert Tail(prefix, k)[m - n..] == k[m..];
    assert k[..m] == k[..n] + k[n..m];
  }

  lemma {:induction false} FlowOrigin(doc: seq<FlowElement>, subs: seq<SubParse>, g: Id)
    requires |subs| == |doc| && (forall i | 0 <= i < |doc| :: XmlId(doc[i].id))
    requires g in Assembled(doc, subs).flows && Dotless(g) && !HasSuffix(g, ENTRY)
    ensures FromFlow(doc, g)
  {
    var n := |doc| - 1;
    EntryIds(doc[n].id);
    if HasPrefix(g, Within(doc[n].id)) {
      DotWithin(doc[n].id, g);
    }
    if g in Assembled(doc[..n], subs[..n]).flows {
      FlowOrigin(doc[..n], subs[..n], g);
      FromFlowGrows(doc, g);
    }
  }

  lemma {:induction false} SynthNamedAssembled(doc: seq<FlowElement>, subs: seq<SubParse>)
    requires |subs| == |doc| && DistinctIds(doc) && AllInner(doc, subs)
    requires forall i | 0 <= i < |doc| :: ItemOk(doc[i])
    ensures SynthNamed(Assembled(doc, subs))
  {
    if doc != [] {
      var n := |doc| - 1;
      var front := Assembled(doc[..n], subs[..n]);
      SynthNamedAssembled(doc[..n], subs[..n]);
      if HasInner(doc[n]) {
        AbsentBefore(doc[..n], subs[..n], doc[n].id);
        FlattenedSynth(front, doc[n].id, subs[n].inner, subs[n].end);
      } else if doc[n].Sequence? {
        if doc[n].id in front.flows {
          FlowOrigin(doc[..n], subs[..n], doc[n].id);
        }
      }
    }
  }

  /** An element with an inner end is a sub-process of the file. */
  ghost predicate ClosingSub(doc: seq<FlowElement>, subs: seq<SubParse>, x: Id, e: Id)
    requires |subs| == |doc|
  {
    exists i :: 0 <= i < |doc| && HasInner(doc[i]) && x == doc[i].id
                && subs[i].end.Some? && e == Within(x) + subs[i].end.value
  }

  lemma CloserStep(p: Process, item: FlowElement, parse: SubParse, x: Id)
    requires HasInner(item) ==> Inner(parse.inner)
    requires x in AddedOuter(p, item, parse).elements && AddedOuter(p, item, parse).elements[x].innerEnd != ""
    ensures || (HasInner(item) && x == item.id && parse.end.Some?
                && AddedOuter(p, item, parse).elements[x].innerEnd == Within(x) + parse.end.value)
            || (x in p.elements && AddedOuter(p, item, parse).elements[x] == p.elements[x])
  {
  }

  lemma {:induction false} CloserOrigin(doc: seq<FlowElement>, subs: seq<SubParse>, x: Id)
    requires |subs| == |doc| && AllInner(doc, subs)
    requires x in Assembled(doc, subs).elements && Assembled(doc, subs).elements[x].innerEnd != ""
    ensures ClosingSub(doc, subs, x, Assembled(doc, subs).elements[x].innerEnd)
  {
    var n := |doc| - 1;
    var front, e := Assembled(doc[..n], subs[..n]), Assembled(doc, subs).elements[x].innerEnd;
    CloserStep(front, doc[n], subs[n], x);
    if !(HasInner(doc[n]) && x == doc[n].id && subs[n].end.Some? && e == Within(x) + subs[n].end.value) {
      CloserOrigin(doc[..n], subs[..n], x);
      var i :| 0 <= i < n && HasInner(doc[..n][i]) && x == doc[..n][i].id && subs[..n][i].end.Some?
               && e == Within(x) + subs[..n][i].end.value;
      assert doc[i] == doc[..n][i] && subs[i] == subs[..n][i];
    }
  }

  /** What closes the end event of a sub-process is that sub-process. */
  lemma ClosedBySub(doc: seq<FlowElement>, subs: seq<SubParse>, k: nat, t: Id, n: Id)
    requires |subs| == |doc| && DistinctIds(doc) && AllInner(doc, subs) && k < |doc| && HasInner(doc[k])
    requires Closes(Assembled(doc, subs), t, Within(doc[k].id) + n)
    ensures t == doc[k].id && subs[k].end == Some(n)
  {
    var sub, e := doc[k].id, Within(doc[k].id) + n;
    CloserOrigin(doc, subs, t);
    var i :| 0 <= i < |doc| && HasInner(doc[i]) && t == doc[i].id
             && subs[i].end.Some? && e == Within(t) + subs[i].end.value;
    TailOfPrefixed(Within(sub), n);
    TailOfPrefixed(Within(t), subs[i].end.value);
    OneWithin(sub, t, e);
  }

  lemma ClosedHasDot(doc: seq<FlowElement>, subs: seq<SubParse>, x: Id, e: Id)
    requires |subs| == |doc| && ClosingSub(doc, subs, x, e)
    ensures !Dotless(e)
  {
    var i :| 0 <= i < |doc| && HasInner(doc[i]) && x == doc[i].id
             && subs[i].end.Some? && e == Within(x) + subs[i].end.value;
    TailOfPrefixed(Within(x), subs[i].end.value);
    DotWithin(x, e);
  }

  lemma DotlessUnclosed(doc: seq<FlowElement>, subs: seq<SubParse>, n: Id)
    requires |subs| == |doc| && AllInner(doc, subs) && Dotless(n)
    ensures Unclosed(Assembled(doc, subs), n)
  {
    var p := Assembled(doc, subs);
    forall t | t in p.elements && p.elements[t].innerEnd != "" ensures !Dotless(p.elements[t].innerEnd) {
      CloserOrigin(doc, subs, t);
      ClosedHasDot(doc, subs, t, p.elements[t].innerEnd);
    }
  }
}

/** What a flattened sub-process is in the finished process: an embedded copy of itself with one way
    in and one way out. */
module Embedding {
  import opened Bpmn
  import opened Routing
  import opened Records
  import opened Strings
  import opened Prefixing
  import opened Wiring
  import opened Reification
  import opened SubProcesses
  import ParallelJoin

  /** The outgoing list agrees with the flow table. Ids that name no flow do not matter. */
  ghost predicate Adjacent(p: Process, id: Id) {
    id in p.elements && forall f | f in p.flows :: f in p.elements[id].outgoing <==> p.flows[f].source == id
  }

  lemma AdjacentLeads(p: Process, id: Id, filters: seq<Id>, x: Id)
    requires Adjacent(p, id)
    ensures x in Successors(p, id, filters) <==>
            exists f :: f in p.flows && p.flows[f].source == id && Selected(p, filters, f)
                      && StepAlong(p, f).element == x
  {
    SuccessorsAre(p, id, filters, x);
  }

  /** A copied graph leads from `prefix + n` exactly to the copies of where `n` leads. */
  lemma FlowGraphEmbeds(s: Process, x: Process, prefix: string, n: Id, filters: seq<Id>)
    requires Adjacent(s, n) && Adjacent(x, prefix + n)
    requires forall f | f in s.flows :: FlowCopied(s, x, prefix, f)
    requires forall g | g in x.flows && x.flows[g].source == prefix + n ::
               HasPrefix(g, prefix) && Tail(prefix, g) in s.flows
    ensures Successors(x, prefix + n, PrefixAll(prefix, filters)) == PrefixSet(prefix, Successors(s, n, filters))
  {
    var there := PrefixAll(prefix, filters);
    forall y | y in Successors(s, n, filters) ensures prefix + y in Successors(x, prefix + n, there) {
      AdjacentLeads(s, n, filters, y);
      var f :| f in s.flows && s.flows[f].source == n && Selected(s, filters, f) && StepAlong(s, f).element == y;
      CopiedStep(s, x, prefix, filters, f);
      AdjacentLeads(x, prefix + n, there, prefix + y);
    }
    forall z | z in Successors(x, prefix + n, there) ensures z in PrefixSet(prefix, Successors(s, n, filters)) {
      AdjacentLeads(x, prefix + n, there, z);
      var g :| g in x.flows && x.flows[g].source == prefix + n && Selected(x, there, g) && StepAlong(x, g).element == z;
      PrefixedTail(prefix, g);
      var f := Tail(prefix, g);
      CopiedStep(s, x, prefix, filters, f);
      SameTail(prefix, s.flows[f].source, n);
      AdjacentLeads(s, n, filters, StepAlong(s, f).element);
    }
  }

  lemma SameTail(prefix: string, a: Id, b: Id)
    requires prefix + a == prefix + b
    ensures a == b
  {
    TailOfPrefixed(prefix, a);
    TailOfPrefixed(prefix, b);
  }

  /** Flows with a `_synth` id are what the pass would make them. */
  ghost predicate SynthNamed(p: Process) {
    forall k | k in p.flows && HasSuffix(k, SYNTH) ::
      Base(k) in p.flows && p.flows[k] == Flow(Base(k), p.flows[Base(k)].target)
  }

  lemma SynthKeeps(p: Process, w: Process, k: Id)
    requires Wired(p, w) && SynthNamed(p) && k in p.flows
    ensures k in Synthesized(w).flows && Synthesized(w).flows[k] == p.flows[k]
  {
    if k in SynthIds(w, w.elements.Keys) {
      var id :| Reified(w, id) && k == Synth(id);
      BaseOfSynth(id);
      SynthFlowOf(w, id);
    }
  }

  lemma SynthOnlyAdds(p: Process, w: Process, k: Id) returns (id: Id)
    requires Wired(p, w) && k in Synthesized(w).flows && k !in p.flows
    ensures Reified(p, id) && k == Synth(id) && Synthesized(w).flows[k] == Flow(id, p.flows[id].target)
  {
    SameReified(p, w);
    id :| Reified(w, id) && k == Synth(id);
    SynthFlowOf(w, id);
  }

  lemma SynthInjective(a: Id, b: Id)
    requires Synth(a) == Synth(b)
    ensures a == b
  {
    BaseOfSynth(a);
    BaseOfSynth(b);
  }

  lemma SynthesizedOutgoing(p: Process, w: Process, n: Id, f: Id)
    requires Wired(p, w) && n in p.elements
    ensures f in Synthesized(w).elements[n].outgoing <==>
            || f in p.elements[n].outgoing
            || (f in p.flows && p.flows[f].source == n)
            || (Reified(p, n) && f == Synth(n))
  {
    SameReified(p, w);
    WiredOutgoing(p, w, n, f);
  }

  /** After wiring and reification every list agrees with the flow table, unless it began with ids
      that name flows. */
  lemma AdjacentAfterSynth(p: Process, w: Process, n: Id)
    requires Wired(p, w) && SynthNamed(p) && n in p.elements
    requires forall f | f in p.elements[n].outgoing :: f !in Synthesized(w).flows
    ensures Adjacent(Synthesized(w), n)
  {
    var q := Synthesized(w);
    forall f | f in q.flows ensures f in q.elements[n].outgoing <==> q.flows[f].source == n {
      SynthesizedOutgoing(p, w, n, f);
      BaseOfSynth(n);
      if f in p.flows {
        SynthKeeps(p, w, f);
      } else {
        var id := SynthOnlyAdds(p, w, f);
        if id != n && f == Synth(n) {
          SynthInjective(id, n);
        }
      }
    }
  }

  /** A sub-process as its own parse leaves it. */
  ghost predicate Inner(s: Process) {
    && SynthNamed(s)
    && (forall n | n in s.elements :: Adjacent(s, n) && forall f | f in s.elements[n].outgoing :: f in s.flows)
    && (forall n | Reified(s, n) :: Synth(n) in s.flows)
    && (forall n | n in s.elements :: s.elements[n].innerEnd == "")
  }

  lemma InnerParsed(p: Process, w: Process)
    requires Wired(p, w) && (forall k | k in p.flows :: !HasSuffix(k, SYNTH))
    requires forall n | n in p.elements :: p.elements[n].outgoing == [] && p.elements[n].innerEnd == ""
    requires forall n | n in p.elements :: !HasSuffix(n, SYNTH)
    ensures Inner(Synthesized(w))
  {
    var s := Synthesized(w);
    SameReified(p, w);
    forall n | n in s.elements
      ensures Adjacent(s, n) && forall f | f in s.elements[n].outgoing :: f in s.flows
    {
      AdjacentAfterSynth(p, w, n);
      forall f | f in s.elements[n].outgoing ensures f in s.flows {
        SynthesizedOutgoing(p, w, n, f);
      }
    }
    forall k | k in s.flows && HasSuffix(k, SYNTH)
      ensures Base(k) in s.flows && s.flows[k] == Flow(Base(k), s.flows[Base(k)].target)
    {
      var id := SynthOnlyAdds(p, w, k);
      BaseOfSynth(id);
      SynthKeeps(p, w, id);
    }
  }

  /** The elements and flows of the sub-process are in `p` under its prefix, and no others are. */
  ghost predicate Copies(p: Process, prefix: string, s: Process) {
    && (forall id | id in s.elements :: prefix + id in p.elements && p.elements[prefix + id] == s.elements[id])
    && (forall k | k in p.elements && HasPrefix(k, prefix) :: Tail(prefix, k) in s.elements)
    && (forall f | f in s.flows :: prefix + f in p.flows && p.flows[prefix + f] == PrefixEnds(prefix, s.flows[f]))
    && (forall g | g in p.flows && HasPrefix(g, prefix) :: Tail(prefix, g) in s.flows)
  }

  /** No other flow starts inside, and only `entry` comes in from outside. */
  ghost predicate Sealed(p: Process, prefix: string, entry: Id) {
    forall g | g in p.flows && !HasPrefix(g, prefix) ::
      !HasPrefix(p.flows[g].source, prefix) && (HasPrefix(p.flows[g].target, prefix) ==> g == entry)
  }

  ghost predicate Enters(p: Process, sub: Id, s: Process, end: Option<Id>) {
    && sub in p.elements && p.elements[sub] == SubElement(sub, end)
    && EntryOf(sub) in p.flows && p.flows[EntryOf(sub)] == Flow(sub, Within(sub) + s.start)
    && EntryOf(sub) !in p.elements
  }

  /** The process `p` holds the flattened sub-process, and nothing else touches its ids. */
  ghost predicate Contains(p: Process, sub: Id, s: Process, end: Option<Id>) {
    Copies(p, Within(sub), s) && Sealed(p, Within(sub), EntryOf(sub)) && Enters(p, sub, s, end)
  }

  /** The ids of the sub-process are used nowhere outside it. */
  ghost predicate Separate(p: Process, s: Process) {
    forall f | f in s.flows :: f !in p.flows && f !in SynthIds(p, p.elements.Keys)
  }

  /** The element at `n` does not close a sub-process. */
  ghost predicate Unclosed(p: Process, n: Id) { forall t :: !Closes(p, t, n) }

  /** The finished process: wired, reified, exits routed. */
  ghost predicate Finished(p: Process, w: Process, x: Process) { Wired(p, w) && ExitsRouted(Synthesized(w), x) }

  lemma ClosesSame(p: Process, w: Process, s: Id, e: Id)
    requires Wired(p, w)
    ensures Closes(Synthesized(w), s, e) <==> Closes(p, s, e)
  {
    if s in p.elements {
      assert Grown(p.flows, p.flows.Keys, s, p.elements[s], w.elements[s]);
    }
  }

  lemma FinishedElement(p: Process, w: Process, x: Process, n: Id)
    requires Finished(p, w, x) && n in p.elements && Unclosed(p, n)
    ensures x.elements[n] == Synthesized(w).elements[n]
  {
    forall s ensures !Closes(Synthesized(w), s, n) {
      ClosesSame(p, w, s, n);
    }
  }

  lemma FinishedKind(p: Process, w: Process, x: Process, n: Id)
    requires Finished(p, w, x)
    ensures KindOf(x, n) == KindOf(p, n) && (n in x.elements <==> n in p.elements)
  {
    var q := Synthesized(w);
    KindsKept(p, w, n);
    if n in q.elements {
      if s :| s in q.elements && Closes(q, s, n) {
        assert x.elements[n] == Closed(q.elements[n], q.elements[s].outgoing);
      }
    }
  }

  lemma FinishedFlow(p: Process, w: Process, x: Process, f: Id)
    requires Finished(p, w, x) && SynthNamed(p) && f in p.flows
    ensures f in x.flows && x.flows[f] == p.flows[f]
  {
    SynthKeeps(p, w, f);
  }

  lemma AdjacentFinished(p: Process, w: Process, x: Process, n: Id)
    requires Finished(p, w, x) && SynthNamed(p) && n in p.elements && Unclosed(p, n)
    requires forall f | f in p.elements[n].outgoing :: f !in x.flows
    ensures Adjacent(x, n)
  {
    AdjacentAfterSynth(p, w, n);
    FinishedElement(p, w, x, n);
  }

  lemma CopyFinished(p: Process, w: Process, x: Process, prefix: string, s: Process, f: Id)
    requires Finished(p, w, x) && SynthNamed(p) && Copies(p, prefix, s) && f in s.flows
    ensures FlowCopied(s, x, prefix, f)
  {
    FinishedFlow(p, w, x, prefix + f);
    FinishedKind(p, w, x, prefix + f);
    if prefix + f in p.elements {
      TailOfPrefixed(prefix, f);
    }
  }

  lemma SynthInside(p: Process, prefix: string, s: Process, n: Id)
    requires Copies(p, prefix, s) && Reified(p, prefix + n) && forall m | Reified(s, m) :: Synth(m) in s.flows
    ensures Synth(prefix + n) in p.flows
  {
    TailOfPrefixed(prefix, n);
    assert prefix + Synth(n) == Synth(prefix + n);
  }

  /** Every flow that starts inside is a copy of one of the sub-process. */
  lemma OnlyCopiesInside(p: Process, w: Process, x: Process, sub: Id, s: Process, n: Id, g: Id)
    requires Finished(p, w, x) && SynthNamed(p) && Inner(s)
    requires Copies(p, Within(sub), s) && Sealed(p, Within(sub), EntryOf(sub))
    requires g in x.flows && x.flows[g].source == Within(sub) + n
    ensures HasPrefix(g, Within(sub)) && Tail(Within(sub), g) in s.flows
  {
    TailOfPrefixed(Within(sub), n);
    if g in p.flows {
      SynthKeeps(p, w, g);
    } else {
      var id := SynthOnlyAdds(p, w, g);
      SynthInside(p, Within(sub), s, n);
    }
  }

  /** Ids listed inside are not ids of the finished process. */
  lemma ListedInside(p: Process, w: Process, x: Process, s: Process, n: Id, f: Id)
    requires Finished(p, w, x) && Inner(s) && Separate(p, s) && n in s.elements && f in s.elements[n].outgoing
    ensures f !in x.flows
  {
    SameReified(p, w);
    assert SynthIds(w, w.elements.Keys) == SynthIds(p, p.elements.Keys);
  }

  /** Flattening preserves the inside: an element other than the closing end leads exactly to the
      copies of where it led in the sub-process. */
  lemma InsideIsEmbedded(p: Process, w: Process, x: Process, sub: Id, s: Process, end: Option<Id>, n: Id,
                         filters: seq<Id>)
    requires Finished(p, w, x) && SynthNamed(p) && Contains(p, sub, s, end) && Separate(p, s) && Inner(s)
    requires n in s.elements && Unclosed(p, Within(sub) + n)
    ensures Successors(x, Within(sub) + n, PrefixAll(Within(sub), filters))
            == PrefixSet(Within(sub), Successors(s, n, filters))
  {
    var prefix := Within(sub);
    forall f | f in p.elements[prefix + n].outgoing ensures f !in x.flows {
      ListedInside(p, w, x, s, n, f);
    }
    AdjacentFinished(p, w, x, prefix + n);
    forall f | f in s.flows ensures FlowCopied(s, x, prefix, f) {
      CopyFinished(p, w, x, prefix, s, f);
    }
    forall g | g in x.flows && x.flows[g].source == prefix + n
      ensures HasPrefix(g, prefix) && Tail(prefix, g) in s.flows
    {
      OnlyCopiesInside(p, w, x, sub, s, n, g);
    }
    FlowGraphEmbeds(s, x, prefix, n, filters);
  }

  lemma OnlySuccessor(x: Process, id: Id, f: Id)
    requires Adjacent(x, id) && f in x.flows && x.flows[f].source == id && !IsSequenceFlow(x, f)
    ensures Successors(x, id, [f]) == {x.flows[f].target}
  {
    forall y ensures y in Successors(x, id, [f]) <==> y == x.flows[f].target {
      AdjacentLeads(x, id, [f], y);
      assert Selected(x, [f], f) && StepAlong(x, f).element == x.flows[f].target;
    }
  }

  /** Entering the sub-process, with the filter its executor sets, leads to its start event alone. */
  lemma EntersAtStart(p: Process, w: Process, x: Process, sub: Id, s: Process, end: Option<Id>)
    requires Finished(p, w, x) && SynthNamed(p) && Enters(p, sub, s, end) && Unclosed(p, sub)
    ensures Successors(x, sub, [EntryOf(sub)]) == {Within(sub) + s.start}
  {
    AdjacentFinished(p, w, x, sub);
    FinishedFlow(p, w, x, EntryOf(sub));
    FinishedKind(p, w, x, EntryOf(sub));
    OnlySuccessor(x, sub, EntryOf(sub));
  }

  /** Where the sub-process leads in the end: along its own flows, the entry aside. */
  ghost predicate LeadsOut(x: Process, sub: Id, y: Id) {
    exists f :: f in x.flows && x.flows[f].source == sub && !HasSuffix(f, ENTRY) && StepAlong(x, f).element == y
  }

  lemma SubNotClosed(p: Process, w: Process, sub: Id, c: Id)
    requires Wired(p, w) && OneCloser(Synthesized(w)) && Closes(p, sub, c)
    ensures Unclosed(p, sub)
  {
    ClosesSame(p, w, sub, c);
    forall t ensures !Closes(p, t, sub) {
      ClosesSame(p, w, t, sub);
    }
  }

  lemma ClosingElement(p: Process, w: Process, x: Process, sub: Id, c: Id)
    requires Finished(p, w, x) && OneCloser(Synthesized(w)) && Closes(p, sub, c)
    ensures var q := Synthesized(w);
            && c in x.elements && x.elements[c] == Closed(q.elements[c], q.elements[sub].outgoing)
            && x.elements[sub] == q.elements[sub]
  {
    ClosesSame(p, w, sub, c);
    SubNotClosed(p, w, sub, c);
    FinishedElement(p, w, x, sub);
  }

  lemma NothingStartsAt(p: Process, sub: Id, s: Process, e: Id)
    requires Copies(p, Within(sub), s) && Sealed(p, Within(sub), EntryOf(sub))
    requires forall f | f in s.flows :: s.flows[f].source != e
    ensures forall f | f in p.flows :: p.flows[f].source != Within(sub) + e
  {
    var prefix := Within(sub);
    TailOfPrefixed(prefix, e);
    forall f | f in p.flows ensures p.flows[f].source != prefix + e {
      if HasPrefix(f, prefix) {
        PrefixedTail(prefix, f);
        TailOfPrefixed(prefix, s.flows[Tail(prefix, f)].source);
      }
    }
  }

  lemma NothingFromEnd(p: Process, w: Process, sub: Id, s: Process, e: Id)
    requires Wired(p, w) && Copies(p, Within(sub), s) && Sealed(p, Within(sub), EntryOf(sub)) && Inner(s)
    requires e in s.elements && s.elements[e].kind == EndEvent
    requires forall f | f in s.flows :: s.flows[f].source != e
    ensures Synthesized(w).elements[Within(sub) + e].outgoing == []
  {
    var c, q := Within(sub) + e, Synthesized(w);
    NothingStartsAt(p, sub, s, e);
    if q.elements[c].outgoing != [] {
      SynthesizedOutgoing(p, w, c, q.elements[c].outgoing[0]);
    }
  }

  /** An element with the exits for its list, and those exits as its filter, leads out. */
  lemma ExitsLeadOut(x: Process, sub: Id, c: Id)
    requires Adjacent(x, sub) && c in x.elements && x.elements[c].outgoing == ExitsOf(x.elements[sub].outgoing) != []
    ensures forall y :: y in Successors(x, c, x.elements[c].outgoing) <==> LeadsOut(x, sub, y)
  {
    var exits := x.elements[c].outgoing;
    forall y ensures y in Successors(x, c, exits) <==> LeadsOut(x, sub, y) {
      SuccessorsAre(x, c, exits, y);
      if LeadsOut(x, sub, y) {
        var f :| f in x.flows && x.flows[f].source == sub && !HasSuffix(f, ENTRY) && StepAlong(x, f).element == y;
        assert f in exits && Selected(x, exits, f);
      }
    }
  }

  /** What the parser leaves on the end event of a sub-process: the exits, twice over. */
  lemma EndGetsExits(p: Process, w: Process, x: Process, sub: Id, s: Process, e: Id)
    requires Finished(p, w, x) && OneCloser(Synthesized(w)) && Inner(s) && Contains(p, sub, s, Some(e))
    requires e in s.elements && s.elements[e].kind == EndEvent && s.elements[e].outgoing == []
    ensures var c, exits := Within(sub) + e, ExitsOf(x.elements[sub].outgoing);
            c in x.elements && x.elements[c].outgoing == exits && x.elements[c].exitFlows == Join(exits)
    ensures Unclosed(p, sub)
  {
    var c := Within(sub) + e;
    assert Closes(p, sub, c);
    forall f | f in s.flows ensures s.flows[f].source != e {
      assert Adjacent(s, e);
    }
    SubNotClosed(p, w, sub, c);
    ClosingElement(p, w, x, sub, c);
    NothingFromEnd(p, w, sub, s, e);
    assert [] + ExitsOf(x.elements[sub].outgoing) == ExitsOf(x.elements[sub].outgoing);
  }

  /** The round trip through `subprocess_exit_flows`: the end event of the sub-process, filtering by
      the string the parser left on it, leads exactly where the sub-process leads out. */
  lemma EndLeadsOut(p: Process, w: Process, x: Process, sub: Id, s: Process, e: Id)
    requires Finished(p, w, x) && SynthNamed(p) && Contains(p, sub, s, Some(e)) && Inner(s)
    requires OneCloser(Synthesized(w))
    requires e in s.elements && s.elements[e].kind == EndEvent && s.elements[e].outgoing == []
    requires var exits := ExitsOf(x.elements[sub].outgoing);
             exits != [] && exits != [""] && forall f | f in exits :: ',' !in f
    ensures var c := Within(sub) + e;
            && c in x.elements && x.elements[c].exitFlows != ""
            && forall y :: y in Successors(x, c, Split(x.elements[c].exitFlows)) <==> LeadsOut(x, sub, y)
  {
    EndReady(p, w, x, sub, s, e);
    ExitsRoundTrip(x, sub, Within(sub) + e);
  }

  /** The closing end event of a sub-process and the sub-process itself, as the parser leaves them. */
  lemma EndReady(p: Process, w: Process, x: Process, sub: Id, s: Process, e: Id)
    requires Finished(p, w, x) && SynthNamed(p) && Contains(p, sub, s, Some(e)) && Inner(s)
    requires OneCloser(Synthesized(w))
    requires e in s.elements && s.elements[e].kind == EndEvent && s.elements[e].outgoing == []
    ensures var c, exits := Within(sub) + e, ExitsOf(x.elements[sub].outgoing);
            && c in x.elements && x.elements[c].outgoing == exits && x.elements[c].exitFlows == Join(exits)
            && Adjacent(x, sub)
  {
    EndGetsExits(p, w, x, sub, s, e);
    AdjacentFinished(p, w, x, sub);
  }

  lemma ExitsRoundTrip(x: Process, sub: Id, c: Id)
    requires Adjacent(x, sub) && c in x.elements && x.elements[c].outgoing == ExitsOf(x.elements[sub].outgoing)
    requires var exits := x.elements[c].outgoing;
             && x.elements[c].exitFlows == Join(exits)
             && exits != [] && exits != [""] && forall f | f in exits :: ',' !in f
    ensures x.elements[c].exitFlows != ""
    ensures forall y :: y in Successors(x, c, Split(x.elements[c].exitFlows)) <==> LeadsOut(x, sub, y)
  {
    JoinEmpty(x.elements[c].outgoing);
    SplitJoin(x.elements[c].outgoing);
    ExitsLeadOut(x, sub, c);
  }

  /** A walk along successors. */
  ghost predicate IsWalk(p: Process, ids: seq<Id>) {
    forall i | 0 < i < |ids| :: ids[i] in Successors(p, ids[i - 1], [])
  }

  /** Reachability: the walks from inside that stay short of the closing end are exactly the copies
      of the walks of the sub-process. */
  lemma WalksInside(p: Process, w: Process, x: Process, sub: Id, s: Process, end: Option<Id>, ids: seq<Id>)
    requires Finished(p, w, x) && SynthNamed(p) && Contains(p, sub, s, end) && Separate(p, s) && Inner(s)
    requires ids != [] && forall n | n in ids[..|ids| - 1] :: n in s.elements && Unclosed(p, Within(sub) + n)
    ensures IsWalk(x, PrefixAll(Within(sub), ids)) <==> IsWalk(s, ids)
  {
    var prefix, there := Within(sub), PrefixAll(Within(sub), ids);
    assert PrefixAll(prefix, []) == [];
    forall i | 0 < i < |ids|
      ensures there[i] in Successors(x, there[i - 1], []) <==> ids[i] in Successors(s, ids[i - 1], [])
    {
      assert ids[i - 1] == ids[..|ids| - 1][i - 1];
      InsideIsEmbedded(p, w, x, sub, s, end, ids[i - 1], []);
      InPrefixSet(prefix, Successors(s, ids[i - 1], []), ids[i]);
    }
  }

  lemma InPrefixSet(prefix: string, ids: set<Id>, id: Id)
    ensures prefix + id in PrefixSet(prefix, ids) <==> id in ids
  {
    TailOfPrefixed(prefix, id);
    forall y | y in ids ensures Tail(prefix, prefix + y) == y {
      TailOfPrefixed(prefix, y);
    }
  }
}

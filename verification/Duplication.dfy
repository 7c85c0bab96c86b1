/** Flattening preserves where elements lead but not how often: inner lists keep their old entries
    and the `_synth` pass runs twice over inner flows. */
module Duplication {
  import opened Bpmn
  import opened Routing
  import opened Records
  import opened Strings
  import opened Prefixing
  import opened Wiring
  import opened Reification
  import opened SubProcesses
  import opened Embedding
  import ParallelJoin

  lemma Singleton<T>(s: seq<T>, x: T)
    requires multiset(s) == multiset({x})
    ensures s == [x]
  {
    assert |s| == |multiset(s)| == 1;
    assert s[0] in multiset(s);
  }

  lemma SizeOfExtension(before: seq<Id>, after: seq<Id>, added: set<Id>)
    requires Extends(before, after, added)
    ensures |after| == |before| + |added|
  {
    assert |multiset(after[|before|..])| == |multiset(added)| == |added|;
  }

  /** Two injective copies of a set are as large as the set. */
  lemma {:induction false} CopySizes(prefix: string, ids: set<Id>)
    ensures |PrefixSet(prefix, ids)| == |ids|
    ensures |MadeFor(ids)| == |ids|
  {
    if ids != {} {
      var id :| id in ids;
      var rest := ids - {id};
      CopySizes(prefix, rest);
      InPrefixSet(prefix, rest, id);
      forall y | y in rest ensures Synth(y) != Synth(id) {
        if Synth(y) == Synth(id) {
          SynthInjective(y, id);
        }
      }
      assert PrefixSet(prefix, ids) == PrefixSet(prefix, rest) + {prefix + id};
      assert MadeFor(ids) == MadeFor(rest) + {Synth(id)};
    }
  }

  /** The flows of `p` that start inside at `n` are the copies of those that start at `n`. */
  lemma SourcedInside(p: Process, sub: Id, s: Process, n: Id)
    requires Copies(p, Within(sub), s) && Sealed(p, Within(sub), EntryOf(sub))
    ensures Sourced(p.flows, p.flows.Keys, Within(sub) + n) == PrefixSet(Within(sub), Sourced(s.flows, s.flows.Keys, n))
  {
    var prefix := Within(sub);
    TailOfPrefixed(prefix, n);
    forall g | g in Sourced(p.flows, p.flows.Keys, prefix + n)
      ensures g in PrefixSet(prefix, Sourced(s.flows, s.flows.Keys, n))
    {
      PrefixedTail(prefix, g);
      SameTail(prefix, s.flows[Tail(prefix, g)].source, n);
    }
  }

  lemma AimedInside(p: Process, sub: Id, s: Process, end: Option<Id>, n: Id)
    requires Contains(p, sub, s, end) && !HasPrefix(EntryOf(sub), Within(sub))
    ensures Aimed(p.flows, p.flows.Keys, Within(sub) + n)
            == PrefixSet(Within(sub), Aimed(s.flows, s.flows.Keys, n)) + if n == s.start then {EntryOf(sub)} else {}
  {
    var prefix := Within(sub);
    TailOfPrefixed(prefix, n);
    forall g | g in Aimed(p.flows, p.flows.Keys, prefix + n) && g != EntryOf(sub)
      ensures g in PrefixSet(prefix, Aimed(s.flows, s.flows.Keys, n))
    {
      PrefixedTail(prefix, g);
      SameTail(prefix, s.flows[Tail(prefix, g)].target, n);
    }
    if EntryOf(sub) in Aimed(p.flows, p.flows.Keys, prefix + n) {
      SameTail(prefix, s.start, n);
    }
  }

  lemma SynthStartsAlone(s: Process, f: Id)
    requires Inner(s) && Reified(s, f) && s.elements[f].outgoing == [Synth(f)]
    ensures Sourced(s.flows, s.flows.Keys, f) == {Synth(f)}
  {
    forall h ensures h in Sourced(s.flows, s.flows.Keys, f) <==> h == Synth(f) {
      assert Adjacent(s, f);
    }
  }

  lemma ExtendedByOne(before: seq<Id>, after: seq<Id>, f: Id)
    requires Extends(before, after, {f})
    ensures after == before + [f]
  {
    Singleton(after[|before|..], f);
  }

  lemma WiredFlowList(p: Process, w: Process, sub: Id, s: Process, f: Id)
    requires Wired(p, w) && Copies(p, Within(sub), s) && Sealed(p, Within(sub), EntryOf(sub))
    requires f in s.elements && s.elements[f].outgoing == [Synth(f)]
    requires Sourced(s.flows, s.flows.Keys, f) == {Synth(f)}
    ensures var c := Within(sub) + f;
            c in w.elements && w.elements[c].outgoing == [Synth(f), Within(sub) + Synth(f)]
  {
    var c, g := Within(sub) + f, Within(sub) + Synth(f);
    SourcedInside(p, sub, s, f);
    assert PrefixSet(Within(sub), {Synth(f)}) == {g};
    assert Grown(p.flows, p.flows.Keys, c, p.elements[c], w.elements[c]);
    ExtendedByOne([Synth(f)], w.elements[c].outgoing, g);
  }

  lemma ReifiedCopy(p: Process, w: Process, prefix: string, s: Process, f: Id)
    requires Wired(p, w) && Copies(p, prefix, s) && Reified(s, f)
    ensures Reified(w, prefix + f)
  {
    assert Grown(p.flows, p.flows.Keys, prefix + f, p.elements[prefix + f], w.elements[prefix + f]);
  }

  lemma FlowListInside(p: Process, w: Process, sub: Id, s: Process, f: Id)
    requires Wired(p, w) && Copies(p, Within(sub), s) && Sealed(p, Within(sub), EntryOf(sub))
    requires Reified(s, f) && s.elements[f].outgoing == [Synth(f)]
    requires Sourced(s.flows, s.flows.Keys, f) == {Synth(f)}
    ensures var g := Within(sub) + Synth(f);
            && Within(sub) + f in w.elements
            && Synthesized(w).elements[Within(sub) + f].outgoing == [Synth(f), g, g]
  {
    var c := Within(sub) + f;
    WiredFlowList(p, w, sub, s, f);
    ReifiedCopy(p, w, Within(sub), s, f);
    SynthWithin(Within(sub), f);
    ListedAgain(w, c, Synth(f), Synth(c));
  }

  lemma SynthWithin(prefix: string, f: Id)
    ensures prefix + Synth(f) == Synth(prefix + f)
  {
  }

  lemma ListedAgain(w: Process, c: Id, a: Id, g: Id)
    requires Reified(w, c) && w.elements[c].outgoing == [a, g] && g == Synth(c)
    ensures Synthesized(w).elements[c].outgoing == [a, g, g]
  {
  }

  lemma AlongTwice(x: Process, a: Id, g: Id)
    requires a !in x.flows && g in x.flows
    ensures Along(x, [a, g, g], []) == [StepAlong(x, g), StepAlong(x, g)]
  {
    assert [a][..0] == [] && [a, g][..1] == [a] && [a, g, g][..2] == [a, g];
    assert Along(x, [a], []) == [];
    assert Along(x, [a, g], []) == [StepAlong(x, g)];
  }

  /** A flow element inside a sub-process hands on every token twice. */
  lemma TokensDouble(p: Process, w: Process, x: Process, sub: Id, s: Process, end: Option<Id>, f: Id)
    requires Finished(p, w, x) && SynthNamed(p) && Contains(p, sub, s, end) && Separate(p, s) && Inner(s)
    requires Reified(s, f) && s.elements[f].outgoing == [Synth(f)] && Synth(f) !in s.elements
    requires Unclosed(p, Within(sub) + f)
    ensures var g := Within(sub) + Synth(f);
            var hop := NextFlow(g, Within(sub) + s.flows[Synth(f)].target, KindOf(s, s.flows[Synth(f)].target));
            NextFlows(x, Route, Within(sub) + f, []) == [hop, hop]
  {
    var prefix, g := Within(sub), Within(sub) + Synth(f);
    SynthStartsAlone(s, f);
    FlowListInside(p, w, sub, s, f);
    FinishedElement(p, w, x, prefix + f);
    ListedInside(p, w, x, s, f, Synth(f));
    FinishedFlow(p, w, x, g);
    AlongTwice(x, Synth(f), g);
    HopInside(p, w, x, prefix, s, Synth(f));
  }

  /** A copied flow that is no element leads to the copy of its target. */
  lemma HopInside(p: Process, w: Process, x: Process, prefix: string, s: Process, k: Id)
    requires Finished(p, w, x) && SynthNamed(p) && Copies(p, prefix, s) && k in s.flows && k !in s.elements
    ensures prefix + k in x.flows
    ensures StepAlong(x, prefix + k) == NextFlow(prefix + k, prefix + s.flows[k].target, KindOf(s, s.flows[k].target))
  {
    FinishedFlow(p, w, x, prefix + k);
    KindInside(p, w, x, prefix, s, k);
    KindInside(p, w, x, prefix, s, s.flows[k].target);
  }

  lemma KindInside(p: Process, w: Process, x: Process, prefix: string, s: Process, id: Id)
    requires Finished(p, w, x) && Copies(p, prefix, s)
    ensures KindOf(x, prefix + id) == KindOf(s, id) && (prefix + id in x.elements <==> id in s.elements)
  {
    FinishedKind(p, w, x, prefix + id);
    TailOfPrefixed(prefix, id);
  }

  /** A sub-process as loaded: every flow an element, no made-up ids. */
  ghost predicate Plain(p: Process) { forall k | k in p.flows :: Reified(p, k) && !HasSuffix(k, SYNTH) }

  function MadeFor(flows: set<Id>): set<Id> { set f | f in flows :: Synth(f) }

  lemma MadeFlow(p: Process, w: Process, f: Id)
    requires Wired(p, w) && Plain(p) && f in p.flows
    ensures Synth(f) in Synthesized(w).flows && Synthesized(w).flows[Synth(f)].target == p.flows[f].target
    ensures Synth(f) !in p.flows
  {
    SameReified(p, w);
    SynthFlowOf(w, f);
    BaseOfSynth(f);
    assert Synth(f) in SynthIds(w, w.elements.Keys);
  }

  lemma AimedAfter(p: Process, w: Process, n: Id, f: Id)
    requires Wired(p, w) && Plain(p) && f in Aimed(p.flows, p.flows.Keys, n)
    ensures var aimed := Aimed(Synthesized(w).flows, Synthesized(w).flows.Keys, n); f in aimed && Synth(f) in aimed
    ensures Synth(f) !in Aimed(p.flows, p.flows.Keys, n)
  {
    MadeFlow(p, w, f);
    SynthKeeps(p, w, f);
  }

  lemma AimedBefore(p: Process, w: Process, n: Id, k: Id)
    requires Wired(p, w) && Plain(p) && k in Aimed(Synthesized(w).flows, Synthesized(w).flows.Keys, n)
    ensures var into := Aimed(p.flows, p.flows.Keys, n); k in into + MadeFor(into)
  {
    if k in p.flows {
      SynthKeeps(p, w, k);
    } else {
      var id := SynthOnlyAdds(p, w, k);
      assert id in Aimed(p.flows, p.flows.Keys, n);
    }
  }

  lemma AimedSynth(p: Process, w: Process, n: Id)
    requires Wired(p, w) && Plain(p)
    ensures var s, into := Synthesized(w), Aimed(p.flows, p.flows.Keys, n);
            Aimed(s.flows, s.flows.Keys, n) == into + MadeFor(into) && into !! MadeFor(into)
  {
    var s, into := Synthesized(w), Aimed(p.flows, p.flows.Keys, n);
    var aimed := Aimed(s.flows, s.flows.Keys, n);
    forall f | f in into ensures f in aimed && Synth(f) in aimed && Synth(f) !in into {
      AimedAfter(p, w, n, f);
    }
    forall k | k in aimed ensures k in into + MadeFor(into) {
      AimedBefore(p, w, n, k);
    }
    BothHalves(into, aimed);
  }

  lemma BothHalves(into: set<Id>, aimed: set<Id>)
    requires forall f | f in into :: f in aimed && Synth(f) in aimed && Synth(f) !in into
    requires forall k | k in aimed :: k in into + MadeFor(into)
    ensures aimed == into + MadeFor(into) && into !! MadeFor(into)
  {
  }

  /** The flows into `n` after the inner pass: those of the file, and the `_synth` flows after them. */
  lemma AimedTwice(p: Process, w: Process, n: Id)
    requires Wired(p, w) && Plain(p)
    ensures var s, into := Synthesized(w), Aimed(p.flows, p.flows.Keys, n);
            |Aimed(s.flows, s.flows.Keys, n)| == 2 * |into|
  {
    var into := Aimed(p.flows, p.flows.Keys, n);
    AimedSynth(p, w, n);
    CopySizes("", into);
  }

  /** No made-up flow starts at a node. */
  lemma SourcedSame(p: Process, w: Process, n: Id)
    requires Wired(p, w) && Plain(p) && !IsSequenceFlow(p, n)
    ensures Sourced(Synthesized(w).flows, Synthesized(w).flows.Keys, n) == Sourced(p.flows, p.flows.Keys, n)
  {
    var s := Synthesized(w);
    forall k ensures k in Sourced(s.flows, s.flows.Keys, n) <==> k in Sourced(p.flows, p.flows.Keys, n) {
      if k in p.flows {
        SynthKeeps(p, w, k);
      } else if k in s.flows {
        var id := SynthOnlyAdds(p, w, k);
      }
    }
  }

  lemma NodeLists(p: Process, w: Process, n: Id)
    requires Wired(p, w) && n in p.elements && !IsSequenceFlow(p, n)
    requires p.elements[n].incoming == [] && p.elements[n].outgoing == []
    ensures var el := Synthesized(w).elements[n];
            && |el.incoming| == |Aimed(p.flows, p.flows.Keys, n)|
            && |el.outgoing| == |Sourced(p.flows, p.flows.Keys, n)|
  {
    SameReified(p, w);
    SizeOfExtension([], w.elements[n].incoming, Aimed(p.flows, p.flows.Keys, n));
    SizeOfExtension([], w.elements[n].outgoing, Sourced(p.flows, p.flows.Keys, n));
  }

  lemma FinishedSizes(p: Process, w: Process, x: Process, c: Id)
    requires Finished(p, w, x) && c in p.elements && Unclosed(p, c) && !IsSequenceFlow(p, c)
    ensures |x.elements[c].incoming| == |p.elements[c].incoming| + |Aimed(p.flows, p.flows.Keys, c)|
    ensures |x.elements[c].outgoing| == |p.elements[c].outgoing| + |Sourced(p.flows, p.flows.Keys, c)|
  {
    FinishedElement(p, w, x, c);
    SameReified(p, w);
    SizeOfExtension(p.elements[c].incoming, w.elements[c].incoming, Aimed(p.flows, p.flows.Keys, c));
    SizeOfExtension(p.elements[c].outgoing, w.elements[c].outgoing, Sourced(p.flows, p.flows.Keys, c));
  }

  /** The lists of an inner node after flattening: two entries for every outgoing flow, three for
      every incoming one, and one more for the entry into the start event. `p0` and `w0` are the
      sub-process as loaded and as wired. */
  lemma ListSizes(p0: Process, w0: Process, p: Process, w: Process, x: Process, sub: Id, end: Option<Id>, n: Id)
    requires Wired(p0, w0) && Plain(p0) && n in p0.elements && !IsSequenceFlow(p0, n)
    requires p0.elements[n].incoming == [] && p0.elements[n].outgoing == []
    requires Finished(p, w, x) && Contains(p, sub, Synthesized(w0), end) && !HasPrefix(EntryOf(sub), Within(sub))
    requires Unclosed(p, Within(sub) + n)
    ensures var before, after := Synthesized(w0).elements[n], x.elements[Within(sub) + n];
            && |after.incoming| == 3 * |before.incoming| + (if n == p0.start then 1 else 0)
            && |after.outgoing| == 2 * |before.outgoing|
  {
    var s, c := Synthesized(w0), Within(sub) + n;
    KindsKept(p0, w0, n);
    assert n in s.elements && c in p.elements && p.elements[c] == s.elements[n];
    FinishedSizes(p, w, x, c);
    NodeLists(p0, w0, n);
    InsideSizes(p0, w0, p, sub, end, n);
  }

  lemma InsideSizes(p0: Process, w0: Process, p: Process, sub: Id, end: Option<Id>, n: Id)
    requires Wired(p0, w0) && Plain(p0) && !IsSequenceFlow(p0, n)
    requires Contains(p, sub, Synthesized(w0), end) && !HasPrefix(EntryOf(sub), Within(sub))
    ensures var c := Within(sub) + n;
            && |Aimed(p.flows, p.flows.Keys, c)|
               == 2 * |Aimed(p0.flows, p0.flows.Keys, n)| + (if n == p0.start then 1 else 0)
            && |Sourced(p.flows, p.flows.Keys, c)| == |Sourced(p0.flows, p0.flows.Keys, n)|
  {
    var s, prefix := Synthesized(w0), Within(sub);
    var into := Aimed(s.flows, s.flows.Keys, n);
    AimedInside(p, sub, s, end, n);
    AimedTwice(p0, w0, n);
    CopySizes(prefix, into);
    assert EntryOf(sub) !in PrefixSet(prefix, into);
    SourcedInside(p, sub, s, n);
    SourcedSame(p0, w0, n);
    CopySizes(prefix, Sourced(s.flows, s.flows.Keys, n));
  }

  /** Does a gateway wait inside a sub-process? `into` and `out` are the sizes its lists had before
      flattening, `extra` is one for the start event. */
  predicate WaitsInside(direction: Direction, into: nat, out: nat, extra: nat) {
    direction == Converging || (direction in {Unspecified, Mixed} && out == 0 && 3 * into + extra > 1)
  }

  /** A parallel gateway inside a sub-process waits for three arrivals per incoming flow if it is
      converging, or has no direction and no outgoing flow. With an outgoing flow and no direction it
      never waits: flattening doubles its list, which makes it a fork. */
  lemma InnerJoins(p0: Process, w0: Process, p: Process, w: Process, x: Process, sub: Id, end: Option<Id>, n: Id,
                   store: seq<FlowRecord>)
    requires Wired(p0, w0) && Plain(p0) && n in p0.elements && p0.elements[n].kind == ParallelGateway
    requires p0.elements[n].incoming == [] && p0.elements[n].outgoing == []
    requires Finished(p, w, x) && Contains(p, sub, Synthesized(w0), end) && !HasPrefix(EntryOf(sub), Within(sub))
    requires Unclosed(p, Within(sub) + n)
    ensures var before, c := Synthesized(w0).elements[n], Within(sub) + n;
            var extra := if n == p0.start then 1 else 0;
            && ParallelJoin.Decision(x, c, store) in {Wait, Route}
            && (ParallelJoin.Decision(x, c, store) == Wait <==>
                  WaitsInside(before.direction, |before.incoming|, |before.outgoing|, extra)
                  && ArrivalsAt(store, c) < 3 * |before.incoming| + extra)
  {
    var before, c := Synthesized(w0).elements[n], Within(sub) + n;
    ListSizes(p0, w0, p, w, x, sub, end, n);
    DirectionKept(p0, w0, p, w, x, sub, n);
    Verdict(x, c, |before.incoming|, |before.outgoing|, if n == p0.start then 1 else 0, store);
  }

  lemma Verdict(x: Process, c: Id, into: nat, out: nat, extra: nat, store: seq<FlowRecord>)
    requires c in x.elements && |x.elements[c].incoming| == 3 * into + extra && |x.elements[c].outgoing| == 2 * out
    ensures ParallelJoin.Decision(x, c, store) in {Wait, Route}
    ensures ParallelJoin.Decision(x, c, store) == Wait <==>
              WaitsInside(x.elements[c].direction, into, out, extra) && ArrivalsAt(store, c) < 3 * into + extra
  {
  }

  lemma DirectionKept(p0: Process, w0: Process, p: Process, w: Process, x: Process, sub: Id, n: Id)
    requires Wired(p0, w0) && n in p0.elements && Finished(p, w, x) && Copies(p, Within(sub), Synthesized(w0))
    requires Unclosed(p, Within(sub) + n)
    ensures Synthesized(w0).elements[n].direction == p0.elements[n].direction
    ensures Within(sub) + n in x.elements && x.elements[Within(sub) + n].direction == p0.elements[n].direction
  {
    var c := Within(sub) + n;
    assert n in Synthesized(w0).elements && c in p.elements;
    FinishedElement(p, w, x, c);
    assert Grown(p0.flows, p0.flows.Keys, n, p0.elements[n], w0.elements[n]);
    assert Grown(p.flows, p.flows.Keys, c, p.elements[c], w.elements[c]);
  }
}

/** Closing end events in general: one that has flows of its own inside the sub-process leads along those and
    out of it. */
module ClosingEnds {
  import opened Bpmn
  import opened Routing
  import opened Strings
  import opened Prefixing
  import opened Wiring
  import opened Reification
  import opened SubProcesses
  import opened Embedding
  import opened Documents
  import opened DocumentTheorems
  import opened ParsedFiles
  import opened NestedCalls

  predicate Plain(id: Id) { id != "" && ',' !in id }

  /** No id in the file is empty or holds a comma. */
  predicate PlainIds(doc: seq<FlowElement>) {
    forall i | 0 <= i < |doc| ::
      Plain(doc[i].id)
      && (HasInner(doc[i]) ==> forall j | 0 <= j < |doc[i].inner.value| :: Plain(doc[i].inner.value[j].id))
  }

  /** `e` closes the sub-process `doc[k]` in a parse of the file. */
  ghost predicate ClosesSub(doc: seq<FlowElement>, subs: seq<SubParse>, w: Process, x: Process, k: nat, e: Id) {
    && WellFormed(doc) && ParsedAs(doc, subs, w, x) && k < |doc| && HasInner(doc[k]) && subs[k].end == Some(e)
    && PlainIds(doc)
  }

  /** The process before the exits were routed, as far as `c` and the flows go. */
  function Unrouted(w: Process, x: Process, c: Id): Process
    requires c in w.elements
  {
    Process(x.start, x.elements[c := Synthesized(w).elements[c]], x.flows)
  }

  lemma UnroutedKinds(p: Process, w: Process, x: Process, c: Id, id: Id)
    requires Finished(p, w, x) && c in p.elements
    ensures KindOf(Unrouted(w, x, c), id) == KindOf(x, id) == KindOf(p, id)
  {
    FinishedKind(p, w, x, id);
    KindsKept(p, w, c);
  }

  /** Before that the end led to the copies of where it led inside. */
  lemma UnroutedInside(p: Process, w: Process, x: Process, sub: Id, s: Process, end: Option<Id>, e: Id)
    requires Established(p, w, x, sub, s, end) && e in s.elements
    ensures var c := Within(sub) + e;
            && c in p.elements && Adjacent(Unrouted(w, x, c), c)
            && Successors(Unrouted(w, x, c), c, []) == PrefixSet(Within(sub), Successors(s, e, []))
  {
    var prefix, c := Within(sub), Within(sub) + e;
    var u := Unrouted(w, x, c);
    forall f | f in p.elements[c].outgoing ensures f !in Synthesized(w).flows {
      ListedInside(p, w, x, s, e, f);
    }
    AdjacentAfterSynth(p, w, c);
    forall f | f in s.flows ensures FlowCopied(s, u, prefix, f) {
      CopyFinished(p, w, x, prefix, s, f);
      UnroutedKinds(p, w, x, c, prefix + f);
    }
    forall g | g in u.flows && u.flows[g].source == c ensures HasPrefix(g, prefix) && Tail(prefix, g) in s.flows {
      OnlyCopiesInside(p, w, x, sub, s, e, g);
    }
    assert PrefixAll(prefix, []) == [];
    FlowGraphEmbeds(s, u, prefix, e, []);
  }

  lemma SameSteps(x: Process, u: Process, f: Id)
    requires u.flows == x.flows && f in x.flows && forall id :: KindOf(u, id) == KindOf(x, id)
    ensures StepAlong(u, f) == StepAlong(x, f)
  {
    assert KindOf(u, f) == KindOf(x, f);
  }

  /** An element with `own` and `exits` for its list, all let through, leads where either leads. */
  lemma OwnAndExits(x: Process, u: Process, c: Id, own: seq<Id>, exits: seq<Id>, out: set<Id>, y: Id)
    requires c in x.elements && c in u.elements && x.elements[c].outgoing == own + exits != []
    requires u.elements[c].outgoing == own && u.flows == x.flows && forall id :: KindOf(u, id) == KindOf(x, id)
    requires forall f :: f in exits <==> f in out
    requires forall f | f in out :: f in x.flows && StepAlong(x, f).element == f
    ensures y in Successors(x, c, x.elements[c].outgoing) <==> y in Successors(u, c, []) || y in out
  {
    SuccessorsAre(x, c, own + exits, y);
    SuccessorsAre(u, c, [], y);
    forall f | f in x.flows ensures StepAlong(u, f) == StepAlong(x, f) {
      SameSteps(x, u, f);
    }
    if y in Successors(u, c, []) {
      var f :| f in own && Selected(u, [], f) && StepAlong(u, f).element == y;
      assert f in own + exits && Selected(x, own + exits, f);
    }
    if y in out {
      assert y in own + exits && Selected(x, own + exits, y);
    }
  }

  lemma ExitsStep(doc: seq<FlowElement>, subs: seq<SubParse>, w: Process, x: Process, k: nat, f: Id)
    requires WellFormed(doc) && ParsedAs(doc, subs, w, x) && k < |doc| && HasInner(doc[k])
    requires f in SequencesFrom(doc, doc[k].id)
    ensures f in x.flows && StepAlong(x, f).element == f
  {
    FileContains(doc, subs, k);
    FinishedFrom(doc, subs, w, x, doc[k].id, f);
  }

  lemma InnerFlowPlain(items: seq<FlowElement>, f: Id)
    requires InnerFlowName(items, f) && forall j | 0 <= j < |items| :: Plain(items[j].id)
    ensures Plain(f)
  {
    var j :| 0 <= j < |items| && items[j].Sequence? && (f == items[j].id || f == Synth(items[j].id));
    assert ',' !in SYNTH;
  }

  lemma PlainWithin(sub: Id, f: Id)
    requires Plain(sub) && Plain(f)
    ensures Plain(Within(sub) + f)
  {
  }

  /** The flows of its own that the end lists survive being joined and split. */
  lemma OwnPlain(doc: seq<FlowElement>, subs: seq<SubParse>, w: Process, x: Process, k: nat, e: Id, f: Id)
    requires ClosesSub(doc, subs, w, x, k, e)
    requires Within(doc[k].id) + e in w.elements && f in Synthesized(w).elements[Within(doc[k].id) + e].outgoing
    ensures Plain(f)
  {
    var p, s, c := Assembled(doc, subs), subs[k].inner, Within(doc[k].id) + e;
    FileEstablishes(doc, subs, w, x, k);
    EachInner(doc, subs, k);
    SynthesizedOutgoing(p, w, c, f);
    if f in p.elements[c].outgoing {
      InnerFlowPlain(doc[k].inner.value, f);
    } else {
      SynthKeeps(p, w, f);
      OnlyCopiesInside(p, w, x, doc[k].id, s, e, f);
      PrefixedTail(Within(doc[k].id), f);
      InnerFlowPlain(doc[k].inner.value, Tail(Within(doc[k].id), f));
      PlainWithin(doc[k].id, Tail(Within(doc[k].id), f));
    }
  }

  lemma ClosingLists(doc: seq<FlowElement>, subs: seq<SubParse>, w: Process, x: Process, k: nat, e: Id)
    requires ClosesSub(doc, subs, w, x, k, e)
    ensures Within(doc[k].id) + e in w.elements && doc[k].id in w.elements && Within(doc[k].id) + e in x.elements
    ensures var c, exits := Within(doc[k].id) + e, ExitsOf(Synthesized(w).elements[doc[k].id].outgoing);
            && x.elements[c].outgoing == Synthesized(w).elements[c].outgoing + exits
            && x.elements[c].exitFlows == Join(x.elements[c].outgoing)
            && forall f :: f in exits <==> f in SequencesFrom(doc, doc[k].id)
  {
    FileEstablishes(doc, subs, w, x, k);
    assert Closes(Assembled(doc, subs), doc[k].id, Within(doc[k].id) + e);
    ClosingElement(Assembled(doc, subs), w, x, doc[k].id, Within(doc[k].id) + e);
    ExitsAreSequences(doc, subs, w, x, k);
  }

  lemma ListPlain(doc: seq<FlowElement>, subs: seq<SubParse>, w: Process, x: Process, k: nat, e: Id)
    requires ClosesSub(doc, subs, w, x, k, e)
    ensures Within(doc[k].id) + e in x.elements
    ensures forall f | f in x.elements[Within(doc[k].id) + e].outgoing :: Plain(f)
  {
    ClosingLists(doc, subs, w, x, k, e);
    var c := Within(doc[k].id) + e;
    forall f | f in x.elements[c].outgoing ensures Plain(f) {
      if f in Synthesized(w).elements[c].outgoing {
        OwnPlain(doc, subs, w, x, k, e, f);
      }
    }
  }

  lemma JoinedAndSplit(list: seq<Id>)
    requires forall f | f in list :: Plain(f)
    ensures if list == [] then Join(list) == "" else Join(list) != "" && Split(Join(list)) == list
  {
    JoinEmpty(list);
    if list != [] {
      assert list[0] in list;
      SplitJoin(list);
    }
  }

  /** In every well-formed file whose ids are plain, the end event that closes a sub-process leads, by its exit
      string, to the copies of where it leads inside and to the sequence flows that leave the sub-process. */
  lemma ClosingEndLeadsOn(doc: seq<FlowElement>, subs: seq<SubParse>, w: Process, x: Process, k: nat, e: Id)
    requires ClosesSub(doc, subs, w, x, k, e)
    ensures var c := Within(doc[k].id) + e;
            && c in x.elements
            && LeadsOnTo(x, c) == PrefixSet(Within(doc[k].id), Successors(subs[k].inner, e, []))
                                  + SequencesFrom(doc, doc[k].id)
  {
    var sub, c := doc[k].id, Within(doc[k].id) + e;
    FileEstablishes(doc, subs, w, x, k);
    ClosingLists(doc, subs, w, x, k, e);
    ListPlain(doc, subs, w, x, k, e);
    JoinedAndSplit(x.elements[c].outgoing);
    UnroutedInside(Assembled(doc, subs), w, x, sub, subs[k].inner, subs[k].end, e);
    LeadsBoth(doc, subs, w, x, k, e);
  }

  lemma LeadsBoth(doc: seq<FlowElement>, subs: seq<SubParse>, w: Process, x: Process, k: nat, e: Id)
    requires ClosesSub(doc, subs, w, x, k, e)
    requires Within(doc[k].id) + e in x.elements && Within(doc[k].id) + e in w.elements
    requires JoinsBack(x.elements[Within(doc[k].id) + e])
    ensures var c := Within(doc[k].id) + e;
            LeadsOnTo(x, c) == Successors(Unrouted(w, x, c), c, []) + SequencesFrom(doc, doc[k].id)
  {
    var c, out := Within(doc[k].id) + e, SequencesFrom(doc, doc[k].id);
    ClosingLists(doc, subs, w, x, k, e);
    FileFinished(doc, subs, w, x);
    forall id ensures KindOf(Unrouted(w, x, c), id) == KindOf(x, id) {
      UnroutedKinds(Assembled(doc, subs), w, x, c, id);
    }
    forall f | f in out ensures f in x.flows && StepAlong(x, f).element == f {
      ExitsStep(doc, subs, w, x, k, f);
    }
    BothSets(x, Unrouted(w, x, c), c, Synthesized(w).elements[c].outgoing,
             ExitsOf(Synthesized(w).elements[doc[k].id].outgoing), out);
  }

  /** The exit string gives the list back. */
  predicate JoinsBack(el: Element) {
    && el.exitFlows == Join(el.outgoing)
    && if el.outgoing == [] then el.exitFlows == "" else el.exitFlows != "" && Split(el.exitFlows) == el.outgoing
  }

  lemma BothSets(x: Process, u: Process, c: Id, own: seq<Id>, exits: seq<Id>, out: set<Id>)
    requires c in x.elements && c in u.elements && x.elements[c].outgoing == own + exits && JoinsBack(x.elements[c])
    requires u.elements[c].outgoing == own && u.flows == x.flows && forall id :: KindOf(u, id) == KindOf(x, id)
    requires forall f :: f in exits <==> f in out
    requires forall f | f in out :: f in x.flows && StepAlong(x, f).element == f
    ensures LeadsOnTo(x, c) == Successors(u, c, []) + out
  {
    if own + exits == [] {
      NothingListed(u, c, exits, out);
    } else {
      forall y ensures y in LeadsOnTo(x, c) <==> y in Successors(u, c, []) || y in out {
        OwnAndExits(x, u, c, own, exits, out, y);
      }
    }
  }

  lemma NothingListed(u: Process, c: Id, exits: seq<Id>, out: set<Id>)
    requires c in u.elements && u.elements[c].outgoing == [] && exits == [] && forall f :: f in exits <==> f in out
    ensures Successors(u, c, []) == {} && out == {}
  {
  }
}

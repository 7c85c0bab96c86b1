/** Calling a process that holds a sub-process: its exits do not survive the call. */
module NestedCalls {
  import opened Bpmn
  import opened Routing
  import opened Strings
  import opened Prefixing
  import opened Wiring
  import opened Reification
  import opened SubProcesses
  import opened Embedding
  import opened Documents
  import opened DocumentTheorems
  import opened ParsedFiles
  import opened InnerTokens
  import opened CallActivities

  /** Where an end event's token goes on to: along the exits in its string, if it has one. */
  ghost function LeadsOnTo(p: Process, c: Id): set<Id>
    requires c in p.elements
  {
    if p.elements[c].exitFlows == "" then {} else Successors(p, c, Split(p.elements[c].exitFlows))
  }

  /** The closing end event `e` of the sub-process `doc[k]`, in a parse of the file. */
  ghost predicate ClosingEnd(doc: seq<FlowElement>, subs: seq<SubParse>, w: Process, x: Process, k: nat, e: Id) {
    && WellFormed(doc) && ParsedAs(doc, subs, w, x) && k < |doc| && HasInner(doc[k])
    && subs[k].end == Some(e) && EndIsLast(subs[k].inner, e)
    && forall f | f in SequencesFrom(doc, doc[k].id) :: f != "" && ',' !in f
  }

  lemma ExitsListed(doc: seq<FlowElement>, subs: seq<SubParse>, w: Process, x: Process, k: nat, e: Id)
    requires ClosingEnd(doc, subs, w, x, k, e)
    ensures var c := Within(doc[k].id) + e;
            && c in x.elements && x.elements[c].exitFlows == Join(x.elements[c].outgoing)
            && forall f :: f in x.elements[c].outgoing <==> f in SequencesFrom(doc, doc[k].id)
  {
    ExitsAreSequences(doc, subs, w, x, k);
    ExitReady(doc, subs, w, x, k, e);
  }

  /** The closing end leads out along the sequence flows of the sub-process, and nowhere if it has none. */
  lemma ClosingEndLeads(doc: seq<FlowElement>, subs: seq<SubParse>, w: Process, x: Process, k: nat, e: Id)
    requires ClosingEnd(doc, subs, w, x, k, e)
    ensures var c := Within(doc[k].id) + e;
            c in x.elements && LeadsOnTo(x, c) == SequencesFrom(doc, doc[k].id)
  {
    ExitsListed(doc, subs, w, x, k, e);
    if SequencesFrom(doc, doc[k].id) == {} {
      NoneListed(x.elements[Within(doc[k].id) + e].outgoing);
    } else {
      SubProcessExit(doc, subs, w, x, k, e);
    }
  }

  lemma NoneListed(exits: seq<Id>)
    requires forall f :: f !in exits
    ensures Join(exits) == ""
  {
    FirstIsListed(exits);
  }

  lemma FirstIsListed(ids: seq<Id>)
    ensures ids != [] ==> ids[0] in ids
  {
  }

  lemma NoneRenamed(x: Process, c: Id, prefix: string, g: Id)
    requires c in x.elements && x.elements[c].exitFlows == Join(x.elements[c].outgoing)
    requires !Dotless(prefix) && forall f | f in x.elements[c].outgoing :: Dotless(f) && ',' !in f
    ensures prefix + g !in Split(x.elements[c].exitFlows)
  {
    var exits := x.elements[c].outgoing;
    if exits != [] {
      SplitJoin(exits);
    }
    assert !Dotless(prefix + g);
  }

  lemma SequencesDotless(doc: seq<FlowElement>, n: Id, f: Id)
    requires DistinctIds(doc) && f in SequencesFrom(doc, n)
    ensures Dotless(f)
  {
  }

  lemma PrefixHasDot(caller: Id)
    ensures !Dotless(CallPrefix(caller))
  {
    assert CallPrefix(caller)[|CallPrefix(caller)| - 1] == '.';
  }

  /** Whatever well-formed file is called, and however it was parsed: the closing end event of a
      sub-process in it, unless the call chose it to return from, led on to the sequence flows of the
      sub-process, and its copy leads nowhere. Nothing is lost if and only if there are none. */
  lemma NestedExitStops(doc: seq<FlowElement>, subs: seq<SubParse>, w: Process, x: Process, k: nat, e: Id,
                        p: Process, caller: Id, end: Option<Id>)
    requires ClosingEnd(doc, subs, w, x, k, e)
    requires FreshCall(p, caller, x) && FirstEnd(x, end) && end != Some(Within(doc[k].id) + e)
    ensures var c, q, prefix := Within(doc[k].id) + e, Inlined(p, caller, x, end), CallPrefix(caller);
            && c in x.elements && LeadsOnTo(x, c) == SequencesFrom(doc, doc[k].id)
            && prefix + c in q.elements && LeadsOnTo(q, prefix + c) == {}
            && (LeadsOnTo(q, prefix + c) == PrefixSet(prefix, LeadsOnTo(x, c)) <==> SequencesFrom(doc, doc[k].id) == {})
  {
    var c, prefix := Within(doc[k].id) + e, CallPrefix(caller);
    ClosingEndLeads(doc, subs, w, x, k, e);
    ExitsListed(doc, subs, w, x, k, e);
    NestedExitIsLost(p, caller, x, end, c);
    PrefixHasDot(caller);
    forall f | f in x.elements[c].outgoing ensures Dotless(f) {
      SequencesDotless(doc, doc[k].id, f);
    }
    forall g ensures !PassesRenamed(x, c, prefix, Split(x.elements[c].exitFlows), g) {
      NoneRenamed(x, c, prefix, g);
    }
    EmptyCopy(prefix, SequencesFrom(doc, doc[k].id));
  }

  lemma EmptyCopy(prefix: string, ids: set<Id>)
    ensures PrefixSet(prefix, ids) == {} <==> ids == {}
  {
    if id :| id in ids {
      assert prefix + id in PrefixSet(prefix, ids);
    }
  }

  /** A file to call: start, sub-process, end; and inside the sub-process start and end. */
  const SmallInner: seq<FlowElement> :=
    [Node("i", Element(StartEvent, [], []), true), Sequence("h", Flow("i", "e")),
     Node("e", Element(EndEvent, [], []), false)]

  const SmallFile: seq<FlowElement> :=
    [Node("a", Element(StartEvent, [], []), true), Sequence("in", Flow("a", "s")), Sub("s", Some(SmallInner)),
     Sequence("out", Flow("s", "z")), Node("z", Element(EndEvent, [], []), false)]

  lemma SmallIdsFit()
    ensures DistinctIds(SmallInner) && DistinctIds(SmallFile)
  {
  }

  lemma SmallIsWellFormed()
    ensures WellFormed(SmallFile)
  {
    SmallIdsFit();
  }

  lemma SmallExits()
    ensures SequencesFrom(SmallFile, "s") == {"out"}
  {
    assert SmallFile[3].id == "out";
  }

  lemma SmallLoaded()
    ensures var p0 := Loaded(SmallInner);
            && p0.elements == map["i" := Unlinked(Element(StartEvent, [], [])), "h" := FlowElementOf(),
                                  "e" := Unlinked(Element(EndEvent, [], []))]
            && p0.flows == map["h" := Flow("i", "e")]
  {
    var items := SmallInner;
    assert items[..2][..1] == items[..1] && items[..1][..0] == [];
    assert Loaded(items[..1]) == Added(EmptyProcess, items[0]);
    assert Loaded(items[..2]) == Added(Loaded(items[..1]), items[1]);
    assert Loaded(items) == Added(Loaded(items[..2]), items[2]);
  }

  /** The sub-process has the end event `e`, no other, and nothing leaves it. */
  ghost predicate EndsAlone(p0: Process, e: Id) {
    && (forall id :: KindOf(p0, id) == EndEvent <==> id == e)
    && e in p0.elements && p0.elements[e].outgoing == []
    && forall f | f in p0.flows :: p0.flows[f].source != e
  }

  lemma NothingListed(p0: Process, w0: Process, e: Id)
    requires Wired(p0, w0) && e in p0.elements && p0.elements[e].kind == EndEvent && p0.elements[e].outgoing == []
    requires forall f | f in p0.flows :: p0.flows[f].source != e
    ensures EndIsLast(Synthesized(w0), e)
  {
    var out := Synthesized(w0).elements[e].outgoing;
    if out != [] {
      SynthesizedOutgoing(p0, w0, e, out[0]);
    }
  }

  lemma AloneIsChosen(p0: Process, s: Process, e: Id, end: Option<Id>)
    requires FirstEnd(s, end) && EndsAlone(p0, e) && forall id :: KindOf(s, id) == KindOf(p0, id)
    ensures end == Some(e)
  {
    assert KindOf(s, e) == EndEvent;
    if end.Some? {
      assert KindOf(s, end.value) == EndEvent;
    }
  }

  lemma ChosenInside(items: seq<FlowElement>, sub: SubParse, e: Id)
    requires DistinctIds(items) && InnerParse(items, sub.inner) && FirstEnd(sub.inner, sub.end)
    requires EndsAlone(Loaded(items), e)
    ensures sub.end == Some(e) && EndIsLast(sub.inner, e)
  {
    var w0 := InnerWiring(items, sub.inner);
    forall id ensures KindOf(sub.inner, id) == KindOf(Loaded(items), id) {
      KindsKept(Loaded(items), w0, id);
    }
    AloneIsChosen(Loaded(items), sub.inner, e, sub.end);
    assert KindOf(Loaded(items), e) == EndEvent;
    NothingListed(Loaded(items), w0, e);
  }

  lemma ClosesAlone(doc: seq<FlowElement>, subs: seq<SubParse>, w: Process, x: Process, k: nat, e: Id)
    requires WellFormed(doc) && ParsedAs(doc, subs, w, x) && k < |doc| && HasInner(doc[k])
    requires EndsAlone(Loaded(doc[k].inner.value), e)
    requires forall f | f in SequencesFrom(doc, doc[k].id) :: f != "" && ',' !in f
    ensures ClosingEnd(doc, subs, w, x, k, e)
  {
    assert SubParsed(doc[k], subs[k]);
    ChosenInside(doc[k].inner.value, subs[k], e);
  }

  /** A flow id the parser did not make up is one of the file or of its sub-processes. */
  lemma NotInParse(doc: seq<FlowElement>, subs: seq<SubParse>, w: Process, x: Process, f: Id)
    requires WellFormed(doc) && ParsedAs(doc, subs, w, x) && XmlId(f) && !FromFlow(doc, f) && !InnerListed(doc, f)
    ensures f !in x.flows && forall y | y in x.elements :: f !in x.elements[y].outgoing
  {
    var p := Assembled(doc, subs);
    FileFinished(doc, subs, w, x);
    NotAFlowOf(doc, subs, w, x, f);
    forall y | y in x.elements ensures f !in x.elements[y].outgoing {
      if f in x.elements[y].outgoing {
        FinishedKind(p, w, x, y);
        var at := ListedAt(p, w, x, y, f);
        SynthesizedOutgoing(p, w, at, f);
        BaseOfSynth(at);
        if f in p.elements[at].outgoing {
          ListsFromInside(doc, subs, at, f);
        } else {
          SynthKeeps(p, w, f);
        }
      }
    }
  }

  lemma NotAFlowOf(doc: seq<FlowElement>, subs: seq<SubParse>, w: Process, x: Process, f: Id)
    requires WellFormed(doc) && ParsedAs(doc, subs, w, x) && XmlId(f) && !FromFlow(doc, f)
    ensures f !in x.flows
  {
    FileFinished(doc, subs, w, x);
    if f in Assembled(doc, subs).flows {
      FlowOrigin(doc, subs, f);
    } else if f in x.flows {
      var id := SynthOnlyAdds(Assembled(doc, subs), w, f);
      BaseOfSynth(id);
    }
  }

  /** A process that calls the file and then ends. */
  const Caller := Process("c", map["c" := Element(ElementType.CallActivity, [], ["f"], called := "small"),
                                   "d" := Element(EndEvent, ["f"], [])], map["f" := Flow("c", "d")])

  lemma NoEntryId()
    ensures XmlId("entry") && !FromFlow(SmallFile, "entry") && !InnerListed(SmallFile, "entry")
  {
    BaseOfSynth("h");
  }

  lemma CallerFits(x: Process)
    requires "entry" !in x.flows && forall y | y in x.elements :: "entry" !in x.elements[y].outgoing
    ensures FreshCall(Caller, "c", x)
  {
  }

  lemma EndAt(doc: seq<FlowElement>, subs: seq<SubParse>, w: Process, x: Process, i: nat)
    requires WellFormed(doc) && ParsedAs(doc, subs, w, x) && i < |doc| && doc[i].Node?
    requires doc[i].element.kind == EndEvent
    ensures FirstEnd(x, Some(doc[i].id))
  {
    FileFinished(doc, subs, w, x);
    ItemKept(doc, subs, i);
    FinishedKind(Assembled(doc, subs), w, x, doc[i].id);
  }

  lemma SmallCallFits(subs: seq<SubParse>, w: Process, x: Process)
    requires ParsedAs(SmallFile, subs, w, x)
    ensures FreshCall(Caller, "c", x)
  {
    SmallIsWellFormed();
    NoEntryId();
    NotInParse(SmallFile, subs, w, x, "entry");
    CallerFits(x);
  }

  lemma SmallEndsAlone()
    ensures EndsAlone(Loaded(SmallInner), "e")
  {
    SmallLoaded();
  }

  lemma SmallSub()
    ensures |SmallFile| == 5 && HasInner(SmallFile[2]) && SmallFile[2].id == "s"
    ensures SmallFile[2].inner.value == SmallInner
    ensures SmallFile[4].Node? && SmallFile[4].id == "z" && SmallFile[4].element.kind == EndEvent
    ensures Within("s") + "e" == "s.e"
  {
  }

  lemma SmallFits()
    ensures 2 < |SmallFile| && HasInner(SmallFile[2]) && EndsAlone(Loaded(SmallFile[2].inner.value), "e")
    ensures forall f | f in SequencesFrom(SmallFile, SmallFile[2].id) :: f != "" && ',' !in f
  {
    SmallExits();
    SmallSub();
    SmallEndsAlone();
  }

  lemma SmallClosing(subs: seq<SubParse>, w: Process, x: Process)
    requires ParsedAs(SmallFile, subs, w, x)
    ensures ClosingEnd(SmallFile, subs, w, x, 2, "e")
  {
    SmallIsWellFormed();
    SmallFits();
    ClosesAlone(SmallFile, subs, w, x, 2, "e");
  }

  lemma SmallEnd(subs: seq<SubParse>, w: Process, x: Process)
    requires ParsedAs(SmallFile, subs, w, x)
    ensures FirstEnd(x, Some("z"))
  {
    SmallIsWellFormed();
    SmallSub();
    EndAt(SmallFile, subs, w, x, 4);
  }

  /** That caller and that file lose the token, for every parse of the file: the call returns from its end
      "z", and the sub-process never leads on to it. */
  lemma SmallCallStops(subs: seq<SubParse>, w: Process, x: Process)
    requires ParsedAs(SmallFile, subs, w, x)
    ensures FreshCall(Caller, "c", x) && FirstEnd(x, Some("z"))
    ensures var q, copy := Inlined(Caller, "c", x, Some("z")), CallPrefix("c") + "s.e";
            && "s.e" in x.elements && LeadsOnTo(x, "s.e") == {"out"}
            && copy in q.elements && LeadsOnTo(q, copy) == {}
  {
    SmallClosing(subs, w, x);
    SmallEnd(subs, w, x);
    SmallSub();
    SmallExits();
    SmallCallFits(subs, w, x);
    NestedExitStops(SmallFile, subs, w, x, 2, "e", Caller, "c", Some("z"));
  }
}

/** Parse: from the decoded flow elements of a file to the process the engine runs. */
module Documents {
  import opened Bpmn
  import opened Routing
  import opened Strings
  import opened Prefixing
  import opened Wiring
  import opened Reification
  import opened SubProcesses
  import opened Embedding

  const MAX_ELEMENTS: nat := 500
  const MAX_INNER: nat := 100

  /** A decoded child of the process, or of a sub-process. `inner` is `None` when the sub-process
      holds no readable XML. */
  datatype FlowElement =
    | Node(id: Id, element: Element, isStart: bool)
    | Sequence(id: Id, flow: Flow)
    | Sub(id: Id, inner: Option<seq<FlowElement>>)

  const EmptyProcess := Process("", map[], map[])

  /** What the element parsers leave empty. */
  function Unlinked(el: Element): Element {
    el.(incoming := [], outgoing := [], exitFlows := "", innerEnd := "")
  }

  function FlowElementOf(): Element { Element(SequenceFlow, [], []) }

  /** Nodes and sequence flows; a sub-process inside a sub-process is skipped. */
  function Added(p: Process, item: FlowElement): Process {
    match item
    case Node(id, el, isStart) =>
      Process(if isStart && p.start == "" then id else p.start, p.elements[id := Unlinked(el)], p.flows)
    case Sequence(id, flow) => Process(p.start, p.elements[id := FlowElementOf()], p.flows[id := flow])
    case Sub(_, _) => p
  }

  function Loaded(items: seq<FlowElement>): Process {
    if items == [] then EmptyProcess else Added(Loaded(items[..|items| - 1]), items[|items| - 1])
  }

  ghost predicate InnerParse(items: seq<FlowElement>, s: Process) {
    NoClash(Loaded(items)) ==> exists w :: Wired(Loaded(items), w) && s == Synthesized(w)
  }

  method ParseSubProcess(items: seq<FlowElement>) returns (s: Process)
    ensures InnerParse(items, s)
  {
    var p := EmptyProcess;
    for i := 0 to |items|
      invariant p == Loaded(items[..i])
    {
      assert items[..i + 1][..i] == items[..i];
      match items[i] {
        case Node(id, el, isStart) =>
          p := Process(if isStart && p.start == "" then id else p.start, p.elements[id := Unlinked(el)], p.flows);
        case Sequence(id, flow) =>
          p := Process(p.start, p.elements[id := FlowElementOf()], p.flows[id := flow]);
        case Sub(_, _) =>
      }
    }
    assert items[..|items|] == items;
    var w := WireFlows(p);
    SameReified(p, w);
    s := SynthesizeFlows(w);
  }

  predicate HasInner(item: FlowElement) { item.Sub? && item.inner.Some? && |item.inner.value| <= MAX_INNER }

  /** A sub-process parsed, and the end event its flattening chose. */
  datatype SubParse = SubParse(inner: Process, end: Option<Id>)

  function AddedOuter(p: Process, item: FlowElement, sub: SubParse): Process {
    if HasInner(item) then Flattened(p, item.id, sub.inner, sub.end)
    else if item.Sub? then Process(p.start, p.elements[item.id := Element(SubProcess, [], [])], p.flows)
    else Added(p, item)
  }

  function Assembled(doc: seq<FlowElement>, subs: seq<SubParse>): Process
    requires |subs| == |doc|
  {
    if doc == [] then EmptyProcess
    else
      var n := |doc| - 1;
      AddedOuter(Assembled(doc[..n], subs[..n]), doc[n], subs[n])
  }

  ghost predicate SubParsed(item: FlowElement, sub: SubParse) {
    HasInner(item) ==> InnerParse(item.inner.value, sub.inner) && FirstEnd(sub.inner, sub.end)
  }

  ghost predicate SubsParsed(doc: seq<FlowElement>, subs: seq<SubParse>) {
    |subs| == |doc| && forall i | 0 <= i < |doc| :: SubParsed(doc[i], subs[i])
  }

  /** `x` is a parse of `doc`, for some order of the maps visited on the way. */
  ghost predicate ParsedAs(doc: seq<FlowElement>, subs: seq<SubParse>, w: Process, x: Process) {
    && SubsParsed(doc, subs)
    && Wired(Assembled(doc, subs), w)
    && (NoClash(w) && OneCloser(Synthesized(w)) ==> ExitsRouted(Synthesized(w), x))
  }

  /** One child of the process. */
  method AddOuter(p: Process, item: FlowElement) returns (q: Process, ghost sub: SubParse)
    ensures SubParsed(item, sub) && q == AddedOuter(p, item, sub)
  {
    sub := SubParse(EmptyProcess, None);
    if HasInner(item) {
      var s := ParseSubProcess(item.inner.value);
      var end;
      q, end := Flatten(p, item.id, s);
      sub := SubParse(s, end);
    } else if item.Sub? {
      q := Process(p.start, p.elements[item.id := Element(SubProcess, [], [])], p.flows);
    } else {
      q := Added(p, item);
    }
  }

  method Parse(doc: seq<FlowElement>) returns (result: Option<Process>, ghost subs: seq<SubParse>, ghost w: Process)
    ensures result.None? <==> |doc| > 500
    ensures result.Some? ==> ParsedAs(doc, subs, w, result.value)
  {
    subs, w := [], EmptyProcess;
    if |doc| > MAX_ELEMENTS {
      return None, subs, w;
    }
    var p := EmptyProcess;
    for i := 0 to |doc|
      invariant SubsParsed(doc[..i], subs)
      invariant p == Assembled(doc[..i], subs)
    {
      assert doc[..i + 1][..i] == doc[..i];
      ghost var sub;
      p, sub := AddOuter(p, doc[i]);
      assert (subs + [sub])[..i] == subs;
      subs := subs + [sub];
    }
    assert doc[..|doc|] == doc;
    var wired := WireFlows(p);
    w := wired;
    var q := SynthesizeFlows(wired);
    var x := RouteExits(q);
    result := Some(x);
  }

  predicate Dotless(id: Id) { '.' !in id }

  predicate XmlId(id: Id) { Dotless(id) && !HasSuffix(id, SYNTH) && !HasSuffix(id, ENTRY) }

  ghost predicate DistinctIds(items: seq<FlowElement>) {
    && (forall i | 0 <= i < |items| :: XmlId(items[i].id))
    && forall i, j | 0 <= i < j < |items| :: items[i].id != items[j].id
  }

  /** Ids are unique in the whole file, hold no dot and none of the made-up suffixes, and flows of the
      process refer to ids without dots. */
  ghost predicate WellFormed(doc: seq<FlowElement>) {
    && DistinctIds(doc)
    && (forall i | 0 <= i < |doc| && doc[i].Sequence? :: Dotless(doc[i].flow.source) && Dotless(doc[i].flow.target))
    && (forall i | 0 <= i < |doc| && HasInner(doc[i]) :: DistinctIds(doc[i].inner.value))
    && (forall i, j, k | 0 <= i < |doc| && HasInner(doc[i]) && 0 <= j < |doc[i].inner.value| && 0 <= k < |doc| ::
          doc[i].inner.value[j].id != doc[k].id)
  }
}

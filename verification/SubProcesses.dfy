/** Flattening a sub-process into its process, and routing its end event back out. */
module SubProcesses {
  import opened Bpmn
  import opened Routing
  import opened Strings
  import opened Prefixing

  const ENTRY := "_sp_entry"

  function Within(sub: Id): string { sub + "." }

  function EntryOf(sub: Id): Id { sub + ENTRY }

  function SubElement(sub: Id, end: Option<Id>): Element {
    Element(SubProcess, [], [], listedOutgoing := [EntryOf(sub)],
            innerEnd := if end.Some? then Within(sub) + end.value else "")
  }

  /** The process after flattening: inner ids get a prefix, inner flow lists are left as they are. */
  function Flattened(p: Process, sub: Id, inner: Process, end: Option<Id>): Process {
    var prefix := Within(sub);
    Process(p.start,
            (p.elements + PrefixKeys(prefix, inner.elements))[sub := SubElement(sub, end)],
            (p.flows + PrefixFlows(prefix, inner.flows))[EntryOf(sub) := Flow(sub, prefix + inner.start)])
  }

  method Flatten(p: Process, sub: Id, inner: Process) returns (q: Process, end: Option<Id>)
    ensures FirstEnd(inner, end) && q == Flattened(p, sub, inner, end)
  {
    var prefix := Within(sub);
    end := None;
    var todo := inner.elements.Keys;
    while todo != {}
      invariant todo <= inner.elements.Keys
      invariant end.Some? ==> end.value in inner.elements && inner.elements[end.value].kind == EndEvent
      invariant end.None? ==> forall id | id in inner.elements && id !in todo :: inner.elements[id].kind != EndEvent
      decreases todo
    {
      var id :| id in todo;
      if inner.elements[id].kind == EndEvent && end.None? {
        end := Some(id);
      }
      todo := todo - {id};
    }
    var elements := CopyUnprefixed(prefix, p.elements, inner.elements);
    var flows := CopyFlows(prefix, p.flows, inner.flows);
    flows := flows[EntryOf(sub) := Flow(sub, prefix + inner.start)];
    q := Process(p.start, elements[sub := SubElement(sub, end)], flows);
  }

  /** Only the id of a copied element changes. */
  method CopyUnprefixed(prefix: string, base: map<Id, Element>, added: map<Id, Element>)
      returns (elements: map<Id, Element>)
    ensures elements == base + PrefixKeys(prefix, added)
  {
    elements := base;
    var todo := added.Keys;
    NoneAndAll(prefix, base, added);
    while todo != {}
      invariant todo <= added.Keys
      invariant elements == base + PrefixKeys(prefix, added - todo)
      decreases todo
    {
      var id :| id in todo;
      PrefixOneMore(prefix, base, added, todo, id);
      todo := todo - {id};
      elements := elements[prefix + id := added[id]];
    }
  }

  /** A sub-process leaves along its flows other than the entry into itself. */
  function ExitsOf(outgoing: seq<Id>): (r: seq<Id>)
    ensures forall f :: f in r <==> f in outgoing && !HasSuffix(f, ENTRY)
  {
    if outgoing == [] then []
    else
      assert outgoing == outgoing[..|outgoing| - 1] + [outgoing[|outgoing| - 1]];
      var last := outgoing[|outgoing| - 1];
      ExitsOf(outgoing[..|outgoing| - 1]) + if HasSuffix(last, ENTRY) then [] else [last]
  }

  /** The end event of a sub-process gets the exits, and remembers all it may leave along. */
  function Closed(end: Element, outgoing: seq<Id>): Element {
    var out := end.outgoing + ExitsOf(outgoing);
    end.(outgoing := out, exitFlows := Join(out))
  }

  predicate Closes(p: Process, s: Id, e: Id) {
    s in p.elements && p.elements[s].innerEnd == e && e != "" && e in p.elements
  }

  /** Each end event closes at most one sub-process and is none itself. */
  ghost predicate OneCloser(p: Process) {
    && (forall s, t, e | Closes(p, s, e) && Closes(p, t, e) :: s == t)
    && (forall s, e | Closes(p, s, e) :: p.elements[e].innerEnd == "")
  }

  /** The pass has visited `done`. */
  ghost predicate ExitsDone(p: Process, done: set<Id>, elements: map<Id, Element>) {
    && elements.Keys == p.elements.Keys
    && (forall e | e in p.elements && (forall s | s in done :: !Closes(p, s, e)) :: elements[e] == p.elements[e])
    && (forall s, e | s in done && Closes(p, s, e) ::
          elements[e] == Closed(p.elements[e], p.elements[s].outgoing))
  }

  ghost predicate ExitsRouted(p: Process, q: Process) {
    q.start == p.start && q.flows == p.flows && ExitsDone(p, p.elements.Keys, q.elements)
  }

  function CloseBy(elements: map<Id, Element>, id: Id): map<Id, Element>
    requires id in elements
  {
    var el := elements[id];
    if el.innerEnd != "" && el.innerEnd in elements
    then elements[el.innerEnd := Closed(elements[el.innerEnd], el.outgoing)]
    else elements
  }

  method RouteExits(p: Process) returns (q: Process)
    ensures OneCloser(p) ==> ExitsRouted(p, q)
  {
    var elements := p.elements;
    var todo := p.elements.Keys;
    assert OneCloser(p) ==> ExitsDone(p, p.elements.Keys - todo, elements);
    while todo != {}
      invariant todo <= p.elements.Keys == elements.Keys
      invariant OneCloser(p) ==> ExitsDone(p, p.elements.Keys - todo, elements)
      decreases todo
    {
      var id :| id in todo;
      if OneCloser(p) {
        ExitVisited(p, p.elements.Keys - todo, p.elements.Keys - (todo - {id}), id, elements);
      }
      elements := CloseBy(elements, id);
      todo := todo - {id};
    }
    assert p.elements.Keys - todo == p.elements.Keys;
    q := Process(p.start, elements, p.flows);
  }

  /** What has an inner end is not itself closed by anything, so the pass still finds it as it was. */
  lemma CloserUntouched(p: Process, done: set<Id>, id: Id, elements: map<Id, Element>)
    requires OneCloser(p) && ExitsDone(p, done, elements) && id in p.elements
    ensures elements[id].innerEnd == p.elements[id].innerEnd
    ensures p.elements[id].innerEnd != "" ==> elements[id] == p.elements[id]
  {
    if s :| s in done && Closes(p, s, id) {
      assert elements[id] == Closed(p.elements[id], p.elements[s].outgoing);
    }
  }

  lemma ExitVisited(p: Process, done: set<Id>, done': set<Id>, id: Id, elements: map<Id, Element>)
    requires OneCloser(p) && ExitsDone(p, done, elements) && id in p.elements && id !in done && done' == done + {id}
    ensures ExitsDone(p, done', CloseBy(elements, id))
  {
    CloserUntouched(p, done, id, elements);
    var e, after := p.elements[id].innerEnd, CloseBy(elements, id);
    if Closes(p, id, e) {
      assert forall s | s in done :: !Closes(p, s, e);
      assert after == elements[e := Closed(p.elements[e], p.elements[id].outgoing)];
    } else {
      assert after == elements;
    }
  }
}

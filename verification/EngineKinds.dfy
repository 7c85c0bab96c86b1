/** What elements of each kind do to a run, from their executors through the handler; and, in a parsed file,
    where the results of its sub-processes lead. */
module EngineKinds {
  import opened Bpmn
  import opened Routing
  import opened Records
  import opened Lifecycle
  import opened FailSafe
  import opened Strings
  import opened SubProcesses
  import opened Documents
  import opened DocumentTheorems
  import opened ParsedFiles
  import opened ParsedElements
  import opened Engine
  import opened EngineSafety
  import opened EngineTokens
  import opened EngineCompletion
  import opened EngineCauses
  import CallActivities
  import NestedCalls
  import Duplication
  import ParallelJoin

  /** The result of the element at hand is next, was made against some store, and is within the limits. */
  ghost predicate NextIs(c: Config, s: State, store: seq<FlowRecord>, kind: ElementType) {
    && Disciplined(s.instance) && s.net.results != [] && WithinLimits(c, s, false)
    && var r := s.net.results[0];
    && Plausible(s.process, store, r.item, r)
    && r.item.element in s.process.elements && s.process.elements[r.item.element].kind == kind
  }

  /** A record of something that is no element fails a live run, which reports it. */
  lemma UnknownFails(c: Config, s: State, store: seq<FlowRecord>, pick: Pick)
    requires Disciplined(s.instance) && s.net.results != [] && WithinLimits(c, s, false) && Live(s)
    requires Plausible(s.process, store, s.net.results[0].item, s.net.results[0])
    requires s.net.results[0].item.element !in s.process.elements
    ensures var t := Received(c, s, false, pick);
            t.coordinator == Returned(Reported) && t.instance.life.status == Failed
  {
    ReceivedStatus(c, s, false, pick);
    ReceivedEnds(c, s, false, pick);
  }

  /** A terminate event ends a live run, terminated. */
  lemma TerminateEnds(c: Config, s: State, store: seq<FlowRecord>, pick: Pick)
    requires NextIs(c, s, store, TerminateEvent)
    ensures var t := Received(c, s, false, pick);
            t.coordinator == Returned(Aborted)
            && t.instance.life.status == if Live(s) then Terminated else s.instance.life.status
  {
    ReceivedStatus(c, s, false, pick);
    ReceivedEnds(c, s, false, pick);
  }

  /** An end event with no exits completes a run in progress, and enqueues nothing. */
  lemma EndCompletes(c: Config, s: State, store: seq<FlowRecord>, pick: Pick)
    requires NextIs(c, s, store, EndEvent) && s.process.elements[s.net.results[0].item.element].exitFlows == ""
    ensures s.instance.life.status == InProgress ==> IsCompleted(Received(c, s, false, pick))
    ensures forall e :: Brings(c, Reading(s.process, s.net.results[0], pick), e) == 0
  {
    ReceivedStatus(c, s, false, pick);
  }

  /** An error end throws: it fails a live run if nothing catches, and otherwise leaves the state as it is. */
  lemma ErrorEndThrows(c: Config, s: State, store: seq<FlowRecord>, pick: Pick)
    requires NextIs(c, s, store, ErrorEnd)
    ensures Received(c, s, false, pick).instance.life.status
            == if pick.catcher == None && Live(s) then Failed else s.instance.life.status
    ensures forall e :: Brings(c, Reading(s.process, s.net.results[0], pick), e)
                           == if pick.catcher == Some(e) then 1 else 0
  {
    ReceivedStatus(c, s, false, pick);
  }

  /** A parallel gateway that synchronises and has too few records makes the run wait; otherwise it lets the
      token through along all its flows. */
  lemma GatewayWaits(c: Config, s: State, store: seq<FlowRecord>, pick: Pick)
    requires NextIs(c, s, store, ParallelGateway) && s.instance.life.status == InProgress
    ensures var id := s.net.results[0].item.element;
            var waits := ParallelJoin.Decision(s.process, id, store) == Wait;
            && Received(c, s, false, pick).instance.life.status == (if waits then Waiting else InProgress)
            && forall e :: Brings(c, Reading(s.process, s.net.results[0], pick), e)
                           == if waits then 0 else StepsTo(NextFlows(s.process, Route, id, []), e)
  {
    ReceivedStatus(c, s, false, pick);
  }

  lemma CalledResult(c: Config, s: State, store: seq<FlowRecord>)
    requires NextIs(c, s, store, ElementType.CallActivity)
    requires var called := s.process.elements[s.net.results[0].item.element].called;
             called != "" && called in c.library && c.library[called].start != ""
    ensures Calls(c, s.net.results[0])
    ensures s.net.results[0].called == s.process.elements[s.net.results[0].item.element].called
  {
  }

  lemma CallBrings(c: Config, x: Reading, e: Id)
    requires Calls(c, x.result)
    ensures Brings(c, x, e)
            == if e == "ca-" + x.result.item.element + "." + c.library[x.result.called].start then 1 else 0
  {
  }

  /** A call activity puts the process it names in and one token on its start event. */
  lemma CallEnters(c: Config, s: State, store: seq<FlowRecord>, pick: Pick, e: Id)
    requires NextIs(c, s, store, ElementType.CallActivity)
    requires var called := s.process.elements[s.net.results[0].item.element].called;
             called != "" && called in c.library && c.library[called].start != ""
    ensures var r := s.net.results[0];
            && r.called == s.process.elements[r.item.element].called && r.called in c.library
            && Received(c, s, false, pick).process
               == CallActivities.Inlined(s.process, r.item.element, c.library[r.called], pick.end)
            && Brings(c, Reading(s.process, r, pick), e)
               == if e == "ca-" + r.item.element + "." + c.library[r.called].start then 1 else 0
  {
    CalledResult(c, s, store);
    ReceivedProcess(c, s, false, pick);
    CallBrings(c, Reading(s.process, s.net.results[0], pick), e);
  }

  /** Without a called process it routes on. */
  lemma CallPasses(c: Config, s: State, store: seq<FlowRecord>, pick: Pick)
    requires NextIs(c, s, store, ElementType.CallActivity)
    requires s.process.elements[s.net.results[0].item.element].called == ""
    ensures forall e :: Brings(c, Reading(s.process, s.net.results[0], pick), e)
                        == StepsTo(NextFlows(s.process, Route, s.net.results[0].item.element, []), e)
  {
  }

  /** What executing a sub-process gives leads to its start event and nowhere else. */
  lemma SubProcessResult(doc: seq<FlowElement>, subs: seq<SubParse>, w: Process, x: Process, k: nat,
                         store: seq<FlowRecord>, item: Item, r: Result)
    requires WellFormed(doc) && ParsedAs(doc, subs, w, x) && k < |doc| && HasInner(doc[k])
    requires item.element == doc[k].id && Plausible(x, store, item, r)
    ensures r.action == Route && Successors(x, doc[k].id, r.filters) == {doc[k].id + "." + subs[k].inner.start}
  {
    OuterSub(doc, subs, w, x, k);
    StartsAreFirst(doc, subs, w, x, k);
  }

  /** What executing the closing end event of a sub-process gives leads on to the sequence flows that leave the
      sub-process; if there are none it completes. */
  lemma ClosingEndResult(doc: seq<FlowElement>, subs: seq<SubParse>, w: Process, x: Process, k: nat, e: Id,
                         store: seq<FlowRecord>, item: Item, r: Result)
    requires NestedCalls.ClosingEnd(doc, subs, w, x, k, e)
    requires item.element == doc[k].id + "." + e && Plausible(x, store, item, r)
    ensures r.action == if SequencesFrom(doc, doc[k].id) == {} then Complete else Route
    ensures r.action == Route ==> Successors(x, item.element, r.filters) == SequencesFrom(doc, doc[k].id)
  {
    NestedCalls.ClosingEndLeads(doc, subs, w, x, k, e);
    NestedCalls.ExitsListed(doc, subs, w, x, k, e);
    ClosingKind(doc, subs, w, x, k, e);
    ExitStringSet(x, item.element, SequencesFrom(doc, doc[k].id));
  }

  lemma ClosingKind(doc: seq<FlowElement>, subs: seq<SubParse>, w: Process, x: Process, k: nat, e: Id)
    requires NestedCalls.ClosingEnd(doc, subs, w, x, k, e)
    ensures KindOf(x, Within(doc[k].id) + e) == EndEvent
  {
    FileEstablishes(doc, subs, w, x, k);
    Duplication.KindInside(Assembled(doc, subs), w, x, Within(doc[k].id), subs[k].inner, e);
  }

  lemma ExitStringSet(x: Process, c: Id, flows: set<Id>)
    requires c in x.elements && x.elements[c].exitFlows == Join(x.elements[c].outgoing)
    requires (forall f :: f in x.elements[c].outgoing <==> f in flows) && forall f | f in flows :: f != "" && ',' !in f
    ensures x.elements[c].exitFlows == "" <==> flows == {}
  {
    var out := x.elements[c].outgoing;
    JoinEmpty(out);
    if out != [] {
      assert out[0] in out;
    }
    assert forall f | f in flows :: f in out;
  }
}

/** The process definition: elements, sequence flows and the graph they form. */
module Bpmn {

  type Id = string

  datatype Option<+T> = None | Some(value: T)

  datatype ElementType =
    | StartEvent | EndEvent | TerminateEvent | TimerEvent
    | MessageThrow | MessageCatch | SignalThrow | SignalCatch
    | ErrorCatch | ErrorEnd
    | ExclusiveGateway | ParallelGateway | InclusiveGateway | EventBasedGateway
    | UserTask | ScriptTask | ServiceTask | AITask
    | SequenceFlow | SubProcess | CallActivity
    | Untyped  // the zero value, read when a flow points at no element

  datatype Direction = Unspecified | Diverging | Converging | Mixed

  /** The fields of an element that routing and the graph passes read or write.
      `exitFlows` is the `subprocess_exit_flows` extension entry, "" when absent;
      `innerEnd` is the end event chosen inside a flattened sub-process; `called` is the process a
      call activity names. */
  datatype Element = Element(
    kind: ElementType,
    incoming: seq<Id>,
    outgoing: seq<Id>,
    listedIncoming: seq<Id> := [],
    listedOutgoing: seq<Id> := [],
    direction: Direction := Unspecified,
    attachedTo: Id := "",
    errorCode: string := "",
    exitFlows: string := "",
    innerEnd: Id := "",
    called: Id := "")

  datatype Flow = Flow(source: Id, target: Id)

  datatype Process = Process(start: Id, elements: map<Id, Element>, flows: map<Id, Flow>)

  predicate IsSequenceFlow(p: Process, id: Id) {
    id in p.elements && p.elements[id].kind == SequenceFlow
  }

  predicate IsEndEvent(p: Process, id: Id) {
    id in p.elements && p.elements[id].kind in {EndEvent, TerminateEvent}
  }

  function KindOf(p: Process, id: Id): ElementType {
    if id in p.elements then p.elements[id].kind else Untyped
  }
}

/** The process instance: its state automaton, its once-only completion and its thread counter. */
module Lifecycle {
  import opened Sanitize

  datatype Status = Created | InProgress | Waiting | Suspended | Completed | Failed | Terminated

  function Allowed(current: Status): set<Status> {
    match current
    case Created => {InProgress, Failed}
    case InProgress => {Waiting, Suspended, Completed, Failed, Terminated}
    case Waiting => {InProgress, Failed, Terminated}
    case Suspended => {InProgress, Failed}
    case Failed => {InProgress}
    case Completed => {}
    case Terminated => {}
  }

  predicate IsTerminal(s: Status) { s in {Completed, Terminated} }

  /** The part of an instance that decides which transitions succeed. `once` is the spent
      `sync.Once` of TryComplete. */
  datatype Life = Life(status: Status, once: bool, completedOk: bool)

  const Fresh := Life(Created, false, false)

  function Attempt(l: Life, next: Status): Life {
    if next in Allowed(l.status) then l.(status := next) else l
  }

  /** TryComplete: only the first call does anything, whether or not it succeeds. */
  function Finish(l: Life): Life {
    if l.once then l
    else if Completed in Allowed(l.status) then Life(Completed, true, true)
    else l.(once := true)
  }

  class Instance {
    var status: Status
    var once: bool
    var completedOk: bool
    var finished: bool
    var threadSeq: int
    var variables: Variables

    ghost function Now(): Life reads this { Life(status, once, completedOk) }

    constructor (initial: Variables)
      ensures Now() == Fresh && threadSeq == 1 && !finished
      ensures CleanVariables(variables, 0) && VariablesImage(initial, variables, 0)
      ensures CleanVariables(initial, 0) ==> variables == initial
    {
      var clean := SanitizeVariables(initial, 0);
      status, once, completedOk, finished := Created, false, false, false;
      threadSeq := 1;
      variables := clean;
    }

    method Transition(next: Status) returns (ok: bool)
      modifies this`status, this`finished
      ensures ok <==> next in Allowed(old(status))
      ensures Now() == Attempt(old(Now()), next)
      ensures finished <==> old(finished) || (ok && IsTerminal(next))
    {
      if next !in Allowed(status) {
        return false;
      }
      status := next;
      if next == Completed || next == Terminated {
        finished := true;
      }
      return true;
    }

    method TryComplete() returns (ok: bool)
      modifies this`status, this`finished, this`once, this`completedOk
      ensures Now() == Finish(old(Now())) && ok == completedOk
    {
      if !once {
        once := true;
        var moved := Transition(Completed);
        if moved {
          completedOk := true;
        }
      }
      return completedOk;
    }

    method NextThreadID() returns (id: int)
      modifies this`threadSeq
      ensures id == threadSeq == old(threadSeq) + 1
    {
      threadSeq := threadSeq + 1;
      return threadSeq;
    }

    method SetVariable(key: string, value: Value)
      modifies this`variables
      ensures variables == old(variables)[key := value]
    {
      variables := variables[key := value];
    }

    /** ToRecord keeps the map as it is. */
    method StoredVariables() returns (record: Variables)
      ensures record == variables
    {
      return variables;
    }
  }

  /** Save an instance and load it again, as Continue does: the variables come back unchanged
      whatever order the maps are visited in, even if limits were hit the first time. */
  method Reload(initial: Variables) returns (saved: Variables, loaded: Variables)
    ensures CleanVariables(saved, 0) && VariablesImage(initial, saved, 0)
    ensures loaded == saved
  {
    var first := new Instance(initial);
    saved := first.StoredVariables();
    var second := new Instance(saved);
    loaded := second.StoredVariables();
  }

  datatype Op = Move(next: Status) | Close

  function Perform(l: Life, op: Op): Life {
    match op
    case Move(next) => Attempt(l, next)
    case Close => Finish(l)
  }

  function PerformAll(l: Life, ops: seq<Op>): Life
    decreases |ops|
  {
    if ops == [] then l else PerformAll(Perform(l, ops[0]), ops[1..])
  }

  /** How many TryComplete calls in a history really complete the instance. */
  function Completions(l: Life, ops: seq<Op>): nat
    decreases |ops|
  {
    if ops == [] then 0
    else
      (if ops[0] == Close && l.status != Completed && Finish(l).status == Completed then 1 else 0)
      + Completions(Perform(l, ops[0]), ops[1..])
  }

  lemma {:induction false} TerminalAbsorbs(l: Life, ops: seq<Op>)
    requires IsTerminal(l.status)
    ensures PerformAll(l, ops).status == l.status
    decreases |ops|
  {
    if ops != [] {
      TerminalAbsorbs(Perform(l, ops[0]), ops[1..]);
    }
  }

  /** TryComplete succeeds at most once in any history; a call that comes too early or too late,
      for instance while WAITING, spends it for good. */
  lemma {:induction false} CompletesAtMostOnce(l: Life, ops: seq<Op>)
    ensures Completions(l, ops) <= if l.once then 0 else 1
    ensures PerformAll(l, ops).completedOk <==> l.completedOk || Completions(l, ops) == 1
    decreases |ops|
  {
    if ops != [] {
      CompletesAtMostOnce(Perform(l, ops[0]), ops[1..]);
    }
  }

  /** The table read by targets: into which state each state can go. */
  lemma WhoCanEnter(from: Status, next: Status)
    ensures next in Allowed(from) <==>
              match next
              case Created => false
              case InProgress => from in {Created, Waiting, Suspended, Failed}
              case Waiting => from == InProgress
              case Suspended => from == InProgress
              case Completed => from == InProgress
              case Failed => from in {Created, InProgress, Waiting, Suspended}
              case Terminated => from in {InProgress, Waiting}
  {
  }

  /** The one call of TryComplete that counts is the first: whatever happens after it, only what it achieved
      remains. A call that comes too early spends it. */
  lemma {:induction false} FirstCallDecides(l: Life, ops: seq<Op>)
    ensures PerformAll(Finish(l), ops).completedOk == Finish(l).completedOk
    ensures !l.once ==> (Finish(l).completedOk <==> l.completedOk || l.status == InProgress)
    decreases |ops|
  {
    Spent(Finish(l), ops);
  }

  lemma {:induction false} Spent(l: Life, ops: seq<Op>)
    requires l.once
    ensures PerformAll(l, ops).completedOk == l.completedOk
    decreases |ops|
  {
    if ops != [] {
      Spent(Perform(l, ops[0]), ops[1..]);
    }
  }
}

/** The smallest runs with a choice of schedule: Continue from a task with one flow to an error end and
    one to an end event. */
module EngineTwoTokens {
  import opened Bpmn
  import opened Routing
  import opened Records
  import opened Lifecycle
  import opened FailSafe
  import opened Engine
  import opened EngineSafety
  import opened EngineLimits
  import opened EngineHistory

  const OneWorker := Config(1, 100, map[])

  /** Task "a" leads to `first` and `second`, the error end "x" and the end event "e" in some order. */
  function Parting(first: Id, second: Id): Process {
    Process("a",
            map["a" := Element(UserTask, [], ["f", "g"]), "x" := Element(ErrorEnd, [], []),
                "e" := Element(EndEvent, [], [])],
            map["f" := Flow("a", first), "g" := Flow("a", second)])
  }

  function PartingStore(first: Id, second: Id): seq<FlowRecord> {
    [FlowRecord("a", None, Initial, Parting(first, second))]
  }

  function PartingStart(first: Id, second: Id): State {
    var items := [Item(1, first), Item(2, second)];
    State(Parting(first, second), Case(Life(InProgress, false, false), [], 0), Feeding(items), Net([], [], [Idle]),
          Books(2, items, [], multiset{}), EmptyTally,
          PartingStore(first, second) + ContinueRecords(Parting(first, second), PartingStore(first, second), 0), false)
  }

  lemma PartingRoutes(first: Id, second: Id)
    ensures var p := Parting(first, second);
            NextFlows(p, Route, "a", []) == [NextFlow("f", first, KindOf(p, first)),
               NextFlow("g", second, KindOf(p, second))]
  {
    var p := Parting(first, second);
    assert ["f", "g"][..1] == ["f"] && ["f"][..0] == [];
    assert Along(p, ["f"], []) == [StepAlong(p, "f")];
    assert StepAlong(p, "f") == NextFlow("f", first, KindOf(p, first));
    assert StepAlong(p, "g") == NextFlow("g", second, KindOf(p, second));
  }

  lemma PartingBegins(first: Id, second: Id)
    ensures Begins(OneWorker, PartingStore(first, second), PartingStart(first, second))
  {
    var p, store, start := Parting(first, second), PartingStore(first, second), PartingStart(first, second);
    PartingRoutes(first, second);
    var records := ContinueRecords(p, store, 0);
    assert |records| == 2 && records[0].element == first && records[1].element == second;
    assert start.store[|store|..] == records;
    assert seq(1, _ => Idle) == [Idle];
    assert start.books.issued == ItemsFrom(1, records);
  }

  lemma PartingFed(first: Id, second: Id) returns (es: seq<Event>, s: State)
    ensures Path(OneWorker, PartingStart(first, second), es, s)
    ensures s == PartingStart(first, second).(coordinator := Selecting,
                                              net := Net([Item(1, first), Item(2, second)], [], [Idle]))
  {
    var start := PartingStart(first, second);
    assert Path(OneWorker, start, [], start);
    PathStep(OneWorker, start, [], start, Feed);
    PathStep(OneWorker, start, [] + [Feed], Fed(start), Feed);
    es, s := [] + [Feed] + [Feed], Fed(Fed(start));
  }

  /** The worker takes the item at the head, executes it with result `r` and delivers that. */
  lemma Handle(start: State, es: seq<Event>, s: State, r: Result) returns (es': seq<Event>, t: State)
    requires Path(OneWorker, start, es, s) && !s.expired && s.net.workers == [Idle] && |s.net.results| < CAPACITY
    requires s.net.work != [] && r.item == s.net.work[0] && Plausible(s.process, s.store, s.net.work[0], r)
    ensures Path(OneWorker, start, es', t)
    ensures t == s.(net := Net(s.net.work[1..], s.net.results + [r], [Idle]))
  {
    var a := Taken(s, 0);
    PathStep(OneWorker, start, es, s, Take(0));
    var b := Busy(a, 0, Delivering(r));
    PathStep(OneWorker, start, es + [Take(0)], a, Execute(0, r));
    PathStep(OneWorker, start, es + [Take(0)] + [Execute(0, r)], b, Put(0));
    es', t := es + [Take(0)] + [Execute(0, r)] + [Put(0)], Delivered(b, 0);
  }
}

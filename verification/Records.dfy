/** The flow records of one instance, in creation order; a record's id is its position. */
module Records {
  import opened Bpmn

  /** Why a record was written. */
  datatype Via = Initial | Routed(flow: Id) | Caught | Called | Boundary

  /** `graph` is the process definition in force when the record was written. */
  datatype FlowRecord = FlowRecord(element: Id, previous: Option<nat>, via: Via, graph: Process)

  function ArrivalsAt(store: seq<FlowRecord>, element: Id): nat {
    if store == [] then 0
    else ArrivalsAt(store[..|store| - 1], element) + if store[|store| - 1].element == element then 1 else 0
  }

  lemma {:induction false} ArrivalsConcat(a: seq<FlowRecord>, b: seq<FlowRecord>, element: Id)
    ensures ArrivalsAt(a + b, element) == ArrivalsAt(a, element) + ArrivalsAt(b, element)
  {
    if b == [] {
      assert a + b == a;
    } else {
      ArrivalsConcat(a, b[..|b| - 1], element);
      assert (a + b)[..|a + b| - 1] == a + b[..|b| - 1];
    }
  }

  lemma ArrivalsMonotone(store: seq<FlowRecord>, n: nat, element: Id)
    requires n <= |store|
    ensures ArrivalsAt(store[..n], element) <= ArrivalsAt(store, element)
  {
    ArrivalsConcat(store[..n], store[n..], element);
    assert store == store[..n] + store[n..];
  }
}

/** Which error boundary receives a thrown error. */
module ErrorCatching {
  import opened Bpmn
  import opened Strings

  /** parentSubProcessID: the sub-process named before the first dot, or "". */
  function ParentSubProcess(p: Process, id: Id): Id {
    var dot := IndexDot(id);
    if dot <= 0 then ""
    else if KindOf(p, id[..dot]) == SubProcess then id[..dot] else ""
  }

  predicate Catches(p: Process, c: Id, attachedTo: Id, code: string) {
    && c in p.elements
    && p.elements[c].kind == ErrorCatch
    && p.elements[c].attachedTo == attachedTo
    && p.elements[c].errorCode in {"", code}
  }

  /** `scope` is searched before every later scope; a scope without a catcher is skipped. */
  ghost predicate CaughtIn(p: Process, scopes: seq<Id>, code: string, c: Option<Id>) {
    match c
    case None => forall s, x | s in scopes :: !Catches(p, x, s, code)
    case Some(x) => exists i | 0 <= i < |scopes| ::
      Catches(p, x, scopes[i], code) && forall j, y | 0 <= j < i :: !Catches(p, y, scopes[j], code)
  }

  /** Enclosing sub-process, then the thrower itself, then the global catchers. */
  function Scopes(p: Process, thrower: Id): seq<Id> {
    (if ParentSubProcess(p, thrower) != "" then [ParentSubProcess(p, thrower)] else []) + [thrower, ""]
  }

  /** One loop of findErrorCatch; the map may be visited in any order. */
  method SearchScope(p: Process, attachedTo: Id, code: string) returns (c: Option<Id>)
    ensures CaughtIn(p, [attachedTo], code, c)
  {
    var todo := p.elements.Keys;
    while todo != {}
      invariant forall x | x in p.elements && x !in todo :: !Catches(p, x, attachedTo, code)
      decreases todo
    {
      var x :| x in todo;
      if Catches(p, x, attachedTo, code) {
        assert Catches(p, x, [attachedTo][0], code);
        return Some(x);
      }
      todo := todo - {x};
    }
    return None;
  }

  method FindErrorCatch(p: Process, thrower: Id, code: string) returns (c: Option<Id>)
    ensures CaughtIn(p, Scopes(p, thrower), code, c)
  {
    var parent := ParentSubProcess(p, thrower);
    ghost var scopes := Scopes(p, thrower);
    ghost var skipped: seq<Id> := [];
    if parent != "" {
      c := SearchScope(p, parent, code);
      if c.Some? {
        assert Catches(p, c.value, scopes[0], code);
        return;
      }
      skipped := [parent];
    }
    assert forall y | y in skipped :: forall x :: !Catches(p, x, y, code);
    c := SearchScope(p, thrower, code);
    if c.Some? {
      assert scopes[|skipped|] == thrower;
      assert Catches(p, c.value, scopes[|skipped|], code);
      return;
    }
    c := SearchScope(p, "", code);
    if c.Some? {
      assert scopes[|skipped| + 1] == "";
      assert Catches(p, c.value, scopes[|skipped| + 1], code);
      return;
    }
  }

  /** The prefix a flattened sub-process gives its inner ids leads back to the sub-process. */
  lemma ParentOfInner(p: Process, sub: Id, inner: Id)
    requires sub != "" && '.' !in sub
    ensures ParentSubProcess(p, sub + "." + inner) == if KindOf(p, sub) == SubProcess then sub else ""
  {
    var id := sub + "." + inner;
    assert id[|sub|] == '.';
    assert id[..|sub|] == sub;
    assert forall i | 0 <= i < |sub| :: id[i] == sub[i];
  }

  /** The sub-process an id names before its first dot. */
  predicate Around(p: Process, sub: Id, id: Id) {
    sub != "" && '.' !in sub && HasPrefix(id, sub + ".") && sub in p.elements && p.elements[sub].kind == SubProcess
  }

  lemma ParentExactly(p: Process, id: Id, sub: Id)
    requires sub != ""
    ensures ParentSubProcess(p, id) == sub <==> Around(p, sub, id)
  {
    var dot := IndexDot(id);
    if Around(p, sub, id) {
      assert id[|sub|] == (sub + ".")[|sub|] == '.';
      assert id[..|sub|] == (sub + ".")[..|sub|] == sub;
      assert forall i | 0 <= i < |sub| :: id[i] == sub[i];
    }
    if ParentSubProcess(p, id) == sub {
      assert id[..dot + 1] == sub + ".";
    }
  }

  /** An error catch for the code, or for any, attached to `host`. */
  predicate CatchesAt(p: Process, x: Id, host: Id, code: string) {
    && x in p.elements && p.elements[x].kind == ErrorCatch && p.elements[x].attachedTo == host
    && (p.elements[x].errorCode == "" || p.elements[x].errorCode == code)
  }

  /** The catcher is attached to the sub-process around the thrower; if that has none, to the thrower; if
      that has none either, to nothing; and there is no catcher only if there is none of these. */
  ghost predicate RightCatcher(p: Process, thrower: Id, code: string, c: Option<Id>) {
    if exists sub, x :: Around(p, sub, thrower) && CatchesAt(p, x, sub, code) then
      c.Some? && exists sub :: Around(p, sub, thrower) && CatchesAt(p, c.value, sub, code)
    else if exists x :: CatchesAt(p, x, thrower, code) then c.Some? && CatchesAt(p, c.value, thrower, code)
    else if exists x :: CatchesAt(p, x, "", code) then c.Some? && CatchesAt(p, c.value, "", code)
    else c == None
  }

  lemma CatcherExactly(p: Process, thrower: Id, code: string, c: Option<Id>)
    requires CaughtIn(p, Scopes(p, thrower), code, c)
    ensures RightCatcher(p, thrower, code, c)
  {
    var parent, scopes := ParentSubProcess(p, thrower), Scopes(p, thrower);
    forall sub ensures Around(p, sub, thrower) <==> sub != "" && sub == parent {
      if sub != "" {
        ParentExactly(p, thrower, sub);
      }
    }
    forall x, host ensures Catches(p, x, host, code) <==> CatchesAt(p, x, host, code) {}
    assert scopes[|scopes| - 1] == "" && scopes[|scopes| - 2] == thrower;
    assert parent != "" ==> scopes[0] == parent;
  }
}

/** sanitizeVariables and sanitizeSlice: what a process variable may hold.
    The iteration order of a map is left open, so every postcondition holds for all orders. */
module Sanitize {
  import opened Totals

  const MAX_DEPTH := 3
  const MAX_SIZE := 1048576

  /** `Opaque` is a value of any other Go type, known only by its printed form. */
  datatype Value =
    | Nil | Flag(b: bool) | Whole(n: int) | Fraction(r: real)
    | Text(s: string)
    | List(items: seq<Value>)
    | Object(fields: map<string, Value>)
    | Opaque(printed: string)

  type Variables = map<string, Value>

  predicate NameStart(c: char) { 'a' <= c <= 'z' || 'A' <= c <= 'Z' || c == '_' }

  predicate NameChar(c: char) { NameStart(c) || '0' <= c <= '9' }

  predicate ValidName(k: string) {
    |k| > 0 && NameStart(k[0]) && forall i | 0 < i < |k| :: NameChar(k[i])
  }

  /** A name is made of letters, digits and underscores and does not begin with a digit. */
  lemma NamesAre(k: string)
    ensures ValidName(k) <==>
              && k != "" && !('0' <= k[0] <= '9')
              && forall c | c in k :: c == '_' || '0' <= c <= '9' || 'a' <= c <= 'z' || 'A' <= c <= 'Z'
  {
    if k != "" && !('0' <= k[0] <= '9')
       && forall c | c in k :: c == '_' || '0' <= c <= '9' || 'a' <= c <= 'z' || 'A' <= c <= 'Z' {
      assert forall i | 0 <= i < |k| :: k[i] in k;
    }
  }

  /** What one entry adds to the running size: nested containers count nothing. */
  function Weight(k: string, v: Value): nat {
    |k| + match v case Text(s) => |s| case Opaque(s) => |s| case _ => 0
  }

  function Weights(vars: Variables): map<string, nat> {
    map k | k in vars && ValidName(k) :: Weight(k, vars[k])
  }

  function Room(depth: nat): nat { if depth > MAX_DEPTH then 0 else MAX_DEPTH + 1 - depth }

  /** The normal form: what every call returns. */
  ghost predicate CleanVariables(vars: Variables, depth: nat)
    decreases Room(depth), 1
  {
    if depth > MAX_DEPTH then vars == map[]
    else
      && (forall k | k in vars :: ValidName(k) && CleanValue(vars[k], depth))
      && Total(Weights(vars)) <= MAX_SIZE
  }

  ghost predicate CleanList(items: seq<Value>, depth: nat)
    decreases Room(depth), 1
  {
    if depth > MAX_DEPTH then items == []
    else forall i | 0 <= i < |items| :: CleanValue(items[i], depth)
  }

  ghost predicate CleanValue(v: Value, depth: nat)
    requires depth <= MAX_DEPTH
    decreases Room(depth), 0
  {
    match v
    case List(items) => CleanList(items, depth + 1)
    case Object(fields) => CleanVariables(fields, depth + 1)
    case Opaque(_) => false
    case _ => true
  }

  /** `out` says the same as `v`, with only what the limits forbid taken away. */
  ghost predicate ValueImage(v: Value, out: Value, depth: nat)
    requires depth <= MAX_DEPTH
    decreases Room(depth), 0
  {
    match v
    case List(items) => out.List? && ListImage(items, out.items, depth + 1)
    case Object(fields) => out.Object? && VariablesImage(fields, out.fields, depth + 1)
    case Opaque(s) => out == Text(s)
    case _ => out == v
  }

  ghost predicate ListImage(items: seq<Value>, out: seq<Value>, depth: nat)
    decreases Room(depth), 1
  {
    if depth > MAX_DEPTH then out == []
    else |out| == |items| && forall i | 0 <= i < |items| :: ValueImage(items[i], out[i], depth)
  }

  ghost predicate VariablesImage(vars: Variables, out: Variables, depth: nat)
    decreases Room(depth), 1
  {
    if depth > MAX_DEPTH then out == map[]
    else
      && (forall k | k in out :: k in vars && ValidName(k) && ValueImage(vars[k], out[k], depth))
      && (out.Keys == Weights(vars).Keys <==> Total(Weights(vars)) <= MAX_SIZE)
      && (Total(Weights(vars)) > MAX_SIZE ==> exists k :: CutOff(vars, out, k))
  }

  /** The loop stopped at `k`: one more entry would have passed the limit. */
  ghost predicate CutOff(vars: Variables, out: Variables, k: string) {
    k in vars && ValidName(k) && k !in out && Total(Weights(out)) + Weight(k, vars[k]) > MAX_SIZE
  }

  method SanitizeVariables(vars: Variables, depth: nat) returns (out: Variables)
    ensures CleanVariables(out, depth)
    ensures VariablesImage(vars, out, depth)
    ensures CleanVariables(vars, depth) ==> out == vars
    decreases Room(depth), 1
  {
    out := map[];
    if depth > MAX_DEPTH {
      return;
    }
    var todo, total := vars.Keys, 0;
    while todo != {}
      invariant todo <= vars.Keys
      invariant Part(vars, out, depth)
      invariant forall k | k in out :: k !in todo
      invariant forall k | k in vars && ValidName(k) && k !in todo :: k in out
      invariant total == Total(Weights(out)) <= MAX_SIZE
      decreases todo
    {
      var k :| k in todo;
      todo := todo - {k};
      if !ValidName(k) {
        continue;
      }
      var val := SanitizeValue(vars[k], depth);
      total := total + Weight(k, vars[k]);
      Extend(out, k, val);
      WithinSource(vars, out[k := val], depth);
      if total > MAX_SIZE {
        Overflowed(vars, out, k, depth);
        assert CutOff(vars, out, k);
        PartIsClean(vars, out, depth);
        return;
      }
      out := out[k := val];
    }
    WithinSource(vars, out, depth);
    Finished(vars, out, depth);
  }

  method SanitizeList(items: seq<Value>, depth: nat) returns (out: seq<Value>)
    ensures CleanList(out, depth)
    ensures ListImage(items, out, depth)
    ensures CleanList(items, depth) ==> out == items
    decreases Room(depth), 1
  {
    out := [];
    if depth > MAX_DEPTH {
      return;
    }
    for i := 0 to |items|
      invariant |out| == i
      invariant forall j | 0 <= j < i :: ValueStep(items[j], out[j], depth)
    {
      var val := SanitizeValue(items[i], depth);
      out := out + [val];
    }
  }

  /** The type switch both loops contain. */
  method SanitizeValue(v: Value, depth: nat) returns (val: Value)
    requires depth <= MAX_DEPTH
    ensures ValueStep(v, val, depth)
    decreases Room(depth), 0
  {
    match v {
      case List(items) =>
        var l := SanitizeList(items, depth + 1);
        val := List(l);
      case Object(fields) =>
        var m := SanitizeVariables(fields, depth + 1);
        val := Object(m);
      case Opaque(s) => val := Text(s);
      case _ => val := v;
    }
  }

  /** One value sanitised: normal form, faithful, and untouched if it was already in normal form. */
  ghost predicate ValueStep(v: Value, val: Value, depth: nat)
    requires depth <= MAX_DEPTH
  {
    CleanValue(val, depth) && ValueImage(v, val, depth) && (CleanValue(v, depth) ==> val == v)
  }

  ghost predicate Part(vars: Variables, out: Variables, depth: nat)
    requires depth <= MAX_DEPTH
  {
    forall k | k in out :: k in vars && ValidName(k) && ValueStep(vars[k], out[k], depth)
  }

  lemma PartIsClean(vars: Variables, out: Variables, depth: nat)
    requires depth <= MAX_DEPTH && Part(vars, out, depth) && Total(Weights(out)) <= MAX_SIZE
    ensures CleanVariables(out, depth)
  {
  }

  lemma Finished(vars: Variables, out: Variables, depth: nat)
    requires depth <= MAX_DEPTH && Part(vars, out, depth) && Total(Weights(out)) <= MAX_SIZE
    requires forall k | k in vars && ValidName(k) :: k in out
    ensures CleanVariables(out, depth) && VariablesImage(vars, out, depth)
    ensures CleanVariables(vars, depth) ==> out == vars
  {
    assert Weights(out) == Weights(vars);
  }

  /** Adding an entry adds its weight. */
  lemma Extend(out: Variables, k: string, val: Value)
    requires k !in out && ValidName(k)
    ensures Total(Weights(out[k := val])) == Total(Weights(out)) + Weight(k, val)
  {
    var w := Weights(out[k := val]);
    TotalSplit(w, k);
    assert w - {k} == Weights(out);
  }

  /** A part of the input weighs no more than all its valid entries. */
  lemma WithinSource(vars: Variables, out: Variables, depth: nat)
    requires depth <= MAX_DEPTH && Part(vars, out, depth)
    ensures Total(Weights(out)) <= Total(Weights(vars))
  {
    TotalMonotone(Weights(out), Weights(vars));
  }

  /** When the cut-off fires the input was too heavy, so it was not in normal form. */
  lemma Overflowed(vars: Variables, out: Variables, k: string, depth: nat)
    requires depth <= MAX_DEPTH && Part(vars, out, depth) && k in vars && ValidName(k) && k !in out
    requires Total(Weights(out)) <= MAX_SIZE < Total(Weights(vars))
    ensures out.Keys != Weights(vars).Keys && !CleanVariables(vars, depth)
  {
    assert k in Weights(vars);
  }

  /** Two entries of a clean map together stay within 1 MiB, by their names and texts. */
  lemma EntriesFit(vars: Variables, depth: nat, a: string, b: string)
    requires CleanVariables(vars, depth) && a in vars && b in vars && a != b
    ensures |a| + TextSize(vars[a]) + |b| + TextSize(vars[b]) <= 1048576
  {
    var w := Weights(vars);
    TotalSplit(w, a);
    TotalSplit(w - {a}, b);
  }

  function TextSize(v: Value): nat { if v.Text? then |v.s| else 0 }
}

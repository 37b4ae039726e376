/**
  Making webhook data fit for Matrix events, which cannot hold non-integer numbers: floats
  become strings, and containers too deep or too far along in their parent become their JSON
  text.
 */
module Sanitiser {
  const SANITIZE_MAX_DEPTH: nat := 10
  const SANITIZE_MAX_BREADTH: nat := 50

  /** A JSON value. `text` is what Number.prototype.toString gives for a non-integer number. */
  datatype Json =
    | Null
    | Bool(b: bool)
    | Integer(n: int)
    | Float(text: string)
    | Str(s: string)
    | Arr(items: seq<Json>)
    | Obj(fields: seq<Field>)

  datatype Field = Field(key: string, value: Json)

  predicate Container(d: Json) { d.Arr? || d.Obj? }

  predicate OverLimit(depth: nat, breadth: nat) {
    depth > SANITIZE_MAX_DEPTH || breadth > SANITIZE_MAX_BREADTH
  }

  // ---------------------------------------------------------------- specification

  /** sanitiseObjectForMatrixJSON, for a given JSON.stringify. */
  function Sanitise(d: Json, depth: nat, breadth: nat, stringify: Json -> string): Json
    decreases d, 0
  {
    match d
    case Float(text) => Str(text)
    case Arr(items) =>
      if OverLimit(depth, breadth) then Str(stringify(d)) else Arr(SanitiseItems(items, depth + 1, 0, stringify))
    case Obj(fields) =>
      if OverLimit(depth, breadth) then Str(stringify(d)) else Obj(SanitiseFields(fields, depth + 1, 1, stringify))
    case _ => d
  }

  /** The items of an array, of which the first is number `breadth`. */
  function SanitiseItems(items: seq<Json>, depth: nat, breadth: nat, stringify: Json -> string): seq<Json>
    decreases items, 1
  {
    if items == [] then []
    else [Sanitise(items[0], depth, breadth, stringify)] + SanitiseItems(items[1..], depth, breadth + 1, stringify)
  }

  /** The fields of an object, of which the first is number `breadth`. */
  function SanitiseFields(fields: seq<Field>, depth: nat, breadth: nat, stringify: Json -> string)
    : seq<Field>
    decreases fields, 1
  {
    if fields == [] then []
    else [Field(fields[0].key, Sanitise(fields[0].value, depth, breadth, stringify))]
         + SanitiseFields(fields[1..], depth, breadth + 1, stringify)
  }

  // ---------------------------------------------------------------- the function

  /** The function itself: a map over an array, a loop that rewrites a copy of an object. */
  method SanitiseObjectForMatrixJSON(data: Json, depth: nat, breadth: nat, stringify: Json -> string) returns (r: Json)
    ensures r == Sanitise(data, depth, breadth, stringify)
    decreases data
  {
    if data.Float? {
      return Str(data.text);
    }
    if !Container(data) {
      return data;
    }
    if OverLimit(depth, breadth) {
      return Str(stringify(data));
    }
    if data.Arr? {
      var items: seq<Json> := [];
      ItemAt(data.items, depth + 1, 0, stringify);
      ghost var sanitised := SanitiseItems(data.items, depth + 1, 0, stringify);
      for i := 0 to |data.items|
        invariant items == sanitised[..i]
      {
        var item := SanitiseObjectForMatrixJSON(data.items[i], depth + 1, i, stringify);
        items := items + [item];
      }
      assert items == sanitised;
      return Arr(items);
    }
    var objBreadth := 0;
    var obj := data.fields;
    FieldAt(data.fields, depth + 1, 1, stringify);
    ghost var all := SanitiseFields(data.fields, depth + 1, 1, stringify);
    for i := 0 to |data.fields|
      invariant objBreadth == i && |obj| == |data.fields|
      invariant forall j :: 0 <= j < |obj| ==> obj[j] == if j < i then all[j] else data.fields[j]
    {
      objBreadth := objBreadth + 1;
      assert data.fields[i].value < data;
      var value := SanitiseObjectForMatrixJSON(data.fields[i].value, depth + 1, objBreadth, stringify);
      obj := obj[i := Field(data.fields[i].key, value)];
    }
    assert obj == all;
    return Obj(obj);
  }

  // ---------------------------------------------------------------- identity

  /** No non-integer number anywhere. */
  predicate FloatFree(d: Json) {
    match d
    case Float(_) => false
    case Arr(items) => forall i :: 0 <= i < |items| ==> FloatFree(items[i])
    case Obj(fields) => forall i :: 0 <= i < |fields| ==> FloatFree(fields[i].value)
    case _ => true
  }

  /** No container beyond the depth or breadth at which containers turn to text. */
  predicate Within(d: Json, depth: nat, breadth: nat) {
    match d
    case Arr(items) =>
      !OverLimit(depth, breadth) && forall i :: 0 <= i < |items| ==> Within(items[i], depth + 1, i)
    case Obj(fields) =>
      !OverLimit(depth, breadth) && forall i :: 0 <= i < |fields| ==> Within(fields[i].value, depth + 1, i + 1)
    case _ => true
  }

  lemma {:induction false} ItemAt(items: seq<Json>, depth: nat, breadth: nat, stringify: Json -> string)
    ensures var r := SanitiseItems(items, depth, breadth, stringify);
            && |r| == |items|
            && forall i :: 0 <= i < |items| ==> r[i] == Sanitise(items[i], depth, breadth + i, stringify)
  {
    if items != [] {
      ItemAt(items[1..], depth, breadth + 1, stringify);
    }
  }

  lemma {:induction false} FieldAt(fields: seq<Field>, depth: nat, breadth: nat, stringify: Json -> string)
    ensures var r := SanitiseFields(fields, depth, breadth, stringify);
            && |r| == |fields|
            && forall i :: 0 <= i < |fields| ==>
                 r[i] == Field(fields[i].key, Sanitise(fields[i].value, depth, breadth + i, stringify))
  {
    if fields != [] {
      FieldAt(fields[1..], depth, breadth + 1, stringify);
    }
  }

  /** Data is left as it is exactly when it has no float and stays within the limits. */
  lemma {:induction false} IdentityIff(d: Json, depth: nat, breadth: nat, stringify: Json -> string)
    ensures Sanitise(d, depth, breadth, stringify) == d <==> FloatFree(d) && Within(d, depth, breadth)
    decreases d
  {
    if d.Arr? && !OverLimit(depth, breadth) {
      ItemAt(d.items, depth + 1, 0, stringify);
      var r := Sanitise(d, depth, breadth, stringify);
      forall i | 0 <= i < |d.items|
        ensures r.items[i] == d.items[i] <==> FloatFree(d.items[i]) && Within(d.items[i], depth + 1, i)
      {
        IdentityIff(d.items[i], depth + 1, i, stringify);
      }
      assert r == d <==> forall i :: 0 <= i < |d.items| ==> r.items[i] == d.items[i];
    } else if d.Obj? && !OverLimit(depth, breadth) {
      FieldAt(d.fields, depth + 1, 1, stringify);
      var r := Sanitise(d, depth, breadth, stringify);
      forall i | 0 <= i < |d.fields|
        ensures r.fields[i] == d.fields[i] <==> FloatFree(d.fields[i].value) && Within(d.fields[i].value, depth + 1, i + 1)
      {
        IdentityIff(d.fields[i].value, depth + 1, i + 1, stringify);
      }
      assert r == d <==> forall i :: 0 <= i < |d.fields| ==> r.fields[i] == d.fields[i];
    }
  }

  /** A container too deep or too far along becomes its JSON text; any other stays one of the same
      kind and size, and what is no container is left as it is unless it is a float. */
  lemma TextIff(d: Json, depth: nat, breadth: nat, stringify: Json -> string)
    ensures var r := Sanitise(d, depth, breadth, stringify);
            && ((d.Arr? || d.Obj?) && (depth > 10 || breadth > 50) ==> r == Str(stringify(d)))
            && (d.Arr? && depth <= 10 && breadth <= 50 ==> r.Arr? && |r.items| == |d.items|)
            && (d.Obj? && depth <= 10 && breadth <= 50 ==> r.Obj? && |r.fields| == |d.fields|)
            && (d.Null? || d.Bool? || d.Integer? || d.Str? ==> r == d)
  {
    if d.Arr? {
      ItemAt(d.items, depth + 1, 0, stringify);
    } else if d.Obj? {
      FieldAt(d.fields, depth + 1, 1, stringify);
    }
  }

  /** The result has no float and stays within the limits. */
  lemma {:induction false} ResultIsSafe(d: Json, depth: nat, breadth: nat, stringify: Json -> string)
    ensures var r := Sanitise(d, depth, breadth, stringify); FloatFree(r) && Within(r, depth, breadth)
    decreases d
  {
    if d.Arr? && !OverLimit(depth, breadth) {
      ItemAt(d.items, depth + 1, 0, stringify);
      forall i | 0 <= i < |d.items|
        ensures var r := Sanitise(d.items[i], depth + 1, i, stringify); FloatFree(r) && Within(r, depth + 1, i)
      {
        ResultIsSafe(d.items[i], depth + 1, i, stringify);
      }
    } else if d.Obj? && !OverLimit(depth, breadth) {
      FieldAt(d.fields, depth + 1, 1, stringify);
      forall i | 0 <= i < |d.fields|
        ensures var r := Sanitise(d.fields[i].value, depth + 1, i + 1, stringify); FloatFree(r) && Within(r, depth + 1, i + 1)
      {
        ResultIsSafe(d.fields[i].value, depth + 1, i + 1, stringify);
      }
    }
  }

  /** Sanitising twice is sanitising once. */
  lemma Idempotent(d: Json, depth: nat, breadth: nat, stringify: Json -> string)
    ensures var r := Sanitise(d, depth, breadth, stringify); Sanitise(r, depth, breadth, stringify) == r
  {
    var r := Sanitise(d, depth, breadth, stringify);
    ResultIsSafe(d, depth, breadth, stringify);
    IdentityIff(r, depth, breadth, stringify);
  }

  // ---------------------------------------------------------------- size

  /** How deep containers nest. */
  function Nesting(d: Json): nat
    decreases d, 0
  {
    match d
    case Arr(items) => 1 + MaxNesting(items)
    case Obj(fields) => 1 + MaxFieldNesting(fields)
    case _ => 0
  }

  function MaxNesting(items: seq<Json>): nat
    decreases items, 1
  {
    if items == [] then 0
    else
      var a, b := Nesting(items[0]), MaxNesting(items[1..]);
      if a > b then a else b
  }

  function MaxFieldNesting(fields: seq<Field>): nat
    decreases fields, 1
  {
    if fields == [] then 0
    else
      var a, b := Nesting(fields[0].value), MaxFieldNesting(fields[1..]);
      if a > b then a else b
  }

  /** How many containers a value consists of. */
  function Containers(d: Json): nat
    decreases d, 0
  {
    match d
    case Arr(items) => 1 + SumContainers(items)
    case Obj(fields) => 1 + SumFieldContainers(fields)
    case _ => 0
  }

  function SumContainers(items: seq<Json>): nat
    decreases items, 1
  {
    if items == [] then 0 else Containers(items[0]) + SumContainers(items[1..])
  }

  function SumFieldContainers(fields: seq<Field>): nat
    decreases fields, 1
  {
    if fields == [] then 0 else Containers(fields[0].value) + SumFieldContainers(fields[1..])
  }

  /** 1 + 51 + ... + 51^(levels - 1). */
  function Most(levels: nat): nat {
    if levels == 0 then 0 else 1 + 51 * Most(levels - 1)
  }

  /** The levels of containers left at this depth. */
  function LevelsLeft(depth: nat): nat {
    if depth > SANITIZE_MAX_DEPTH then 0 else SANITIZE_MAX_DEPTH + 1 - depth
  }

  /** A value within the limits nests no deeper than the levels left, and has no more
      containers than a full tree of 51 children a node. */
  lemma {:induction false} WithinIsBounded(d: Json, depth: nat, breadth: nat)
    requires Within(d, depth, breadth)
    ensures Nesting(d) <= LevelsLeft(depth)
    ensures Containers(d) <= Most(LevelsLeft(depth))
    ensures breadth > SANITIZE_MAX_BREADTH ==> Containers(d) == 0
    decreases d, 0
  {
    if d.Arr? {
      ItemsAreBounded(d.items, depth + 1, 0);
      FullNode(depth, MaxNesting(d.items), SumContainers(d.items), 0);
    } else if d.Obj? {
      FieldsAreBounded(d.fields, depth + 1, 1);
      FullNode(depth, MaxFieldNesting(d.fields), SumFieldContainers(d.fields), 1);
    }
  }

  /** A container whose children, numbered from `breadth`, nest and sum up to at most this. */
  lemma FullNode(depth: nat, nesting: nat, sum: nat, breadth: nat)
    requires depth <= SANITIZE_MAX_DEPTH && breadth <= 1
    requires nesting <= LevelsLeft(depth + 1) && sum <= ChildrenLeft(breadth) * Most(LevelsLeft(depth + 1))
    ensures 1 + nesting <= LevelsLeft(depth) && 1 + sum <= Most(LevelsLeft(depth))
  {
    OneMoreLevel(depth);
  }

  /** Children numbered from `breadth`: those past the limit are no containers. */
  function ChildrenLeft(breadth: nat): nat {
    if breadth > SANITIZE_MAX_BREADTH then 0 else SANITIZE_MAX_BREADTH + 1 - breadth
  }

  lemma {:induction false} ItemsAreBounded(items: seq<Json>, depth: nat, breadth: nat)
    requires forall i :: 0 <= i < |items| ==> Within(items[i], depth, breadth + i)
    ensures MaxNesting(items) <= LevelsLeft(depth)
    ensures SumContainers(items) <= ChildrenLeft(breadth) * Most(LevelsLeft(depth))
    decreases items, 1
  {
    if items != [] {
      WithinIsBounded(items[0], depth, breadth);
      forall i | 0 <= i < |items[1..]| ensures Within(items[1..][i], depth, breadth + 1 + i) {
        assert items[1..][i] == items[i + 1];
      }
      ItemsAreBounded(items[1..], depth, breadth + 1);
      OneMoreChild(Containers(items[0]), SumContainers(items[1..]), breadth, Most(LevelsLeft(depth)));
    }
  }

  lemma {:induction false} FieldsAreBounded(fields: seq<Field>, depth: nat, breadth: nat)
    requires forall i :: 0 <= i < |fields| ==> Within(fields[i].value, depth, breadth + i)
    ensures MaxFieldNesting(fields) <= LevelsLeft(depth)
    ensures SumFieldContainers(fields) <= ChildrenLeft(breadth) * Most(LevelsLeft(depth))
    decreases fields, 1
  {
    if fields != [] {
      WithinIsBounded(fields[0].value, depth, breadth);
      forall i | 0 <= i < |fields[1..]| ensures Within(fields[1..][i].value, depth, breadth + 1 + i) {
        assert fields[1..][i] == fields[i + 1];
      }
      FieldsAreBounded(fields[1..], depth, breadth + 1);
      OneMoreChild(Containers(fields[0].value), SumFieldContainers(fields[1..]), breadth, Most(LevelsLeft(depth)));
    }
  }

  lemma OneMoreChild(first: nat, rest: nat, breadth: nat, most: nat)
    requires first <= most && rest <= ChildrenLeft(breadth + 1) * most
    requires breadth > SANITIZE_MAX_BREADTH ==> first == 0
    ensures first + rest <= ChildrenLeft(breadth) * most
  {
    if breadth <= SANITIZE_MAX_BREADTH {
      assert ChildrenLeft(breadth) == 1 + ChildrenLeft(breadth + 1);
      assert ChildrenLeft(breadth) * most == most + ChildrenLeft(breadth + 1) * most;
    }
  }

  lemma OneMoreLevel(depth: nat)
    requires depth <= SANITIZE_MAX_DEPTH
    ensures LevelsLeft(depth) == 1 + LevelsLeft(depth + 1)
    ensures Most(LevelsLeft(depth)) == 1 + 51 * Most(LevelsLeft(depth + 1))
  {
  }

  function Power51(n: nat): nat {
    if n == 0 then 1 else 51 * Power51(n - 1)
  }

  lemma {:induction false} MostIsGeometric(levels: nat)
    ensures 50 * Most(levels) == Power51(levels) - 1
  {
    if levels > 0 {
      MostIsGeometric(levels - 1);
    }
  }

  /** Whatever is sent in, the result nests at most 11 deep and has at most (51^11 - 1) / 50
      containers. */
  lemma ResultIsBounded(d: Json, stringify: Json -> string)
    ensures var r := Sanitise(d, 0, 0, stringify);
            && Nesting(r) <= SANITIZE_MAX_DEPTH + 1
            && 50 * Containers(r) <= Power51(SANITIZE_MAX_DEPTH + 1) - 1
  {
    var r := Sanitise(d, 0, 0, stringify);
    ResultIsSafe(d, 0, 0, stringify);
    WithinIsBounded(r, 0, 0);
    MostIsGeometric(SANITIZE_MAX_DEPTH + 1);
  }

  // ---------------------------------------------------------------- the bound is attained

  function Copies(d: Json, n: nat): seq<Json> { seq(n, _ => d) }

  /** Arrays of `width` arrays, so many levels deep. */
  function FullTree(levels: nat, width: nat): Json {
    if levels == 0 then Null else Arr(Copies(FullTree(levels - 1, width), width))
  }

  lemma {:induction false} CopiesCount(d: Json, n: nat)
    ensures SumContainers(Copies(d, n)) == n * Containers(d)
    ensures MaxNesting(Copies(d, n)) == if n == 0 then 0 else Nesting(d)
  {
    if n > 0 {
      assert Copies(d, n)[1..] == Copies(d, n - 1);
      CopiesCount(d, n - 1);
    }
  }

  lemma {:induction false} FullTreeShape(levels: nat, width: nat)
    requires width > 0
    ensures FloatFree(FullTree(levels, width)) && Nesting(FullTree(levels, width)) == levels
    ensures levels > 0 ==>
              Containers(FullTree(levels, width)) == 1 + width * Containers(FullTree(levels - 1, width))
  {
    if levels > 0 {
      FullTreeShape(levels - 1, width);
      CopiesCount(FullTree(levels - 1, width), width);
    }
  }

  lemma {:induction false} FullTreeSize(levels: nat, width: nat)
    requires width == SANITIZE_MAX_BREADTH + 1
    ensures Containers(FullTree(levels, width)) == Most(levels)
  {
    if levels > 0 {
      FullTreeShape(levels, width);
      FullTreeSize(levels - 1, width);
    }
  }

  lemma {:induction false} FullTreeWithin(levels: nat, depth: nat, breadth: nat, width: nat)
    requires levels <= LevelsLeft(depth) && breadth <= SANITIZE_MAX_BREADTH && width == SANITIZE_MAX_BREADTH + 1
    ensures Within(FullTree(levels, width), depth, breadth)
  {
    if levels > 0 {
      var items := Copies(FullTree(levels - 1, width), width);
      forall i | 0 <= i < |items| ensures Within(items[i], depth + 1, i) {
        FullTreeWithin(levels - 1, depth + 1, i, width);
      }
    }
  }

  lemma {:induction false} TowerWithin(levels: nat, depth: nat)
    ensures Within(FullTree(levels, 1), depth, 0) <==> levels <= LevelsLeft(depth)
  {
    if levels > 0 {
      TowerWithin(levels - 1, depth + 1);
      assert Copies(FullTree(levels - 1, 1), 1)[0] == FullTree(levels - 1, 1);
    }
  }

  /** A tower of arrays changes iff it is more than 11 high: too deep a container is not returned
      as it is. A float turns into its text however deep and far along it stands. */
  lemma TooDeepChanges(levels: nat, text: string, depth: nat, breadth: nat, stringify: Json -> string)
    ensures Sanitise(FullTree(levels, 1), 0, 0, stringify) != FullTree(levels, 1) <==> levels > SANITIZE_MAX_DEPTH + 1
    ensures Sanitise(Float(text), depth, breadth, stringify) == Str(text)
  {
    IdentityIff(FullTree(levels, 1), 0, 0, stringify);
    TowerWithin(levels, 0);
    FullTreeShape(levels, 1);
  }

  /** The full tree of 11 levels is left as it is and has exactly as many containers as the
      bound allows. */
  lemma BoundIsAttained(stringify: Json -> string, levels: nat, width: nat)
    requires levels == SANITIZE_MAX_DEPTH + 1 && width == SANITIZE_MAX_BREADTH + 1
    ensures var d := FullTree(levels, width);
            && Sanitise(d, 0, 0, stringify) == d
            && Nesting(d) == levels
            && 50 * Containers(d) == Power51(levels) - 1
  {
    var d := FullTree(levels, width);
    FullTreeShape(levels, width);
    FullTreeSize(levels, width);
    FullTreeWithin(levels, 0, 0, width);
    IdentityIff(d, 0, 0, stringify);
    MostIsGeometric(levels);
  }
}

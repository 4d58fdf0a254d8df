/**
 JSON Patch (RFC 6902) on the annotation map of a node, and the patch builders of k8s/node.go.

 An annotation value is kept as `Stamp(t)` when it is a string that time.Parse(time.RFC3339, ..) accepts,
 t being the instant in nanoseconds, and as `Text` otherwise (the empty string included).
 */
module JsonPatch {
  import opened Text
  import JsonPointer

  datatype Value = Stamp(instant: int) | Text(text: string)

  type Annotations = map<string, Value>

  /** JsonPatchString with op "replace" or "remove". */
  datatype Op = Replace(path: string, value: Value) | Remove(path: string)

  /** Section 4.3 of RFC 6902 wants the target of "replace" to exist; the autopilot needs an API server that
      creates it instead. */
  datatype ReplaceRule = Upsert | Strict

  const ANNOTATIONS := "/metadata/annotations/"

  /** The JSON Pointer to an annotation of a node. */
  function AnnotationPath(name: string): string {
    ANNOTATIONS + JsonPointer.Escape(name)
  }

  datatype Target = Annotation(name: string) | Elsewhere

  /** Evaluating a JSON Pointer that is meant for an annotation. */
  function Resolve(path: string): Target {
    if ANNOTATIONS <= path && '/' !in path[|ANNOTATIONS|..]
    then Annotation(JsonPointer.Unescape(path[|ANNOTATIONS|..]))
    else Elsewhere
  }

  datatype Patched = Applied(result: Annotations) | Refused

  function ApplyOp(rule: ReplaceRule, doc: Annotations, op: Op): Patched {
    match Resolve(op.path)
    case Elsewhere => Refused
    case Annotation(name) =>
      match op
      case Replace(_, value) => if rule.Strict? && name !in doc then Refused else Applied(doc[name := value])
      case Remove(_) => if name in doc then Applied(doc - {name}) else Refused
  }

  /** Section 5 of RFC 6902: one refused operation refuses the patch as a whole. */
  function Apply(rule: ReplaceRule, doc: Annotations, ops: seq<Op>): Patched
    decreases ops
  {
    if ops == [] then Applied(doc)
    else match ApplyOp(rule, doc, ops[0])
         case Refused => Refused
         case Applied(next) => Apply(rule, next, ops[1..])
  }

  /** What a patch means for the annotation map, free of paths and orders. */
  datatype Change = Set(values: Annotations) | Drop(names: set<string>)

  function Effect(doc: Annotations, change: Change): Patched {
    match change
    case Set(values) => Applied(doc + values)
    case Drop(names) => if names <= doc.Keys then Applied(doc - names) else Refused
  }

  ghost predicate Implements(ops: seq<Op>, change: Change) {
    forall doc :: Apply(Upsert, doc, ops) == Effect(doc, change)
  }

  lemma PathResolves(name: string)
    ensures Resolve(AnnotationPath(name)) == Annotation(name)
  {
    var path := AnnotationPath(name);
    assert path[|ANNOTATIONS|..] == JsonPointer.Escape(name);
    JsonPointer.EscapeIsToken(name);
    JsonPointer.EscapeRoundTrip(name);
  }

  // ---- setting annotations ----

  function SetOps(order: seq<string>, values: Annotations): seq<Op>
    requires forall name <- order :: name in values
  {
    seq(|order|, i requires 0 <= i < |order| => Replace(AnnotationPath(order[i]), values[order[i]]))
  }

  predicate Distinct(names: seq<string>) {
    forall i, j :: 0 <= i < j < |names| ==> names[i] != names[j]
  }

  function NameSet(names: seq<string>): set<string> {
    set name <- names
  }

  /** `order` is one order in which a Go `range` may visit the map. */
  ghost predicate IterationOrder(order: seq<string>, values: Annotations) {
    Distinct(order) && NameSet(order) == values.Keys
  }

  function Only(values: Annotations, names: set<string>): Annotations {
    map name | name in values && name in names :: values[name]
  }

  lemma OnlyStep(doc: Annotations, values: Annotations, name: string, others: set<string>)
    requires name in values
    ensures doc[name := values[name]] + Only(values, others) == doc + Only(values, {name} + others)
  {
  }

  lemma OnlyNothing(doc: Annotations, values: Annotations)
    ensures doc + Only(values, {}) == doc
  {
  }

  lemma SetHead(rule: ReplaceRule, doc: Annotations, order: seq<string>, values: Annotations)
    requires order != [] && forall name <- order :: name in values
    ensures NameSet(order) == {order[0]} + NameSet(order[1..])
    ensures Apply(rule, doc, SetOps(order, values)) ==
            if rule.Strict? && order[0] !in doc then Refused
            else Apply(rule, doc[order[0] := values[order[0]]], SetOps(order[1..], values))
  {
    PathResolves(order[0]);
    assert SetOps(order, values)[1..] == SetOps(order[1..], values);
    assert order == [order[0]] + order[1..];
  }

  lemma {:induction false} SetOpsUpsert(doc: Annotations, order: seq<string>, values: Annotations)
    requires forall name <- order :: name in values
    ensures Apply(Upsert, doc, SetOps(order, values)) == Applied(doc + Only(values, NameSet(order)))
    decreases order
  {
    if order == [] {
      OnlyNothing(doc, values);
    } else {
      SetHead(Upsert, doc, order, values);
      SetOpsUpsert(doc[order[0] := values[order[0]]], order[1..], values);
      OnlyStep(doc, values, order[0], NameSet(order[1..]));
    }
  }

  /** Every iteration order gives the same annotations: the named keys changed, all others untouched. */
  lemma SetAnyOrder(order: seq<string>, values: Annotations)
    requires IterationOrder(order, values)
    ensures forall name <- order :: name in values
    ensures Implements(SetOps(order, values), Set(values))
  {
    forall doc: Annotations ensures Apply(Upsert, doc, SetOps(order, values)) == Effect(doc, Set(values)) {
      SetOpsUpsert(doc, order, values);
      assert Only(values, NameSet(order)) == values;
    }
  }

  lemma {:induction false} SetOpsStrict(doc: Annotations, order: seq<string>, values: Annotations)
    requires forall name <- order :: name in values
    ensures Apply(Strict, doc, SetOps(order, values)) ==
            if NameSet(order) <= doc.Keys then Applied(doc + Only(values, NameSet(order))) else Refused
    decreases order
  {
    if order == [] {
      OnlyNothing(doc, values);
    } else {
      SetHead(Strict, doc, order, values);
      if order[0] in doc {
        SetOpsStrict(doc[order[0] := values[order[0]]], order[1..], values);
        assert doc[order[0] := values[order[0]]].Keys == doc.Keys;
        OnlyStep(doc, values, order[0], NameSet(order[1..]));
      }
    }
  }

  /** Under the rule of RFC 6902 itself the patch goes through exactly when every annotation exists already. */
  lemma StrictSetIff(doc: Annotations, order: seq<string>, values: Annotations)
    requires IterationOrder(order, values)
    ensures forall name <- order :: name in values
    ensures Apply(Strict, doc, SetOps(order, values)).Applied? <==> values.Keys <= doc.Keys
    ensures values.Keys <= doc.Keys ==> Apply(Strict, doc, SetOps(order, values)) == Applied(doc + values)
  {
    SetOpsStrict(doc, order, values);
    assert Only(values, NameSet(order)) == values;
  }

  // ---- removing annotations ----

  function RemoveOps(names: seq<string>): seq<Op> {
    seq(|names|, i requires 0 <= i < |names| => Remove(AnnotationPath(names[i])))
  }

  lemma {:induction false} RemoveAllOrNone(doc: Annotations, names: seq<string>)
    ensures Apply(Upsert, doc, RemoveOps(names)) == Apply(Strict, doc, RemoveOps(names))
    ensures Apply(Strict, doc, RemoveOps(names)) ==
            if Distinct(names) && NameSet(names) <= doc.Keys then Applied(doc - NameSet(names)) else Refused
    decreases names
  {
    if names == [] {
      assert doc - NameSet(names) == doc;
    } else {
      var ops, name, rest := RemoveOps(names), names[0], names[1..];
      PathResolves(name);
      assert ops[1..] == RemoveOps(rest);
      assert names == [name] + rest;
      assert NameSet(names) == {name} + NameSet(rest);
      if name in doc {
        RemoveAllOrNone(doc - {name}, rest);
        assert doc - {name} - NameSet(rest) == doc - NameSet(names);
        DistinctHead(name, rest);
      }
    }
  }

  lemma DistinctHead(name: string, rest: seq<string>)
    ensures Distinct([name] + rest) <==> name !in rest && Distinct(rest)
  {
    var all := [name] + rest;
    if Distinct(all) {
      forall i, j | 0 <= i < j < |rest| ensures rest[i] != rest[j] {
        assert all[i + 1] != all[j + 1];
      }
    }
    if name in rest {
      var i :| 0 <= i < |rest| && rest[i] == name;
      assert all[0] == all[i + 1];
    }
  }

  lemma RemoveImplements(names: seq<string>)
    requires Distinct(names)
    ensures Implements(RemoveOps(names), Drop(NameSet(names)))
  {
    forall doc: Annotations ensures Apply(Upsert, doc, RemoveOps(names)) == Effect(doc, Drop(NameSet(names))) {
      RemoveAllOrNone(doc, names);
    }
  }

  // ---- the builders ----

  lemma NoOps(values: Annotations)
    ensures SetOps([], values) == [] && NameSet([]) == {} && Distinct([])
  {
  }

  lemma OneMoreOp(order: seq<string>, values: Annotations, name: string)
    requires Distinct(order) && name !in NameSet(order) && name in values && forall n <- order :: n in values
    ensures NameSet(order + [name]) == NameSet(order) + {name} && Distinct(order + [name])
    ensures forall n <- order + [name] :: n in values
    ensures SetOps(order + [name], values) == SetOps(order, values) + [Replace(AnnotationPath(name), values[name])]
  {
    hide AnnotationPath;
  }

  lemma SetOpsAre(order: seq<string>, values: Annotations)
    requires forall name <- order :: name in values
    ensures |SetOps(order, values)| == |order|
    ensures forall op <- SetOps(order, values) :: op.Replace? && exists name <- values ::
              op.path == "/metadata/annotations/" + JsonPointer.Escape(name) && op.value == values[name]
  {
    hide JsonPointer.Escape;
    forall op <- SetOps(order, values)
      ensures op.Replace? && exists name <- values ::
                op.path == "/metadata/annotations/" + JsonPointer.Escape(name) && op.value == values[name] {
      var i :| 0 <= i < |order| && SetOps(order, values)[i] == op;
      assert order[i] in order;
    }
  }

  /** AnnotationsSet: the loop visits the map in an order nobody chooses. */
  method BuildSet(values: Annotations) returns (ops: seq<Op>)
    ensures Implements(ops, Set(values))
    ensures |ops| == |values|
    ensures forall op <- ops :: op.Replace? && exists name <- values ::
              op.path == "/metadata/annotations/" + JsonPointer.Escape(name) && op.value == values[name]
  {
    hide JsonPointer.Escape, Implements, SetOps, NameSet, Distinct, AnnotationPath;
    NoOps(values);
    ops := [];
    ghost var order: seq<string> := [];
    var left := values.Keys;
    while left != {}
      invariant left <= values.Keys && NameSet(order) == values.Keys - left && Distinct(order)
      invariant forall name <- order :: name in values
      invariant ops == SetOps(order, values)
      invariant |order| + |left| == |values.Keys|
      decreases left
    {
      var name :| name in left;
      ops := ops + [Replace(AnnotationPath(name), values[name])];
      OneMoreOp(order, values, name);
      order := order + [name];
      left := left - {name};
    }
    SetAnyOrder(order, values);
    SetOpsAre(order, values);
  }

  /** AnnotationRemove and AnnotationLockRemove. */
  method BuildRemove(names: seq<string>) returns (ops: seq<Op>)
    ensures |ops| == |names|
    ensures forall i :: 0 <= i < |ops| ==> ops[i] == Remove("/metadata/annotations/" + JsonPointer.Escape(names[i]))
    ensures Distinct(names) ==> Implements(ops, Drop(NameSet(names)))
  {
    ops := [];
    for i := 0 to |names|
      invariant ops == RemoveOps(names[..i])
    {
      ops := ops + [Remove(AnnotationPath(names[i]))];
    }
    assert names[..|names|] == names;
    if Distinct(names) {
      RemoveImplements(names);
    }
  }
}

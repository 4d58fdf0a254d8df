/** k8s/node.go: Kubernetes nodes, their health, and the lock annotations. */
module Nodes {
  import opened Text
  import opened JsonPatch
  import JsonPointer

  /** Nanoseconds in a second. */
  const SECOND := 1_000_000_000

  const AUTOSCALER := "cluster-autoscaler.kubernetes.io"
  const DISABLED := "scale-down-disabled"
  const SCALE_DOWN_EXPIRE := AUTOSCALER + "/" + (DISABLED + "-expire")
  const SCALE_DOWN_DISABLED := AUTOSCALER + "/" + DISABLED

  datatype Condition = Condition(kind: string, status: string, heartbeat: int)

  /** The fields of a v1.Node that the autopilot reads. */
  datatype NodeObject = NodeObject(
    name: string, providerId: string, annotations: Annotations, unschedulable: bool, conditions: seq<Condition>)

  predicate DistinctNames(nodes: seq<NodeObject>) {
    forall i, j :: 0 <= i < j < |nodes| ==> nodes[i].name != nodes[j].name
  }

  function Names(nodes: seq<NodeObject>): set<string> {
    set node <- nodes :: node.name
  }

  lemma TailNames(nodes: seq<NodeObject>)
    requires nodes != [] && DistinctNames(nodes)
    ensures DistinctNames(nodes[1..])
    ensures nodes[0].name !in Names(nodes[1..])
    ensures Names(nodes) == {nodes[0].name} + Names(nodes[1..])
  {
    assert nodes == [nodes[0]] + nodes[1..];
    forall node <- nodes[1..] ensures node.name != nodes[0].name {
      var i :| 0 <= i < |nodes[1..]| && nodes[1..][i] == node;
      assert nodes[i + 1] == node;
    }
  }

  // ---- health ----

  /** The zero time.Time, 1 January of year 1. */
  const ZERO_TIME := -62_135_596_800 * SECOND

  datatype Health = Health(ready: bool, heartbeat: int)

  predicate IsReady(c: Condition) {
    EqualFold(c.kind, "Ready") && EqualFold(c.status, "True")
  }

  /** GetHealthStatus overwrites its result at every condition, so the last condition decides alone. */
  method GetHealthStatus(conditions: seq<Condition>) returns (h: Health)
    ensures h == HealthOf(conditions)
    ensures conditions == [] ==> h == Health(false, -62_135_596_800 * 1_000_000_000)
    ensures conditions != [] ==>
              var last := conditions[|conditions| - 1];
              && h.heartbeat == last.heartbeat
              && (h.ready <==> EqualFold(last.kind, "Ready") && EqualFold(last.status, "True"))
  {
    h := Health(false, ZERO_TIME);
    for i := 0 to |conditions|
      invariant h == HealthOf(conditions[..i])
    {
      if EqualFold(conditions[i].kind, "Ready") && EqualFold(conditions[i].status, "True") {
        h := Health(true, conditions[i].heartbeat);
      } else {
        h := Health(false, conditions[i].heartbeat);
      }
    }
    assert conditions[..|conditions|] == conditions;
  }

  function HealthOf(conditions: seq<Condition>): Health {
    if conditions == [] then Health(false, ZERO_TIME)
    else var last := conditions[|conditions| - 1]; Health(IsReady(last), last.heartbeat)
  }

  /** What a node controller would call ready: some condition says so. */
  predicate SaysReady(conditions: seq<Condition>) {
    exists c <- conditions :: IsReady(c)
  }

  /** No two conditions are of one kind, as in every status the API server keeps. */
  predicate DistinctKinds(conditions: seq<Condition>) {
    forall i, j :: 0 <= i < j < |conditions| ==> !EqualFold(conditions[i].kind, conditions[j].kind)
  }

  /** The code agrees with "some condition says ready" exactly if none does, or "Ready" stands at the end of the list:
      its place decides, whatever the other conditions say. In a list that has kinds twice the condition at the end must
      say ready itself. */
  lemma LastConditionDecides(conditions: seq<Condition>)
    ensures HealthOf(conditions).ready ==> SaysReady(conditions)
    ensures HealthOf(conditions).ready == SaysReady(conditions) <==>
            (SaysReady(conditions) ==> IsReady(conditions[|conditions| - 1]))
    ensures DistinctKinds(conditions) ==>
              (HealthOf(conditions).ready == SaysReady(conditions) <==>
               !SaysReady(conditions) || EqualFold(conditions[|conditions| - 1].kind, "Ready"))
  {
    if conditions != [] {
      assert conditions[|conditions| - 1] in conditions;
    }
    if DistinctKinds(conditions) && SaysReady(conditions) {
      var c :| c in conditions && IsReady(c);
      var i :| 0 <= i < |conditions| && conditions[i] == c;
      OneReadyKind(conditions, i);
    }
  }

  /** A ready condition is the only one of its kind. */
  lemma OneReadyKind(conditions: seq<Condition>, i: nat)
    requires DistinctKinds(conditions) && i < |conditions| && IsReady(conditions[i])
    ensures EqualFold(conditions[|conditions| - 1].kind, "Ready") ==> i == |conditions| - 1
  {
  }

  /** A ready node is taken for unhealthy as soon as any other condition is listed after "Ready". */
  lemma ReadyNodeCountedUnhealthy(before: seq<Condition>, ready: Condition, other: Condition)
    requires IsReady(ready) && !EqualFold(other.kind, "Ready")
    ensures var conditions := before + [ready, other];
            SaysReady(conditions) && !HealthOf(conditions).ready
  {
    assert ready in before + [ready, other];
  }

  // ---- lock annotations ----

  /** AnnotationLockCheck computes time.Since(lockTime); its callers want the time that remains. */
  datatype Reading = Since | Remaining

  function LockDuration(reading: Reading, lockTime: int, now: int): int {
    match reading
    case Since => now - lockTime
    case Remaining => lockTime - now
  }

  datatype LockCheck = NoAnnotation | Unreadable | Duration(ns: int)

  function AnnotationLockCheck(reading: Reading, annotations: Annotations, name: string, now: int): LockCheck {
    if name !in annotations then NoAnnotation
    else match annotations[name]
         case Text(_) => Unreadable
         case Stamp(lockTime) => Duration(LockDuration(reading, lockTime, now))
  }

  /** The annotation exists and the callers treat it as expired. */
  predicate Outdated(check: LockCheck) {
    check.Unreadable? || (check.Duration? && check.ns <= 0)
  }

  /** The annotation is there, but is not a time, or one that has come already; which Since takes for one that is still
      to come. */
  predicate TimeIsUp(reading: Reading, annotations: Annotations, name: string, now: int) {
    && name in annotations
    && match annotations[name]
       case Text(_) => true
       case Stamp(time) => if reading.Since? then now <= time else time <= now
  }

  lemma OutdatedIs(reading: Reading, annotations: Annotations, name: string, now: int)
    ensures TimeIsUp(reading, annotations, name, now) <==> Outdated(AnnotationLockCheck(reading, annotations, name, now))
  {
  }

  lemma NoAnnotationIs(reading: Reading, annotations: Annotations, name: string, now: int)
    ensures name !in annotations <==> AnnotationLockCheck(reading, annotations, name, now).NoAnnotation?
    ensures name !in annotations ==> !TimeIsUp(reading, annotations, name, now)
  {
  }

  /** Format(time.RFC3339) drops the fraction of the second. */
  function Rfc3339(t: int): Value {
    Stamp(t - t % SECOND)
  }

  lemma TruncationLosesLessThanASecond(t: int)
    ensures Rfc3339(t).Stamp?
    ensures t - SECOND < Rfc3339(t).instant <= t
    ensures Rfc3339(t).instant % SECOND == 0
  {
    assert t == SECOND * (t / SECOND) + t % SECOND;
    assert (SECOND * (t / SECOND)) % SECOND == 0;
  }

  /** The annotations AnnotationLockSet asks for if it reads the clock at `now` for the lock and at `later` for the
      expiry of the scale-down ban; `scaledown` is the autoscaler lock time. */
  function LockValuesAt(name: string, dur: int, scaledown: int, now: int, later: int): Annotations {
    if scaledown > 0
    then map[name := Rfc3339(now + dur)]
         [SCALE_DOWN_EXPIRE := Rfc3339(later + scaledown)][SCALE_DOWN_DISABLED := Text("true")]
    else map[name := Rfc3339(now + dur)]
  }

  /** The same at one instant. */
  function LockValues(name: string, dur: int, scaledown: int, now: int): Annotations {
    LockValuesAt(name, dur, scaledown, now, now)
  }

  lemma LockValueKeys(name: string, dur: int, scaledown: int, now: int, later: int)
    ensures LockValuesAt(name, dur, scaledown, now, later).Keys ==
            {name} + if scaledown > 0 then {SCALE_DOWN_EXPIRE, SCALE_DOWN_DISABLED} else {}
  {
  }

  /** AnnotationLockSet: the patch of one or three operations, with the two readings of the clock. */
  method BuildLockSet(name: string, dur: int, scaledown: int, now: int, later: int) returns (ops: seq<Op>)
    ensures Implements(ops, Set(LockValuesAt(name, dur, scaledown, now, later)))
    ensures |ops| == if scaledown > 0 then 3 else 1
    ensures ops[0] == Replace("/metadata/annotations/" + JsonPointer.Escape(name), Stamp(now + dur - (now + dur) % 1_000_000_000))
    ensures scaledown > 0 ==>
              && ops[1] == Replace("/metadata/annotations/"
                                   + ("cluster-autoscaler.kubernetes.io" + "~1" + ("scale-down-disabled" + "-expire")),
                                   Stamp(later + scaledown - (later + scaledown) % 1_000_000_000))
              && ops[2] == Replace("/metadata/annotations/" + ("cluster-autoscaler.kubernetes.io" + "~1" + "scale-down-disabled"),
                                   Text("true"))
  {
    ScaleDownPaths();
    ops := [Replace(AnnotationPath(name), Rfc3339(now + dur))];
    OneReplace(name, Rfc3339(now + dur));
    if scaledown > 0 {
      ops := ops + [Replace(AnnotationPath(SCALE_DOWN_EXPIRE), Rfc3339(later + scaledown))];
      ops := ops + [Replace(AnnotationPath(SCALE_DOWN_DISABLED), Text("true"))];
      ThreeReplaces(name, Rfc3339(now + dur), SCALE_DOWN_EXPIRE, Rfc3339(later + scaledown),
                    SCALE_DOWN_DISABLED, Text("true"));
    }
  }

  lemma PlainNames()
    ensures JsonPointer.Plain("cluster-autoscaler.kubernetes.io") && JsonPointer.Plain("scale-down-disabled")
    ensures JsonPointer.Plain("-expire")
  {
  }

  /** The paths of the autoscaler annotations, whose slash is escaped. */
  lemma ScaleDownPaths()
    ensures AnnotationPath(SCALE_DOWN_EXPIRE) ==
            "/metadata/annotations/" + ("cluster-autoscaler.kubernetes.io" + "~1" + ("scale-down-disabled" + "-expire"))
    ensures AnnotationPath(SCALE_DOWN_DISABLED) ==
            "/metadata/annotations/" + ("cluster-autoscaler.kubernetes.io" + "~1" + "scale-down-disabled")
  {
    hide JsonPointer.Escape;
    PlainNames();
    JsonPointer.EscapeOneSlash("cluster-autoscaler.kubernetes.io", "scale-down-disabled" + "-expire");
    JsonPointer.EscapeOneSlash("cluster-autoscaler.kubernetes.io", "scale-down-disabled");
  }

  lemma OneReplace(a: string, va: Value)
    ensures Implements([Replace(AnnotationPath(a), va)], Set(map[a := va]))
  {
    forall doc ensures Apply(Upsert, doc, [Replace(AnnotationPath(a), va)]) == Effect(doc, Set(map[a := va])) {
      ReplaceStep(doc, a, va, []);
      assert [Replace(AnnotationPath(a), va)] + [] == [Replace(AnnotationPath(a), va)];
      assert doc[a := va] == doc + map[a := va];
    }
  }

  /** Replacements take effect in order, so that of two for one name the later one counts. */
  lemma ThreeReplaces(a: string, va: Value, b: string, vb: Value, c: string, vc: Value)
    ensures Implements([Replace(AnnotationPath(a), va)] + [Replace(AnnotationPath(b), vb)]
                       + [Replace(AnnotationPath(c), vc)],
                       Set(map[a := va][b := vb][c := vc]))
  {
    var p, q, r := Replace(AnnotationPath(a), va), Replace(AnnotationPath(b), vb), Replace(AnnotationPath(c), vc);
    var change := Set(map[a := va][b := vb][c := vc]);
    forall doc ensures Apply(Upsert, doc, [p] + [q] + [r]) == Effect(doc, change) {
      ReplaceStep(doc, a, va, [q] + ([r] + []));
      ReplaceStep(doc[a := va], b, vb, [r] + []);
      ReplaceStep(doc[a := va][b := vb], c, vc, []);
      assert [p] + [q] + [r] == [p] + ([q] + ([r] + []));
      UpdateOutside(doc, map[], a, va);
      UpdateOutside(doc, map[a := va], b, vb);
      UpdateOutside(doc, map[a := va][b := vb], c, vc);
    }
  }

  lemma UpdateOutside(doc: Annotations, values: Annotations, name: string, value: Value)
    ensures doc + values[name := value] == (doc + values)[name := value]
    ensures doc + map[] == doc && map[][name := value] == map[name := value]
  {
  }

  lemma ReplaceStep(doc: Annotations, name: string, value: Value, rest: seq<Op>)
    ensures Apply(Upsert, doc, [Replace(AnnotationPath(name), value)] + rest) == Apply(Upsert, doc[name := value], rest)
  {
    PathResolves(name);
    assert ([Replace(AnnotationPath(name), value)] + rest)[1..] == rest;
  }
}

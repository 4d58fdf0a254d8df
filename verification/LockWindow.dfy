/**
 After a repair whose lock annotation was written, the node is left alone until that lock time: through flushes of the
 cache, healthy nodes giving locks up, the janitor's sweeps, the other job, and restarts of the process.
 */
module LockWindow {
  import opened Options
  import opened JsonPatch
  import opened Nodes
  import opened Settings
  import opened TimedCaches
  import opened Jobs
  import opened World
  import opened Provisioning

  /** The cache keeps the node locked until `until` at least. */
  predicate Held(locks: Cache<bool>, name: string, until: int) {
    name in locks && (locks[name].expiry.Never? || locks[name].expiry.instant >= until)
  }

  predicate Stamped(cfg: Config, kind: Kind, annotations: Annotations, until: int) {
    && cfg.Job(kind).lockAnnotation in annotations
    && annotations[cfg.Job(kind).lockAnnotation].Stamp?
    && annotations[cfg.Job(kind).lockAnnotation].instant >= until
  }

  /** While the cache is rebuilt: the node is ahead with its lock annotation, or its lock is back. */
  predicate Rebuilding(cfg: Config, kind: Kind, locks: Cache<bool>, todo: seq<NodeObject>, name: string, until: int) {
    if name in Names(todo)
    then name !in locks && forall node <- todo :: node.name == name ==> Stamped(cfg, kind, node.annotations, until)
    else Held(locks, name, until)
  }

  predicate HeldIfAhead(locks: Cache<bool>, todo: seq<NodeObject>, name: string, until: int) {
    name in Names(todo) ==> Held(locks, name, until)
  }

  /** What the place of the repair job says about a node locked until `until`, before that time. */
  predicate Guarded(cfg: Config, now: int, j: Job, name: string, until: int) {
    match j.stage
    case Rest(place) => place.Idle? || place.AutoDone? || Held(j.locks, name, until)
    case Head(loop, todo) =>
      (match loop
       case AutoUncordon => true
       case Sync => Rebuilding(cfg, Repair, j.locks, todo, name, until)
       case Cleanup => Held(j.locks, name, until)
       case RepairRun => HeldIfAhead(j.locks, todo, name, until)
       case UpdateRun => true)
    case Busy(task, node, todo) =>
      (match task
       case AutoUncordoning => true
       case Restoring(dur) =>
         if node.name == name then name !in j.locks && now + dur >= until
         else Rebuilding(cfg, Repair, j.locks, todo, name, until)
       case Dropping => node.name != name && Rebuilding(cfg, Repair, j.locks, todo, name, until)
       case CleanDropping => Held(j.locks, name, until)
       case Due => HeldIfAhead(j.locks, [node] + todo, name, until)
       case _ => node.name != name && HeldIfAhead(j.locks, todo, name, until))
  }

  ghost predicate Protected(cfg: Config, w: World, name: string, until: int) {
    w.now < until ==>
      && name in w.nodes && Stamped(cfg, Repair, w.nodes[name].annotations, until)
      && Guarded(cfg, w.now, w.repair, name, until)
  }

  /** Others leave the node and its lock annotation alone. */
  predicate Spares(cfg: Config, name: string, change: Outside) {
    match change
    case Annotated(n, key, _) => n != name || key != cfg.repair.lockAnnotation
    case Joined(node) => node.name != name
    case Left(n) => n != name
    case _ => true
  }

  /** syncNodeLockCache looks at the lock of the node before its time. */
  predicate LooksEarly(w: World, h: Happening, name: string, until: int) {
    && h.what.ByJob? && h.what.kind.Repair? && h.what.event.Local? && h.at < until
    && w.repair.stage.Head? && w.repair.stage.loop.Sync?
    && w.repair.stage.todo != [] && w.repair.stage.todo[0].name == name
  }

  /** The list a tick starts from is current; with the literal reading of the check, no tick looks at the lock early. */
  ghost predicate Assumed(cfg: Config, w: World, h: Happening, name: string, until: int) {
    && (cfg.reading.Remaining? || !LooksEarly(w, h, name, until))
    && match h.what
       case ByJob(kind, e, _) =>
         kind.Repair? && e.Listed? && w.repair.stage == Rest(Idle) ==> Current(e.view, w.nodes)
       case Died => true
       case ByOthers(change) => Spares(cfg, name, change)
  }

  // ---- the cache ----

  lemma SweptHeld(locks: Cache<bool>, name: string, until: int, at: int)
    requires at < until && Held(locks, name, until)
    ensures Held(Sweep(locks, at), name, until)
  {
  }

  lemma SweptRebuilding(cfg: Config, kind: Kind, locks: Cache<bool>, todo: seq<NodeObject>, name: string, until: int, at: int)
    requires at < until && Rebuilding(cfg, kind, locks, todo, name, until)
    ensures Rebuilding(cfg, kind, Sweep(locks, at), todo, name, until)
  {
  }

  lemma SweptGuarded(cfg: Config, now: int, j: Job, name: string, until: int, at: int)
    requires now <= at < until && Guarded(cfg, now, j, name, until)
    ensures Guarded(cfg, at, j.(locks := Sweep(j.locks, at)), name, until)
  {
    hide Sweep, Held, Rebuilding;
    if Held(j.locks, name, until) {
      SweptHeld(j.locks, name, until, at);
    }
    if Rebuilding(cfg, Repair, j.locks, Todo(j.stage), name, until) {
      SweptRebuilding(cfg, Repair, j.locks, Todo(j.stage), name, until, at);
    }
    SweptAbsent(j.locks, name, at);
  }

  lemma SweptAbsent(locks: Cache<bool>, name: string, at: int)
    ensures name !in locks ==> name !in Sweep(locks, at)
  {
  }

  // ---- one step of the repair job ----

  lemma SyncGuarded(cfg: Config, at: int, locks: Cache<bool>, node: NodeObject, rest: seq<NodeObject>,
                    name: string, until: int)
    requires at < until && DistinctNames([node] + rest) && Rebuilding(cfg, Repair, locks, [node] + rest, name, until)
    requires node.name == name ==> cfg.reading.Remaining?
    ensures Guarded(cfg, at, LoopStep(cfg, Repair, at, locks, Sync, node, rest), name, until)
  {
    hide DistinctNames;
    TailNames([node] + rest);
    assert ([node] + rest)[1..] == rest;
    assert node in [node] + rest;
    if node.name != name {
      RebuildingTail(cfg, Repair, locks, node, rest, name, until);
    }
  }

  lemma RebuildingTail(cfg: Config, kind: Kind, locks: Cache<bool>, node: NodeObject, rest: seq<NodeObject>, name: string, until: int)
    requires Rebuilding(cfg, kind, locks, [node] + rest, name, until) && node.name != name
    ensures Rebuilding(cfg, kind, locks, rest, name, until)
    ensures Rebuilding(cfg, kind, locks - {node.name}, rest, name, until)
  {
    assert Names([node] + rest) == {node.name} + Names(rest);
  }

  lemma ScanGuarded(cfg: Config, at: int, locks: Cache<bool>, node: NodeObject, rest: seq<NodeObject>,
                    name: string, until: int)
    requires at < until && DistinctNames([node] + rest) && HeldIfAhead(locks, [node] + rest, name, until)
    ensures Guarded(cfg, at, LoopStep(cfg, Repair, at, locks, RepairRun, node, rest), name, until)
  {
    hide HealthOf, Overdue;
    TailNames([node] + rest);
    assert ([node] + rest)[1..] == rest;
  }

  lemma HeadGuarded(cfg: Config, now: int, at: int, j: Job, name: string, until: int)
    requires now <= at < until && Guarded(cfg, now, j, name, until)
    requires Tidy(j.stage) && Proper(cfg, Repair, j.stage) && j.stage.Head?
    requires j.stage.loop.Sync? && j.stage.todo != [] && j.stage.todo[0].name == name ==> cfg.reading.Remaining?
    ensures Guarded(cfg, at, LocalStep(cfg, Repair, at, j).value, name, until)
  {
    hide Check, HealthOf, Overdue, Parsed;
    var todo := j.stage.todo;
    if todo != [] {
      assert todo == [todo[0]] + todo[1..];
      if j.stage.loop.Sync? {
        SyncGuarded(cfg, at, j.locks, todo[0], todo[1..], name, until);
      } else if j.stage.loop.RepairRun? {
        ScanGuarded(cfg, at, j.locks, todo[0], todo[1..], name, until);
      }
    } else if Held(j.locks, name, until) {
      SweptHeld(j.locks, name, until, at);
    }
  }

  lemma AddedHeld(locks: Cache<bool>, other: string, dur: int, name: string, until: int, at: int)
    ensures Held(locks, name, until) && other != name ==>
              Held(Added(locks, other, true, dur, LOCK_LIFE, at), name, until)
    ensures name !in locks && other != name ==> name !in Added(locks, other, true, dur, LOCK_LIFE, at)
    ensures other == name && name !in locks && at + dur >= until > at ==>
              Held(Added(locks, other, true, dur, LOCK_LIFE, at), name, until)
  {
  }

  lemma DueGuarded(cfg: Config, at: int, locks: Cache<bool>, node: NodeObject, todo: seq<NodeObject>,
                   name: string, until: int)
    requires at < until && HeldIfAhead(locks, [node] + todo, name, until)
    ensures Guarded(cfg, at, TaskStep(cfg, Repair, at, locks, Due, node, todo).value, name, until)
  {
    assert Names([node] + todo) == {node.name} + Names(todo);
  }

  lemma BusyGuarded(cfg: Config, now: int, at: int, j: Job, name: string, until: int)
    requires now <= at < until && Guarded(cfg, now, j, name, until)
    requires Tidy(j.stage) && Proper(cfg, Repair, j.stage) && j.stage.Busy? && LocalStep(cfg, Repair, at, j).Some?
    ensures Guarded(cfg, at, LocalStep(cfg, Repair, at, j).value, name, until)
  {
    hide Parsed, RepairCall, LockValues, Added, Held, Live, Stamped, DistinctNames;
    var task, node, todo := j.stage.task, j.stage.node, j.stage.todo;
    match task
    case Restoring(dur) => AddedHeld(j.locks, node.name, dur, name, until, at);
    case Locking(dur, _) => AddedHeld(j.locks, node.name, dur, name, until, at);
    case Due => DueGuarded(cfg, at, j.locks, node, todo, name, until);
    case _ =>
  }

  lemma AnswerGuarded(cfg: Config, now: int, at: int, locks: Cache<bool>, task: Task, node: NodeObject,
                      todo: seq<NodeObject>, e: Event, name: string, until: int)
    requires now <= at < until && Guarded(cfg, now, Job(locks, Busy(task, node, todo)), name, until)
    requires Proper(cfg, Repair, Busy(task, node, todo)) && AnswerStep(cfg, Repair, task, node, todo, e).Some?
    ensures Guarded(cfg, at, Job(locks, AnswerStep(cfg, Repair, task, node, todo, e).value), name, until)
  {
    hide RepairCall, IsLockChange;
  }

  lemma ListedGuarded(cfg: Config, now: int, at: int, j: Job, view: seq<NodeObject>, name: string, until: int,
                      nodes: Cluster)
    requires now <= at < until && Guarded(cfg, now, j, name, until) && Proper(cfg, Repair, j.stage)
    requires ListedStep(Repair, j, view).Some? && DistinctNames(view)
    requires Keyed(nodes) && name in nodes && Stamped(cfg, Repair, nodes[name].annotations, until)
    requires j.stage == Rest(Idle) ==> Current(view, nodes)
    ensures Guarded(cfg, at, ListedStep(Repair, j, view).value, name, until)
  {
    if j.stage == Rest(Idle) {
      assert nodes[name] in view && nodes[name].name == name;
      forall node <- view | node.name == name ensures Stamped(cfg, Repair, node.annotations, until) {
        assert nodes[node.name] == node;
      }
    }
  }

  lemma RepairGuarded(cfg: Config, now: int, at: int, j: Job, e: Event, next: Job, name: string, until: int, nodes: Cluster)
    requires now <= at < until && Guarded(cfg, now, j, name, until)
    requires Tidy(j.stage) && Proper(cfg, Repair, j.stage) && Step(cfg, Repair, at, j, e) == Some(next)
    requires Keyed(nodes) && name in nodes && Stamped(cfg, Repair, nodes[name].annotations, until)
    requires e.Listed? && j.stage == Rest(Idle) ==> Current(e.view, nodes)
    requires cfg.reading.Remaining? ||
             !(e.Local? && j.stage.Head? && j.stage.loop.Sync? && j.stage.todo != [] && j.stage.todo[0].name == name)
    ensures Guarded(cfg, at, next, name, until)
  {
    hide Guarded, LocalStep, ListedStep, AnswerStep, Tidy, Current, Keyed;
    match e
    case Local => LocalGuarded(cfg, now, at, j, name, until);
    case Swept => SweptGuarded(cfg, now, j, name, until, at);
    case Listed(view) => ListedGuarded(cfg, now, at, j, view, name, until, nodes);
    case Collected(_, _, _, _) =>
    case _ => AnswerGuarded(cfg, now, at, j.locks, j.stage.task, j.stage.node, j.stage.todo, e, name, until);
  }

  lemma LocalGuarded(cfg: Config, now: int, at: int, j: Job, name: string, until: int)
    requires now <= at < until && Guarded(cfg, now, j, name, until)
    requires Tidy(j.stage) && Proper(cfg, Repair, j.stage) && LocalStep(cfg, Repair, at, j).Some?
    requires j.stage.Head? && j.stage.loop.Sync? && j.stage.todo != [] && j.stage.todo[0].name == name
             ==> cfg.reading.Remaining?
    ensures Guarded(cfg, at, LocalStep(cfg, Repair, at, j).value, name, until)
  {
    hide LoopStep, LoopEnd, TaskStep, Tidy, Held, Rebuilding, HeldIfAhead;
    match j.stage
    case Rest(_) =>
    case Head(_, _) => HeadGuarded(cfg, now, at, j, name, until);
    case Busy(_, _, _) => BusyGuarded(cfg, now, at, j, name, until);
  }

  // ---- the lock annotation in the cluster ----

  lemma PatchSpares(cfg: Config, kind: Kind, now: int, at: int, j: Job, n: string, change: Change, ok: bool,
                    doc: Annotations, name: string, until: int)
    requires cfg.DistinctAnnotations() && Proper(cfg, kind, j.stage)
    requires Step(cfg, kind, at, j, Patch(n, change, ok)).Some?
    requires kind.Repair? ==> Guarded(cfg, now, j, name, until)
    requires n == name && Effect(doc, change).Applied? && Stamped(cfg, Repair, doc, until)
    ensures Stamped(cfg, Repair, Effect(doc, change).result, until)
  {
    hide Step, Held, Rebuilding, HeldIfAhead, DistinctNames, IsLockChange;
    cfg.OwnNames();
    PatchTouches(cfg, kind, at, j, n, change, ok);
    RepairLockUntouched(cfg, kind, now, j, name, until, change);
    EffectElsewhere(doc, change, cfg.repair.lockAnnotation);
  }

  /** The update job never writes the repair lock, and the repair job is not at the protected node, except to
      restore its lock or to clean up the autoscaler annotations. */
  lemma RepairLockUntouched(cfg: Config, kind: Kind, now: int, j: Job, name: string, until: int, change: Change)
    requires cfg.DistinctAnnotations() && Proper(cfg, kind, j.stage)
    requires j.stage.Busy? && j.stage.node.name == name && PatchFor(cfg, kind, j.stage.task) == Some(change)
    requires Touched(change) <=
             {cfg.Job(kind).lockAnnotation, SCALE_DOWN_EXPIRE, SCALE_DOWN_DISABLED}
             + if j.stage.task.Marking? || j.stage.task.Unmarking? then {cfg.ongoingAnnotation} else {}
    requires kind.Repair? ==> Guarded(cfg, now, j, name, until)
    ensures cfg.repair.lockAnnotation !in Touched(change)
  {
    hide Held, Rebuilding, HeldIfAhead, IsLockChange;
    cfg.OwnNames();
    if kind.Repair? {
      assert j.stage.task.CleanDropping?;
    }
  }

  lemma EventSpares(cfg: Config, kind: Kind, now: int, at: int, j: Job, e: Event, applied: bool,
                    nodes: Cluster, next: Cluster, name: string, until: int)
    requires cfg.DistinctAnnotations() && Proper(cfg, kind, j.stage) && Step(cfg, kind, at, j, e).Some?
    requires kind.Repair? ==> Guarded(cfg, now, j, name, until)
    requires EventEffect(cfg, nodes, e, applied) == Some(next)
    requires name in nodes && Stamped(cfg, Repair, nodes[name].annotations, until)
    ensures name in next && Stamped(cfg, Repair, next[name].annotations, until)
  {
    hide Step, Guarded, Stamped, Effect;
    if e.Patch? && applied && e.name == name {
      PatchSpares(cfg, kind, now, at, j, e.name, e.change, e.ok, nodes[name].annotations, name, until);
    }
  }

  lemma OutsideSpares(cfg: Config, nodes: Cluster, change: Outside, name: string, until: int)
    requires Spares(cfg, name, change) && name in nodes && Stamped(cfg, Repair, nodes[name].annotations, until)
    ensures name in OutsideEffect(nodes, change)
    ensures Stamped(cfg, Repair, OutsideEffect(nodes, change)[name].annotations, until)
  {
  }

  // ---- all behaviours ----

  lemma StepProtects(cfg: Config, w: World, h: Happening, next: World, name: string, until: int)
    requires cfg.DistinctAnnotations() && Orderly(cfg, w) && Protected(cfg, w, name, until)
    requires WorldStep(cfg, w, h) == Some(next) && Assumed(cfg, w, h, name, until)
    ensures Protected(cfg, next, name, until)
  {
    hide Step, EventEffect, OutsideEffect, Stamped, Guarded, Tidy, Proper, Keyed;
    if h.at < until {
      match h.what
      case ByJob(kind, e, applied) =>
        var j := w.JobOf(kind);
        EventSpares(cfg, kind, w.now, h.at, j, e, applied, w.nodes, next.nodes, name, until);
        if kind.Repair? {
          RepairGuarded(cfg, w.now, h.at, j, e, next.repair, name, until, w.nodes);
        } else {
          LaterGuarded(cfg, w.now, h.at, w.repair, name, until);
        }
      case Died => FreshGuarded(cfg, h.at, name, until);
      case ByOthers(change) =>
        OutsideSpares(cfg, w.nodes, change, name, until);
        LaterGuarded(cfg, w.now, h.at, w.repair, name, until);
    }
  }

  lemma LaterGuarded(cfg: Config, now: int, at: int, j: Job, name: string, until: int)
    requires now <= at && Guarded(cfg, now, j, name, until)
    ensures Guarded(cfg, at, j, name, until)
  {
    hide Held, Rebuilding, HeldIfAhead;
  }

  lemma FreshGuarded(cfg: Config, at: int, name: string, until: int)
    ensures Guarded(cfg, at, FRESH_JOB, name, until)
  {
  }

  lemma {:induction false} StaysProtected(cfg: Config, ws: seq<World>, hs: seq<Happening>, i: nat, j: nat,
                                          name: string, until: int)
    requires cfg.DistinctAnnotations() && Behaviour(cfg, ws, hs) && i <= j <= |hs|
    requires Protected(cfg, ws[i], name, until)
    requires forall k :: i <= k < j ==> Assumed(cfg, ws[k], hs[k], name, until)
    ensures Protected(cfg, ws[j], name, until)
  {
    hide WorldStep, Protected, Orderly, Assumed;
    if i < j {
      StaysProtected(cfg, ws, hs, i, j - 1, name, until);
      AlwaysOrderly(cfg, ws, hs, j - 1);
      assert HappensAt(cfg, ws, hs, j - 1);
      StepProtects(cfg, ws[j - 1], hs[j - 1], ws[j], name, until);
    }
  }

  /** A job writes its lock annotation of `name`, and the API server takes it (even if it reports an error). */
  ghost predicate WritesLock(cfg: Config, kind: Kind, w: World, h: Happening, name: string, until: int) {
    var stage := w.JobOf(kind).stage;
    && stage.Busy? && stage.task.Writing? && stage.node.name == name
    && h.what.ByJob? && h.what.kind == kind && h.what.event.Patch? && h.what.applied
    && LockTime(cfg, kind, stage.task.change) == Some(until)
  }

  function LockTime(cfg: Config, kind: Kind, change: Change): Option<int> {
    var lock := cfg.Job(kind).lockAnnotation;
    match change
    case Set(values) => if lock in values && values[lock].Stamp? then Some(values[lock].instant) else None
    case Drop(_) => None
  }

  /** The repair job turns to Azure about the node, to look at it or to act on it. */
  predicate Repairs(h: Happening, name: string) {
    && h.what.ByJob? && h.what.kind.Repair?
    && (h.what.event.AzureGet? || h.what.event.AzureAct?) && h.what.event.name == name
  }

  lemma WrittenProtects(cfg: Config, w: World, h: Happening, next: World, name: string, until: int)
    requires Orderly(cfg, w) && WorldStep(cfg, w, h) == Some(next) && WritesLock(cfg, Repair, w, h, name, until)
    ensures Protected(cfg, next, name, until)
  {
    hide Keyed, Proper, Held;
  }

  lemma ProtectedNotRepaired(cfg: Config, w: World, h: Happening, next: World, name: string, until: int)
    requires Orderly(cfg, w) && WorldStep(cfg, w, h) == Some(next)
    requires Protected(cfg, w, name, until) && Repairs(h, name)
    ensures h.at >= until
  {
    hide Keyed, Held, Rebuilding, HeldIfAhead, Accepts, RepairCall, Tidy, IsLockChange;
  }

  /** The lock time of an AnnotationLockSet that looks at the clock at instant t: up to a second less than t plus the
      duration. */
  lemma StampedTime(cfg: Config, at: int, j: Job, e: Event, next: Job)
    requires cfg.DistinctAnnotations() && j.stage.Busy? && j.stage.task.Stamping?
    requires e.Clock? && Step(cfg, Repair, at, j, e) == Some(next)
    ensures next.stage.Busy? && next.stage.task.Writing? && next.stage.node == j.stage.node
    ensures var dur := j.stage.task.dur;
            LockTime(cfg, Repair, next.stage.task.change).Some?
            && at + dur - SECOND < LockTime(cfg, Repair, next.stage.task.change).value <= at + dur
  {
    cfg.OwnNames();
    LockValueOf(cfg.repair.lockAnnotation, j.stage.task.dur, cfg.scaledownLockTime, e.first, e.second);
    TruncationLosesLessThanASecond(at + j.stage.task.dur);
    hide LockValuesAt;
  }

  lemma LockValueOf(name: string, dur: int, scaledown: int, now: int, later: int)
    requires name != SCALE_DOWN_EXPIRE && name != SCALE_DOWN_DISABLED
    ensures name in LockValuesAt(name, dur, scaledown, now, later)
    ensures LockValuesAt(name, dur, scaledown, now, later)[name] == Rfc3339(now + dur)
  {
  }

  /** Happening s looks at the clock and so fixes the lock time of the node (for the lock duration or for the error
      duration), happening i writes it, and happening j is a later repair: it comes no sooner than a second before the
      duration is over. */
  lemma LockWindow(cfg: Config, ws: seq<World>, hs: seq<Happening>, s: nat, i: nat, j: nat, name: string, dur: int)
    requires cfg.DistinctAnnotations() && Behaviour(cfg, ws, hs) && s < i < j < |hs|
    requires ws[s].repair.stage.Busy? && ws[s].repair.stage.task == Stamping(dur)
    requires ws[s].repair.stage.node.name == name
    requires hs[s].what.ByJob? && hs[s].what.kind.Repair? && hs[s].what.event.Clock?
    requires ws[i].repair.stage == ws[s + 1].repair.stage
    requires hs[i].what.ByJob? && hs[i].what.kind.Repair? && hs[i].what.event.Patch? && hs[i].what.applied
    requires Repairs(hs[j], name)
    requires forall k :: i < k < j ==> Assumed(cfg, ws[k], hs[k], name, hs[s].at + dur)
    ensures hs[j].at > hs[s].at + dur - SECOND
  {
    hide WorldStep, Step, Orderly, Assumed, Protected, LockTime;
    AlwaysOrderly(cfg, ws, hs, i);
    AlwaysOrderly(cfg, ws, hs, j);
    assert HappensAt(cfg, ws, hs, s) && HappensAt(cfg, ws, hs, i) && HappensAt(cfg, ws, hs, j);
    RepairStep(cfg, ws[s], hs[s], ws[s + 1]);
    StampedTime(cfg, hs[s].at, ws[s].repair, hs[s].what.event, ws[s + 1].repair);
    var until := LockTime(cfg, Repair, ws[s + 1].repair.stage.task.change).value;
    assert WritesLock(cfg, Repair, ws[i], hs[i], name, until);
    WrittenProtects(cfg, ws[i], hs[i], ws[i + 1], name, until);
    forall k | i < k < j ensures Assumed(cfg, ws[k], hs[k], name, until) {
      AssumedEarlier(cfg, ws[k], hs[k], name, until, hs[s].at + dur);
    }
    StaysProtected(cfg, ws, hs, i + 1, j, name, until);
    ProtectedNotRepaired(cfg, ws[j], hs[j], ws[j + 1], name, until);
  }

  lemma AssumedEarlier(cfg: Config, w: World, h: Happening, name: string, until: int, later: int)
    requires Assumed(cfg, w, h, name, later) && until <= later
    ensures Assumed(cfg, w, h, name, until)
  {
  }

  lemma RepairStep(cfg: Config, w: World, h: Happening, next: World)
    requires WorldStep(cfg, w, h) == Some(next) && h.what.ByJob? && h.what.kind.Repair?
    ensures Step(cfg, Repair, h.at, w.repair, h.what.event) == Some(next.repair)
  {
    hide Step;
  }
}

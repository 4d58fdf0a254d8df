/**
 The two cron jobs as step machines.

 A job is its lock cache and the place in the program it has reached. `Local` is the next step inside the process
 (a decision, a cache access); every other event is one interaction with the outside, together with its answer.
 `Swept` is the janitor of the lock cache, which runs whenever it likes. Each event happens at an instant.
 */
module Jobs {
  import opened Options
  import opened JsonPatch
  import opened Nodes
  import opened Settings
  import opened TimedCaches
  import opened Provisioning
  import opened ProviderId

  /** Places between the loops. `AutoDone`, `Synced` and `Cleaned` follow autoUncordonExpiredNodes,
      syncNodeLockCache and nodeList.Cleanup; `Entered` is the start of repairRun or updateRun. */
  datatype Place = Idle | AutoDone | Synced | Entered | Cleaned

  /** The heads of the loops over nodes: autoUncordonExpiredNodes, syncNodeLockCache, Cleanup, repairRun, updateRun. */
  datatype Loop = AutoUncordon | Sync | Cleanup | RepairRun | UpdateRun

  /** What is to be done next for the node at hand. */
  datatype Task =
      // autoUncordonExpiredNodes, syncNodeLockCache, Cleanup
    | AutoUncordoning | Restoring(dur: int) | Dropping | CleanDropping
      // repairRun: lock check, limit check, the two Azure calls
    | Due | Unlocked | Checking | Acting
      // updateNode and azureVmssInstanceUpdate
    | Marking | Inspecting | Draining(again: bool) | Updating | Redeploying | Uncordoning | Unmarking
      // locking the node in the cache, then by annotation
    | Locking(dur: int, annotate: bool) | Stamping(dur: int) | Writing(change: Change)

  datatype Stage =
    | Rest(place: Place)
    | Head(loop: Loop, todo: seq<NodeObject>)
    | Busy(task: Task, node: NodeObject, todo: seq<NodeObject>)

  datatype Job = Job(locks: Cache<bool>, stage: Stage)

  datatype AzureCall = RepairAction(action: string) | UpdateInstances | Redeploy

  datatype Event =
    | Local
    | Swept
    | Listed(view: seq<NodeObject>)
    | Collected(view: seq<NodeObject>, outdated: set<string>, failed: nat, reachable: bool)
    | Patch(name: string, change: Change, ok: bool)
    | Drain(name: string, disableEviction: bool, ok: bool)
    | Uncordon(name: string, ok: bool)
    | AzureGet(name: string, ok: bool, state: Option<string>)
    | AzureAct(name: string, call: AzureCall, ok: bool)
    | Clock(name: string, first: int, second: int)   // AnnotationLockSet reads the clock, once for each time it writes

  /** An event and its instant. */
  datatype Timed = Timed(at: int, event: Event)

  // ---- small pieces of the program ----

  /** The loop over nodes of repairRun or updateRun. */
  function Run(kind: Kind): Loop {
    match kind
    case Repair => RepairRun
    case Update => UpdateRun
  }

  /** Where syncNodeLockCache takes its list. */
  function Begin(kind: Kind): Place {
    match kind
    case Repair => Idle
    case Update => AutoDone
  }

  /** A failed updateNode ends the loop: `break` after the error lock. */
  function Failed(cfg: Config, node: NodeObject): Stage {
    Busy(Locking(cfg.update.lockDurationError, true), node, [])
  }

  function Check(cfg: Config, node: NodeObject, annotation: string, now: int): LockCheck {
    AnnotationLockCheck(cfg.reading, node.annotations, annotation, now)
  }

  /** Node.Cleanup takes the time of the scale-down ban for over. */
  predicate BanIsOver(cfg: Config, node: NodeObject, now: int) {
    Outdated(Check(cfg, node, SCALE_DOWN_EXPIRE, now))
  }

  function Parsed(node: NodeObject): Extracted {
    ExtractNodeInfo(node.name, node.providerId)
  }

  /** The Azure call a repair makes; no call for an action that is not valid. */
  function RepairCall(cfg: Config, node: NodeObject): Option<AzureCall> {
    match Parsed(node)
    case Unrecognised => None
    case Info(info) =>
      if info.machine.Vmss?
      then if cfg.repairVmssAction in {"restart", "redeploy", "reimage", "delete"}
           then Some(RepairAction(cfg.repairVmssAction)) else None
      else if cfg.repairVmAction in {"restart", "redeploy"}
           then Some(RepairAction(cfg.repairVmAction)) else None
  }

  function MarkValues(cfg: Config): Annotations {
    map[cfg.ongoingAnnotation := Text("true")][SCALE_DOWN_DISABLED := Text("true")]
  }

  predicate DoReimage(cfg: Config) {
    cfg.updateAction == "update+reimage"
  }

  /** A node whose heartbeat is old enough for a repair. */
  predicate Overdue(cfg: Config, node: NodeObject, now: int) {
    now - HealthOf(node.conditions).heartbeat >= cfg.notReadyThreshold
  }

  // ---- updateCollectCandidates ----

  predicate Excluded(cfg: Config, node: NodeObject) {
    cfg.excludeAnnotation in node.annotations
  }

  predicate Ongoing(cfg: Config, node: NodeObject) {
    cfg.ongoingAnnotation in node.annotations
  }

  function FirstOngoing(cfg: Config, view: seq<NodeObject>): Option<NodeObject> {
    if view == [] then None
    else if !Excluded(cfg, view[0]) && Ongoing(cfg, view[0]) then Some(view[0])
    else FirstOngoing(cfg, view[1..])
  }

  function Updatable(cfg: Config, view: seq<NodeObject>, outdated: set<string>): seq<NodeObject> {
    if view == [] then []
    else (if !Excluded(cfg, view[0]) && view[0].name in outdated then [view[0]] else [])
         + Updatable(cfg, view[1..], outdated)
  }

  function Candidates(cfg: Config, view: seq<NodeObject>, outdated: set<string>): seq<NodeObject> {
    match FirstOngoing(cfg, view)
    case Some(node) => [node]
    case None => Updatable(cfg, view, outdated)
  }

  // ---- one step ----

  /** Still at `node`, or done with it; the loop goes on with `todo` or is over. */
  predicate After(t: Stage, node: NodeObject, todo: seq<NodeObject>) {
    (Todo(t) == todo || Todo(t) == []) && (t.Busy? ==> t.node == node)
  }

  /** The head of a loop, with a node to look at. */
  function LoopStep(cfg: Config, kind: Kind, now: int, locks: Cache<bool>, loop: Loop,
                    node: NodeObject, rest: seq<NodeObject>): (r: Job)
    ensures After(r.stage, node, rest)
  {
    match loop
    case AutoUncordon =>
      if Outdated(Check(cfg, node, cfg.Job(kind).lockAnnotation, now)) && node.unschedulable
      then Job(locks, Busy(AutoUncordoning, node, rest)) else Job(locks, Head(AutoUncordon, rest))
    case Sync =>
      (match Check(cfg, node, cfg.Job(kind).lockAnnotation, now)
       case NoAnnotation => Job(locks - {node.name}, Head(Sync, rest))
       case Unreadable => Job(locks, Busy(Dropping, node, rest))
       case Duration(ns) => Job(locks, Busy(if ns <= 0 then Dropping else Restoring(ns), node, rest)))
    case Cleanup =>
      if BanIsOver(cfg, node, now)
      then Job(locks, Busy(CleanDropping, node, rest)) else Job(locks, Head(Cleanup, rest))
    case RepairRun =>
      if HealthOf(node.conditions).ready then Job(locks - {node.name}, Head(RepairRun, rest))
      else if node.unschedulable || !Overdue(cfg, node, now) then Job(locks, Head(RepairRun, rest))
      else Job(locks, Busy(Due, node, rest))
    case UpdateRun =>
      if cfg.LimitReached(kind, |locks|) || cfg.self == Some(node.name) then Job(locks, Rest(Idle))
      else if Parsed(node).Unrecognised? then Job(locks, Head(UpdateRun, rest))
      else Job(locks, Busy(Marking, node, rest))
  }

  /** The end of a loop. syncNodeLockCache ends with DeleteExpired. */
  function LoopEnd(now: int, locks: Cache<bool>, loop: Loop): Job {
    match loop
    case AutoUncordon => Job(locks, Rest(AutoDone))
    case Sync => Job(Sweep(locks, now), Rest(Synced))
    case Cleanup => Job(locks, Rest(Cleaned))
    case RepairRun => Job(locks, Rest(Idle))
    case UpdateRun => Job(locks, Rest(Idle))
  }

  /** Where a step inside the process can lead from a task. */
  predicate LeadsTo(kind: Kind, task: Task, t: Stage) {
    match t
    case Rest(place) => place.Idle? && task.Unlocked?
    case Head(loop, _) =>
      match task {
        case Restoring(_) => loop.Sync?
        case Due => loop.RepairRun?
        case Unlocked => loop.RepairRun?
        case Locking(_, annotate) => !annotate && loop == Run(kind)
        case _ => false
      }
    case Busy(next, _, _) =>
      match task {
        case Due => next.Unlocked?
        case Unlocked => next.Checking? || (next.Locking? && !next.annotate)
        case Acting => next.Locking? && next.annotate
        case Locking(dur, annotate) => annotate && next == Stamping(dur)
        case _ => false
      }
  }

  /** The steps inside the process that concern the node at hand. */
  function TaskStep(cfg: Config, kind: Kind, now: int, locks: Cache<bool>, task: Task,
                    node: NodeObject, todo: seq<NodeObject>): (r: Option<Job>)
    ensures r.Some? ==> After(r.value.stage, node, todo) && LeadsTo(kind, task, r.value.stage)
  {
    match task
    case Restoring(dur) => Some(Job(Added(locks, node.name, true, dur, LOCK_LIFE, now), Head(Sync, todo)))
    case Due =>
      Some(Job(locks, if Live(locks, node.name, now) then Head(RepairRun, todo) else Busy(Unlocked, node, todo)))
    case Unlocked =>
      Some(Job(locks,
               if cfg.LimitReached(kind, |locks|) || Parsed(node).Unrecognised? then Head(RepairRun, todo)
               else if cfg.dryRun then Busy(Locking(cfg.repair.lockDuration, false), node, todo)
               else if cfg.self == Some(node.name) then Rest(Idle)
               else Busy(Checking, node, todo)))
    case Acting =>
      if RepairCall(cfg, node).Some? then None
      else Some(Job(locks, Busy(Locking(cfg.repair.lockDurationError, true), node, todo)))
    case Locking(dur, annotate) =>
      Some(Job(Added(locks, node.name, true, dur, LOCK_LIFE, now),
               if annotate then Busy(Stamping(dur), node, todo) else Head(Run(kind), todo)))
    case _ => None
  }

  function LocalStep(cfg: Config, kind: Kind, now: int, j: Job): Option<Job> {
    match j.stage
    case Rest(place) =>
      if place.Synced?
      then Some(j.(stage := Rest(if cfg.LimitReached(kind, |j.locks|) then Idle else Entered))) else None
    case Head(loop, todo) =>
      if todo == [] then Some(LoopEnd(now, j.locks, loop))
      else Some(LoopStep(cfg, kind, now, j.locks, loop, todo[0], todo[1..]))
    case Busy(task, node, todo) => TaskStep(cfg, kind, now, j.locks, task, node, todo)
  }

  /** The JSON patch the program sends at a task. */
  function PatchFor(cfg: Config, kind: Kind, task: Task): Option<Change> {
    match task
    case Dropping => Some(Drop({cfg.Job(kind).lockAnnotation}))
    case CleanDropping => Some(Drop({SCALE_DOWN_EXPIRE, SCALE_DOWN_DISABLED}))
    case Marking => Some(Set(MarkValues(cfg)))
    case Unmarking => Some(Drop({cfg.ongoingAnnotation}))
    case Writing(change) => Some(change)
    case _ => None
  }

  /** Where the program goes when that patch was answered. */
  function PatchStep(cfg: Config, kind: Kind, task: Task, node: NodeObject, todo: seq<NodeObject>, ok: bool): (r: Stage)
    ensures After(r, node, todo)
  {
    match task
    case Dropping => Head(Sync, todo)
    case CleanDropping => Head(Cleanup, todo)
    case Marking => if ok then Busy(Inspecting, node, todo) else Failed(cfg, node)
    case Unmarking => if ok then Busy(Locking(cfg.update.lockDuration, true), node, todo) else Failed(cfg, node)
    case _ => Head(Run(kind), todo)
  }

  /** The retry and ignore rules of k8sDrainNode. */
  function DrainStep(cfg: Config, again: bool, node: NodeObject, todo: seq<NodeObject>, ok: bool): (r: Stage)
    ensures After(r, node, todo)
  {
    if ok then Busy(Updating, node, todo)
    else if !again && cfg.drain.retryWithoutEviction then Busy(Draining(true), node, todo)
    else if cfg.drain.ignoreFailure then Busy(Updating, node, todo)
    else Failed(cfg, node)
  }

  function UncordonStep(cfg: Config, task: Task, node: NodeObject, todo: seq<NodeObject>, ok: bool): (r: Option<Stage>)
    ensures r.Some? ==> After(r.value, node, todo)
  {
    match task
    case AutoUncordoning => Some(Head(AutoUncordon, todo))
    case Uncordoning => Some(if ok then Busy(Unmarking, node, todo) else Failed(cfg, node))
    case _ => None
  }

  /** `passed`: the instance was found and its provisioning state is accepted. */
  function AzureGetStep(cfg: Config, task: Task, node: NodeObject, todo: seq<NodeObject>, passed: bool): (r: Option<Stage>)
    ensures r.Some? ==> After(r.value, node, todo)
  {
    match task
    case Checking =>
      Some(Busy(if passed then Acting else Locking(cfg.repair.lockDurationError, true), node, todo))
    case Inspecting =>
      Some(if !passed then Failed(cfg, node)
           else Busy(if cfg.drain.enable then Draining(false) else Updating, node, todo))
    case _ => None
  }

  function AzureCallFor(cfg: Config, task: Task, node: NodeObject): Option<AzureCall> {
    match task
    case Acting => RepairCall(cfg, node)
    case Updating => Some(UpdateInstances)
    case Redeploying => Some(Redeploy)
    case _ => None
  }

  function AzureActStep(cfg: Config, task: Task, node: NodeObject, todo: seq<NodeObject>, ok: bool): (r: Stage)
    ensures After(r, node, todo)
  {
    match task
    case Acting =>
      Busy(Locking(if ok then cfg.repair.lockDuration else cfg.repair.lockDurationError, true), node, todo)
    case Updating =>
      if !ok then Failed(cfg, node) else Busy(if DoReimage(cfg) then Redeploying else Uncordoning, node, todo)
    case _ => if ok then Busy(Uncordoning, node, todo) else Failed(cfg, node)
  }

  /** AnnotationLockSet has read the clock: once for the lock, and later for the expiry of the scale-down ban. */
  function ClockStep(cfg: Config, kind: Kind, task: Task, node: NodeObject, todo: seq<NodeObject>, first: int, second: int)
    : (r: Option<Stage>)
    ensures r.Some? ==> After(r.value, node, todo) && task.Stamping? && r.value.Busy? && r.value.task.Writing?
  {
    match task
    case Stamping(dur) =>
      if first > second then None
      else
        var values := LockValuesAt(cfg.Job(kind).lockAnnotation, dur, cfg.scaledownLockTime, first, second);
        Some(Busy(Writing(Set(values)), node, todo))
    case _ => None
  }

  /** The answer to a call that concerns the node at hand. */
  function AnswerStep(cfg: Config, kind: Kind, task: Task, node: NodeObject, todo: seq<NodeObject>, e: Event)
    : (r: Option<Stage>)
    ensures r.Some? ==> After(r.value, node, todo)
  {
    match e
    case Patch(_, change, ok) =>
      if PatchFor(cfg, kind, task) == Some(change) then Some(PatchStep(cfg, kind, task, node, todo, ok)) else None
    case Drain(_, disableEviction, ok) =>
      if task.Draining? && disableEviction == (task.again || cfg.drain.disableEviction)
      then Some(DrainStep(cfg, task.again, node, todo, ok)) else None
    case Uncordon(_, ok) => UncordonStep(cfg, task, node, todo, ok)
    case AzureGet(_, ok, state) => AzureGetStep(cfg, task, node, todo, ok && Accepts(cfg, state))
    case AzureAct(_, call, ok) =>
      if AzureCallFor(cfg, task, node) == Some(call) then Some(AzureActStep(cfg, task, node, todo, ok)) else None
    case Clock(_, first, second) => ClockStep(cfg, kind, task, node, todo, first, second)
    case _ => None
  }

  function ListedStep(kind: Kind, j: Job, view: seq<NodeObject>): Option<Job> {
    if !j.stage.Rest? then None
    else match j.stage.place
         case Idle =>
           Some(if kind.Repair? then Job(map[], Head(Sync, view)) else j.(stage := Head(AutoUncordon, view)))
         case AutoDone => Some(Job(map[], Head(Sync, view)))
         case Synced => None
         case Entered => Some(j.(stage := Head(Cleanup, view)))
         case Cleaned => if kind.Repair? then Some(j.(stage := Head(RepairRun, view))) else None
  }

  function CollectedStep(cfg: Config, view: seq<NodeObject>, outdated: set<string>, failed: nat, reachable: bool): Stage {
    if !reachable || failed >= cfg.failedThreshold || cfg.dryRun then Rest(Idle)
    else Head(UpdateRun, Candidates(cfg, view, outdated))
  }

  /** The whole machine; None if the program does nothing of the kind at this point. */
  function Step(cfg: Config, kind: Kind, now: int, j: Job, e: Event): Option<Job> {
    match e
    case Local => LocalStep(cfg, kind, now, j)
    case Swept => Some(j.(locks := Sweep(j.locks, now)))
    case Listed(view) => if DistinctNames(view) then ListedStep(kind, j, view) else None
    case Collected(view, outdated, failed, reachable) =>
      if DistinctNames(view) && j.stage == Rest(Cleaned) && kind.Update?
      then Some(j.(stage := CollectedStep(cfg, view, outdated, failed, reachable))) else None
    case _ =>
      if !j.stage.Busy? || e.name != j.stage.node.name || (e.Clock? && e.first != now) then None
      else match AnswerStep(cfg, kind, j.stage.task, j.stage.node, j.stage.todo, e)
           case None => None
           case Some(stage) => Some(j.(stage := stage))
  }

  // ---- runs of one job ----

  /** js[i] is the job before log[i]. A prefix of a trail is a trail: the process may die after any event. */
  ghost predicate Trail(cfg: Config, kind: Kind, js: seq<Job>, log: seq<Timed>) {
    && |js| == |log| + 1
    && forall i :: 0 <= i < |log| ==> StepAt(cfg, kind, js, log, i)
  }

  ghost predicate StepAt(cfg: Config, kind: Kind, js: seq<Job>, log: seq<Timed>, i: nat)
    requires i < |log| && i + 1 < |js|
  {
    Step(cfg, kind, log[i].at, js[i], log[i].event) == Some(js[i + 1])
  }

  lemma TrailGrows(cfg: Config, kind: Kind, js: seq<Job>, log: seq<Timed>, t: Timed, next: Job)
    requires Trail(cfg, kind, js, log) && Step(cfg, kind, t.at, js[|js| - 1], t.event) == Some(next)
    ensures Trail(cfg, kind, js + [next], log + [t])
  {
    hide Step;
    forall i | 0 <= i < |log + [t]| ensures StepAt(cfg, kind, js + [next], log + [t], i) {
      if i < |log| {
        assert StepAt(cfg, kind, js, log, i);
      }
    }
  }

  /** The interactions with the outside, in order. */
  function Calls(log: seq<Timed>): seq<Event> {
    if log == [] then [] else Calls(log[..|log| - 1]) + CallOf(log[|log| - 1].event)
  }

  function CallOf(e: Event): seq<Event> {
    if e.Local? || e.Swept? || e.Clock? then [] else [e]
  }

  lemma CallsNext(log: seq<Timed>, t: Timed)
    ensures Calls(log + [t]) == Calls(log) + CallOf(t.event)
  {
    assert (log + [t])[..|log|] == log;
  }

  lemma CallsAdd(log: seq<Timed>, m: nat, j: nat)
    requires m <= j < |log|
    ensures Calls(log[m..j + 1]) == Calls(log[m..j]) + CallOf(log[j].event)
  {
    assert log[m..j + 1][..j - m] == log[m..j];
  }

  // ---- nodes are visited once ----

  function Todo(stage: Stage): seq<NodeObject> {
    match stage
    case Rest(_) => []
    case Head(_, todo) => todo
    case Busy(_, _, todo) => todo
  }

  /** No node is ahead twice, and the one at hand is not ahead. */
  predicate Tidy(stage: Stage) {
    && DistinctNames(Todo(stage))
    && (stage.Busy? ==> stage.node.name !in Names(stage.todo))
  }

  lemma UpdatableSubset(cfg: Config, view: seq<NodeObject>, outdated: set<string>)
    requires DistinctNames(view)
    ensures DistinctNames(Updatable(cfg, view, outdated))
    ensures forall node <- Updatable(cfg, view, outdated) :: node in view
  {
    if view != [] {
      TailNames(view);
      var rest := Updatable(cfg, view[1..], outdated);
      UpdatableSubset(cfg, view[1..], outdated);
      forall node <- rest ensures node.name != view[0].name {
        assert node.name in Names(view[1..]);
      }
    }
  }

  lemma CandidatesDistinct(cfg: Config, view: seq<NodeObject>, outdated: set<string>)
    requires DistinctNames(view)
    ensures DistinctNames(Candidates(cfg, view, outdated))
  {
    UpdatableSubset(cfg, view, outdated);
  }

  /** A step stays with the node at hand, lets go of it, takes up the next one, or ends a loop. */
  predicate Moves(s: Stage, t: Stage) {
    || (Todo(t) == Todo(s) && (t.Busy? ==> s.Busy? && t.node == s.node))
    || (Todo(s) != [] && Todo(t) == Todo(s)[1..] && (t.Busy? ==> t.node == Todo(s)[0]))
    || (Todo(t) == [] && (t.Busy? ==> s.Busy? && t.node == s.node))
  }

  lemma StepMoves(cfg: Config, kind: Kind, now: int, j: Job, e: Event)
    requires Step(cfg, kind, now, j, e).Some? && !e.Listed? && !e.Collected?
    ensures Moves(j.stage, Step(cfg, kind, now, j, e).value.stage)
  {
  }

  lemma TidyMoves(s: Stage, t: Stage)
    requires Tidy(s) && Moves(s, t)
    ensures Tidy(t)
  {
    if Todo(s) != [] {
      TailNames(Todo(s));
    }
  }

  lemma TidyStep(cfg: Config, kind: Kind, now: int, j: Job, e: Event)
    requires Tidy(j.stage) && Step(cfg, kind, now, j, e).Some?
    ensures Tidy(Step(cfg, kind, now, j, e).value.stage)
  {
    match e
    case Listed(_) =>
    case Collected(view, outdated, _, _) => CandidatesDistinct(cfg, view, outdated);
    case _ =>
      StepMoves(cfg, kind, now, j, e);
      TidyMoves(j.stage, Step(cfg, kind, now, j, e).value.stage);
  }

  // ---- what a job writes ----

  function Touched(change: Change): set<string> {
    match change
    case Set(values) => values.Keys
    case Drop(names) => names
  }

  /** A lock patch: the lock annotation, and with a scale-down lock time both autoscaler annotations. */
  predicate IsLockChange(cfg: Config, kind: Kind, change: Change) {
    && change.Set?
    && change.values.Keys == {cfg.Job(kind).lockAnnotation}
                             + if cfg.scaledownLockTime > 0 then {SCALE_DOWN_EXPIRE, SCALE_DOWN_DISABLED} else {}
  }

  predicate UpdateTask(task: Task) {
    || task.Marking? || task.Inspecting? || task.Draining? || task.Updating? || task.Redeploying?
    || task.Uncordoning? || task.Unmarking?
  }

  predicate RepairTask(task: Task) {
    task.Due? || task.Unlocked? || task.Checking? || task.Acting?
  }

  /** Each job stays in its own part of the program. */
  predicate Proper(cfg: Config, kind: Kind, stage: Stage) {
    && OwnPlace(kind, stage)
    && (stage.Busy? && stage.task.Writing? ==> IsLockChange(cfg, kind, stage.task.change))
  }

  lemma StampProper(cfg: Config, kind: Kind, dur: int, first: int, second: int)
    ensures IsLockChange(cfg, kind, Set(LockValuesAt(cfg.Job(kind).lockAnnotation, dur, cfg.scaledownLockTime, first, second)))
  {
    LockValueKeys(cfg.Job(kind).lockAnnotation, dur, cfg.scaledownLockTime, first, second);
  }

  /** The part of `Proper` that says which tasks a job has. */
  predicate OwnPlace(kind: Kind, stage: Stage) {
    match stage
    case Rest(place) => kind.Update? || !place.AutoDone?
    case Head(loop, _) =>
      if kind.Repair? then !loop.AutoUncordon? && !loop.UpdateRun? else !loop.RepairRun?
    case Busy(task, _, _) =>
      if kind.Repair? then !UpdateTask(task) && !task.AutoUncordoning? else !RepairTask(task)
  }

  lemma TaskProper(cfg: Config, kind: Kind, now: int, locks: Cache<bool>, task: Task, node: NodeObject, todo: seq<NodeObject>)
    requires Proper(cfg, kind, Busy(task, node, todo)) && TaskStep(cfg, kind, now, locks, task, node, todo).Some?
    ensures Proper(cfg, kind, TaskStep(cfg, kind, now, locks, task, node, todo).value.stage)
  {
    hide TaskStep, IsLockChange;
  }

  lemma AnswerProper(cfg: Config, kind: Kind, task: Task, node: NodeObject, todo: seq<NodeObject>, e: Event)
    requires Proper(cfg, kind, Busy(task, node, todo)) && AnswerStep(cfg, kind, task, node, todo, e).Some?
    ensures Proper(cfg, kind, AnswerStep(cfg, kind, task, node, todo, e).value)
  {
    hide RepairCall, MarkValues, Accepts, IsLockChange, LockValuesAt;
    if e.Clock? && task.Stamping? {
      StampProper(cfg, kind, task.dur, e.first, e.second);
    }
  }

  lemma StepProper(cfg: Config, kind: Kind, now: int, j: Job, e: Event, next: Job)
    requires Proper(cfg, kind, j.stage) && Step(cfg, kind, now, j, e) == Some(next)
    ensures Proper(cfg, kind, next.stage)
  {
    hide TaskStep, AnswerStep, Parsed, Check, HealthOf, Overdue;
    match e
    case Local => if j.stage.Busy? { TaskProper(cfg, kind, now, j.locks, j.stage.task, j.stage.node, j.stage.todo); }
    case Swept =>
    case Listed(_) =>
    case Collected(_, _, _, _) =>
    case _ => AnswerProper(cfg, kind, j.stage.task, j.stage.node, j.stage.todo, e);
  }

  lemma {:induction false} AlwaysProper(cfg: Config, kind: Kind, js: seq<Job>, log: seq<Timed>, j: nat)
    requires Trail(cfg, kind, js, log) && js[0].stage == Rest(Idle) && j <= |log|
    ensures Proper(cfg, kind, js[j].stage)
  {
    hide Step;
    if j > 0 {
      AlwaysProper(cfg, kind, js, log, j - 1);
      assert StepAt(cfg, kind, js, log, j - 1);
      StepProper(cfg, kind, log[j - 1].at, js[j - 1], log[j - 1].event, js[j]);
    }
  }

  /** The ongoing annotation is touched by Marking and Unmarking alone, and nothing but the lock, ongoing and
      autoscaler annotations is ever touched. */
  lemma PatchTouches(cfg: Config, kind: Kind, now: int, j: Job, name: string, change: Change, ok: bool)
    requires Proper(cfg, kind, j.stage) && Step(cfg, kind, now, j, Patch(name, change, ok)).Some?
    ensures j.stage.Busy? && name == j.stage.node.name && PatchFor(cfg, kind, j.stage.task) == Some(change)
    ensures Touched(change) <=
            {cfg.Job(kind).lockAnnotation, SCALE_DOWN_EXPIRE, SCALE_DOWN_DISABLED}
            + if j.stage.task.Marking? || j.stage.task.Unmarking? then {cfg.ongoingAnnotation} else {}
  {
  }

  lemma EffectElsewhere(doc: Annotations, change: Change, key: string)
    requires Effect(doc, change).Applied? && key !in Touched(change)
    ensures key in Effect(doc, change).result <==> key in doc
    ensures key in doc ==> Effect(doc, change).result[key] == doc[key]
  {
  }
}

/**
 updateRun asks how many locks there are, not whether the next candidate is locked. So updates of locked nodes are ruled
 out by a limit of one, and by nothing else.
 */
module LockedUpdates {
  import opened Options
  import opened JsonPatch
  import opened Nodes
  import opened Settings
  import opened TimedCaches
  import opened Jobs
  import opened World
  import opened UpdateProtocol
  import opened Ticks

  /** The event at j starts updateNode on a node that has a live lock. */
  ghost predicate StartsLocked(js: seq<Job>, log: seq<Timed>, j: nat, name: string)
    requires j < |log| < |js|
  {
    && js[j].stage.Head? && js[j].stage.loop.UpdateRun?
    && js[j + 1].stage.Busy? && js[j + 1].stage.task.Marking? && js[j + 1].stage.node.name == name
    && Live(js[j].locks, name, log[j].at)
  }

  /** Some run of the update job does so. */
  ghost predicate UpdatesLocked(cfg: Config, name: string) {
    exists js, log, j :: FromRest(cfg, js, log) && 0 <= j < |log| && StartsLocked(js, log, j, name)
  }

  // ---- a limit of one ----

  lemma LimitOfOne(cfg: Config, now: int, j: Job, e: Event, next: Job, name: string)
    requires cfg.update.limit == 1 && Step(cfg, Update, now, j, e) == Some(next)
    requires j.stage.Head? && j.stage.loop.UpdateRun? && next.stage.Busy?
    ensures !Live(j.locks, name, now)
  {
    hide Parsed;
    if |j.locks| == 0 {
      assert j.locks == map[];
    }
  }

  // ---- a run that never gets to updates ----

  /** Not in the loop over candidates. */
  predicate NotUpdating(stage: Stage) {
    match stage
    case Rest(_) => true
    case Head(loop, _) => loop.AutoUncordon? || loop.Sync? || loop.Cleanup?
    case Busy(task, _, _) => task.AutoUncordoning? || task.Restoring? || task.Dropping? || task.CleanDropping?
  }

  lemma StepElsewhere(cfg: Config, now: int, j: Job, e: Event, next: Job)
    requires cfg.dryRun || cfg.failedThreshold <= 0
    requires NotUpdating(j.stage) && Step(cfg, Update, now, j, e) == Some(next)
    ensures NotUpdating(next.stage)
  {
    hide Parsed, Check, HealthOf, Overdue, RepairCall, MarkValues, LockValues, BanIsOver, Candidates;
  }

  lemma {:induction false} AlwaysElsewhere(cfg: Config, js: seq<Job>, log: seq<Timed>, j: nat)
    requires (cfg.dryRun || cfg.failedThreshold <= 0) && FromRest(cfg, js, log) && j <= |log|
    ensures NotUpdating(js[j].stage)
  {
    hide Step;
    if j > 0 {
      AlwaysElsewhere(cfg, js, log, j - 1);
      assert StepAt(cfg, Update, js, log, j - 1);
      StepElsewhere(cfg, log[j - 1].at, js[j - 1], log[j - 1].event, js[j]);
    }
  }

  // ---- a run that updates a locked node ----

  lemma Grow(cfg: Config, js: seq<Job>, log: seq<Timed>, t: int, e: Event, next: Job)
      returns (js1: seq<Job>, log1: seq<Timed>)
    requires FromRest(cfg, js, log) && Step(cfg, Update, t, js[|js| - 1], e) == Some(next)
    ensures js1 == js + [next] && log1 == log + [Timed(t, e)] && FromRest(cfg, js1, log1)
  {
    hide Step, Trail;
    TrailGrows(cfg, Update, js, log, Timed(t, e), next);
    js1, log1 := js + [next], log + [Timed(t, e)];
    TrailLength(cfg, js, log);
  }

  lemma TrailLength(cfg: Config, js: seq<Job>, log: seq<Timed>)
    requires FromRest(cfg, js, log)
    ensures |js| == |log| + 1
  {
  }

  /** The node with a lock that has a nanosecond to go at instant 0. */
  function WithLock(cfg: Config, node: NodeObject): NodeObject {
    node.(annotations := map[cfg.update.lockAnnotation := Stamp(if cfg.reading.Remaining? then 1 else -1)])
  }

  function OneLock(name: string): Cache<bool> {
    map[name := Item(true, TimedCaches.At(1))]
  }

  lemma SyncSteps(cfg: Config, node: NodeObject)
    requires node == WithLock(cfg, node)
    ensures var locks := OneLock(node.name);
            && LocalStep(cfg, Update, 0, Job(map[], Head(AutoUncordon, [node]))) == Some(Job(map[], Head(AutoUncordon, [])))
            && LocalStep(cfg, Update, 0, Job(map[], Head(AutoUncordon, []))) == Some(Job(map[], Rest(AutoDone)))
            && LocalStep(cfg, Update, 0, Job(map[], Head(Sync, [node]))) == Some(Job(map[], Busy(Restoring(1), node, [])))
            && LocalStep(cfg, Update, 0, Job(map[], Busy(Restoring(1), node, []))) == Some(Job(locks, Head(Sync, [])))
            && LocalStep(cfg, Update, 0, Job(locks, Head(Sync, []))) == Some(Job(locks, Rest(Synced)))
  {
    assert [node][1..] == [];
    assert Sweep(OneLock(node.name), 0) == OneLock(node.name);
  }

  lemma RunSteps(cfg: Config, node: NodeObject)
    requires cfg.DistinctAnnotations() && node == WithLock(cfg, node) && TakenUp(cfg, node) && cfg.update.limit != 1
    ensures var locks := OneLock(node.name);
            && LocalStep(cfg, Update, 0, Job(locks, Rest(Synced))) == Some(Job(locks, Rest(Entered)))
            && LocalStep(cfg, Update, 0, Job(locks, Head(Cleanup, [node]))) == Some(Job(locks, Head(Cleanup, [])))
            && LocalStep(cfg, Update, 0, Job(locks, Head(Cleanup, []))) == Some(Job(locks, Rest(Cleaned)))
            && LocalStep(cfg, Update, 0, Job(locks, Head(UpdateRun, [node]))) == Some(Job(locks, Busy(Marking, node, [])))
  {
    hide Parsed;
    cfg.OwnNames();
    assert [node][1..] == [];
    assert |OneLock(node.name)| == 1;
  }

  lemma LockedTakenUp(cfg: Config, node: NodeObject)
    requires cfg.DistinctAnnotations() && !cfg.dryRun && cfg.failedThreshold > 0
    requires Parsed(node).Info? && cfg.self != Some(node.name)
    ensures TakenUp(cfg, WithLock(cfg, node))
  {
    cfg.OwnNames();
  }

  /** From idle: the lock is restored from the annotation, the guard lets the run in, and the node is taken up. */
  lemma LockedUpdate(cfg: Config, node: NodeObject) returns (js: seq<Job>, log: seq<Timed>)
    requires cfg.DistinctAnnotations() && node == WithLock(cfg, node) && TakenUp(cfg, node) && cfg.update.limit != 1
    ensures FromRest(cfg, js, log) && |log| > 0 && |js| == |log| + 1 && StartsLocked(js, log, |log| - 1, node.name)
  {
    hide LocalStep, FromRest, TakenUp, WithLock, CollectedStep, DistinctNames;
    var locks, view := OneLock(node.name), [node];
    SyncSteps(cfg, node);
    RunSteps(cfg, node);
    CandidateAlone(cfg, node);
    OneName(node);
    js, log := [FRESH_JOB], [];
    FreshRun(cfg);
    js, log := Grow(cfg, js, log, 0, Listed(view), Job(map[], Head(AutoUncordon, view)));
    js, log := Grow(cfg, js, log, 0, Local, Job(map[], Head(AutoUncordon, [])));
    js, log := Grow(cfg, js, log, 0, Local, Job(map[], Rest(AutoDone)));
    js, log := Grow(cfg, js, log, 0, Listed(view), Job(map[], Head(Sync, view)));
    js, log := Grow(cfg, js, log, 0, Local, Job(map[], Busy(Restoring(1), node, [])));
    js, log := Grow(cfg, js, log, 0, Local, Job(locks, Head(Sync, [])));
    js, log := Grow(cfg, js, log, 0, Local, Job(locks, Rest(Synced)));
    js, log := Grow(cfg, js, log, 0, Local, Job(locks, Rest(Entered)));
    js, log := Grow(cfg, js, log, 0, Listed(view), Job(locks, Head(Cleanup, view)));
    js, log := Grow(cfg, js, log, 0, Local, Job(locks, Head(Cleanup, [])));
    js, log := Grow(cfg, js, log, 0, Local, Job(locks, Rest(Cleaned)));
    js, log := Grow(cfg, js, log, 0, Collected(view, {node.name}, 0, true), Job(locks, Head(UpdateRun, view)));
    js, log := Grow(cfg, js, log, 0, Local, Job(locks, Busy(Marking, node, [])));
    TrailLength(cfg, js, log);
  }

  lemma FreshRun(cfg: Config)
    ensures FromRest(cfg, [FRESH_JOB], [])
  {
  }

  lemma OneName(node: NodeObject)
    ensures DistinctNames([node])
  {
  }

  /** A node that can be updated at all is updated while it is locked, in some run, exactly if updates are on and their
      limit is not one. */
  lemma LockedUpdateIff(cfg: Config, node: NodeObject)
    requires cfg.DistinctAnnotations() && Parsed(node).Info? && cfg.self != Some(node.name)
    ensures UpdatesLocked(cfg, node.name) <==> !cfg.dryRun && cfg.failedThreshold > 0 && cfg.update.limit != 1
  {
    hide Step, StepAt, Parsed;
    if !cfg.dryRun && cfg.failedThreshold > 0 && cfg.update.limit != 1 {
      LockedTakenUp(cfg, node);
      var js, log := LockedUpdate(cfg, WithLock(cfg, node));
    }
    if UpdatesLocked(cfg, node.name) {
      var js, log, j :| FromRest(cfg, js, log) && 0 <= j < |log| && StartsLocked(js, log, j, node.name);
      OneStart(cfg, js, log, j, node.name);
    }
  }

  lemma OneStart(cfg: Config, js: seq<Job>, log: seq<Timed>, j: nat, name: string)
    requires FromRest(cfg, js, log) && j < |log| && StartsLocked(js, log, j, name)
    ensures !cfg.dryRun && cfg.failedThreshold > 0 && cfg.update.limit != 1
  {
    hide Step;
    assert StepAt(cfg, Update, js, log, j);
    if cfg.dryRun || cfg.failedThreshold <= 0 {
      AlwaysElsewhere(cfg, js, log, j);
    }
    if cfg.update.limit == 1 {
      LimitOfOne(cfg, log[j].at, js[j], log[j].event, js[j + 1], name);
    }
  }
}

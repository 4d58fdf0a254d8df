/**
 What AnnotationLockCheck does as it is written: time.Since is negative while a lock is live, so its callers take live
 locks for expired ones and expired locks for live ones.
 */
module LiteralLocks {
  import opened Options
  import opened JsonPatch
  import opened Nodes
  import opened Settings
  import opened TimedCaches
  import opened Provisioning
  import opened Jobs
  import opened World
  import opened LockWindow
  import opened Plays
  import opened Ticks

  /** syncNodeLockCache puts the node back into the cache, until `until` at least. */
  predicate Survives(cfg: Config, kind: Kind, now: int, node: NodeObject, until: int) {
    var stage := LoopStep(cfg, kind, now, map[], Sync, node, []).stage;
    stage.Busy? && stage.task.Restoring? && now + stage.task.dur >= until
  }

  /** A lock survives the rebuilding of the cache exactly while it is live, if the check means the remaining time;
      as written, exactly when it is over. */
  lemma SurvivesIff(cfg: Config, kind: Kind, now: int, node: NodeObject, until: int)
    requires cfg.Job(kind).lockAnnotation in node.annotations
    requires node.annotations[cfg.Job(kind).lockAnnotation] == Stamp(until)
    ensures Survives(cfg, kind, now, node, until) <==> if cfg.reading.Remaining? then now < until else until < now
  {
  }

  /** A cordoned node is uncordoned by the update job exactly when its lock is over, if the check means the remaining
      time; as written, exactly while its lock is live. The same holds for Cleanup and the autoscaler annotations. */
  lemma CallersIff(cfg: Config, kind: Kind, now: int, node: NodeObject, until: int)
    ensures cfg.Job(kind).lockAnnotation in node.annotations && node.annotations[cfg.Job(kind).lockAnnotation] == Stamp(until)
            ==> (LoopStep(cfg, kind, now, map[], AutoUncordon, node, []).stage.Busy? <==>
                 node.unschedulable && if cfg.reading.Remaining? then until <= now else now <= until)
    ensures SCALE_DOWN_EXPIRE in node.annotations && node.annotations[SCALE_DOWN_EXPIRE] == Stamp(until)
            ==> (LoopStep(cfg, kind, now, map[], Cleanup, node, []).stage.Busy? <==>
                 if cfg.reading.Remaining? then until <= now else now <= until)
  {
  }

  /** As written, a lock that is over locks the node again, each time for as long as it has been over. */
  lemma OldLockLocksAgain(cfg: Config, kind: Kind, now: int, node: NodeObject, until: int, rest: seq<NodeObject>)
    requires cfg.reading.Since? && cfg.Job(kind).lockAnnotation in node.annotations && until < now
    requires node.annotations[cfg.Job(kind).lockAnnotation] == Stamp(until)
    ensures var j := LoopStep(cfg, kind, now, map[], Sync, node, rest);
            LocalStep(cfg, kind, now, j) ==
            Some(Job(map[node.name := Item(true, At(now + (now - until)))], Head(Sync, rest)))
  {
  }

  // ---- two ticks of the repair job over a cluster of one unhealthy node ----

  /** The lock that a tick has written is outdated for the next tick, as long as it is live. */
  lemma LiveIsOutdated(cfg: Config, node: NodeObject, t1: int, t2: int)
    requires cfg.reading.Since? && cfg.DistinctAnnotations()
    requires t2 <= Rfc3339(t1 + cfg.repair.lockDuration).instant
    ensures NoneOrOutdated(cfg, Repair, Relock(cfg, node, t1), t2)
  {
    cfg.OwnNames();
    LockValueOf(cfg.repair.lockAnnotation, cfg.repair.lockDuration, cfg.scaledownLockTime, t1, t1);
    hide LockValues, CleanedUp;
  }

  /** As written, the next tick repairs a broken node again, at any time before its lock is over, in every
      configuration: every list is current, every call succeeds, nothing dies, nobody interferes, and the lock
      annotation was written. */
  lemma LockedNodeRepairedAgain(cfg: Config, node: NodeObject, t1: int, t2: int)
      returns (ws: seq<World>, hs: seq<Happening>, i: nat, j: nat)
    requires cfg.reading.Since? && cfg.DistinctAnnotations()
    requires UpForRepair(cfg, node, t1) && NoneOrOutdated(cfg, Repair, node, t1) && Paired(node)
    requires t1 <= t2 <= Rfc3339(t1 + cfg.repair.lockDuration).instant
    ensures Behaviour(cfg, ws, hs) && Fair(ws, hs) && ws[0] == Scene(t1, node, Repair, FRESH_JOB, FRESH_JOB)
    ensures i < j < |hs| && RepairCall(cfg, node).Some?
    ensures hs[i] == AzureCallOn(cfg, t1, node) && hs[j] == AzureCallOn(cfg, t2, node)
    ensures t2 <= t1 + cfg.repair.lockDuration
  {
    hide Leads, Scene, Relock, Locked, UpForRepair, NoneOrOutdated, Paired, Fair, HappensAt, RepairCall;
    var w := Scene(t1, node, Repair, FRESH_JOB, FRESH_JOB);
    StillBroken(cfg, node, t1, t2);
    LiveIsOutdated(cfg, node, t1, t2);
    RelockName(cfg, node, t1);
    FreshStarts(t1, node, Repair);
    Nothing(cfg, w);
    hs, i := TickPhase(cfg, w, [], t1, t1, node, NO_LOCKS, FRESH_JOB);
    hs, j := TickPhase(cfg, w, hs, t1, t2, Relock(cfg, node, t1), Locked(cfg, node.name, t1), FRESH_JOB);
    ws := Replayed(cfg, w, hs, Scene(t2, Relock(cfg, Relock(cfg, node, t1), t2), Repair,
                                     Job(Locked(cfg, node.name, t2), Rest(Idle)), FRESH_JOB));
    TruncationLosesLessThanASecond(t1 + cfg.repair.lockDuration);
  }
}

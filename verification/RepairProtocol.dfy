/** What must have happened before the repair job acts on a node. */
module RepairProtocol {
  import opened Options
  import opened Text
  import opened Nodes
  import opened Settings
  import opened TimedCaches
  import opened Provisioning
  import opened ProviderId
  import opened Jobs

  /** The condition at the end of the list decides alone. */
  predicate LastSaysReady(conditions: seq<Condition>) {
    conditions != []
    && var last := conditions[|conditions| - 1];
       EqualFold(last.kind, "Ready") && EqualFold(last.status, "True")
  }

  /** Unhealthy, with a heartbeat at least as old as the threshold; without conditions the heartbeat is the zero time. */
  predicate LooksDue(cfg: Config, node: NodeObject, now: int) {
    var n := |node.conditions|;
    var heartbeat := if n == 0 then -62_135_596_800 * 1_000_000_000 else node.conditions[n - 1].heartbeat;
    !LastSaysReady(node.conditions) && now - heartbeat >= cfg.notReadyThreshold
  }

  lemma DueIs(cfg: Config, node: NodeObject, now: int)
    ensures LooksDue(cfg, node, now) <==> !HealthOf(node.conditions).ready && Overdue(cfg, node, now)
    ensures LastSaysReady(node.conditions) <==> HealthOf(node.conditions).ready
  {
  }

  /** Index i is the look of repairRun at the node: unhealthy, not cordoned, its heartbeat over the threshold. */
  predicate SeenDue(cfg: Config, js: seq<Job>, log: seq<Timed>, i: nat, node: NodeObject)
    requires i < |log| < |js|
  {
    && js[i].stage.Head? && js[i].stage.loop.RepairRun? && js[i].stage.todo != [] && js[i].stage.todo[0] == node
    && log[i].event.Local? && !node.unschedulable && LooksDue(cfg, node, log[i].at)
  }

  /** Index i is the lock check: the node has no entry that is not yet over. */
  predicate SeenUnlocked(js: seq<Job>, log: seq<Timed>, i: nat, node: NodeObject)
    requires i < |log| < |js|
  {
    var locks := js[i].locks;
    && log[i].event.Local?
    && (node.name in locks ==> locks[node.name].expiry.At? && locks[node.name].expiry.instant < log[i].at)
  }

  /** Index i is the limit check, and what follows it: no dry run, not the own node, an ID that can be parsed. */
  predicate SeenFree(cfg: Config, js: seq<Job>, log: seq<Timed>, i: nat, node: NodeObject)
    requires i < |log| < |js|
  {
    && log[i].event.Local? && (cfg.repair.limit > 0 ==> |js[i].locks| < cfg.repair.limit)
    && !cfg.dryRun && cfg.self != Some(node.name) && ExtractNodeInfo(node.name, node.providerId).Info?
  }

  /** The call is the one configured for the kind of machine, and is known for it. */
  predicate Configured(cfg: Config, node: NodeObject, call: AzureCall) {
    match ExtractNodeInfo(node.name, node.providerId)
    case Info(info) =>
      if info.machine.Vmss?
      then call == RepairAction(cfg.repairVmssAction)
           && cfg.repairVmssAction in {"restart", "redeploy", "reimage", "delete"}
      else call == RepairAction(cfg.repairVmAction) && cfg.repairVmAction in {"restart", "redeploy"}
    case Unrecognised => false
  }

  lemma ConfiguredIs(cfg: Config, node: NodeObject, call: AzureCall)
    ensures Configured(cfg, node, call) <==> RepairCall(cfg, node) == Some(call)
  {
    hide ExtractNodeInfo;
  }

  /** Index i is the look at the instance: it exists, in an accepted provisioning state. */
  predicate SeenAccepted(cfg: Config, log: seq<Timed>, i: nat, node: NodeObject)
    requires i < |log|
  {
    var e := log[i].event;
    e.AzureGet? && e.name == node.name && e.ok && Accepts(cfg, e.state)
  }

  datatype Story = Story(due: nat, unlocked: nat, free: nat, accepted: nat)

  /** As much of the story as must have happened when the repair job has got to its place at j. */
  ghost predicate Told(cfg: Config, js: seq<Job>, log: seq<Timed>, j: nat, s: Story)
    requires j <= |log| < |js|
  {
    var stage := js[j].stage;
    stage.Busy? && RepairTask(stage.task) ==>
      && s.due < j && SeenDue(cfg, js, log, s.due, stage.node)
      && (!stage.task.Due? ==>
            && s.due < s.unlocked < j && SeenUnlocked(js, log, s.unlocked, stage.node)
            && (!stage.task.Unlocked? ==>
                  && s.unlocked < s.free < j && SeenFree(cfg, js, log, s.free, stage.node)
                  && (stage.task.Acting? ==>
                        s.free < s.accepted < j && SeenAccepted(cfg, log, s.accepted, stage.node))))
  }

  /** How a step gets to a task of a repair. */
  lemma RepairStep(cfg: Config, now: int, j: Job, e: Event, next: Job)
    requires Step(cfg, Repair, now, j, e) == Some(next) && next.stage.Busy? && RepairTask(next.stage.task)
    ensures var node := next.stage.node; var t := next.stage.task;
            || (e.Swept? && j.stage == next.stage)
            || (t.Due? && e.Local? && j.stage.Head? && j.stage.loop.RepairRun? && j.stage.todo != []
                && j.stage.todo[0] == node && !node.unschedulable && LooksDue(cfg, node, now))
            || (j.stage.Busy? && j.stage.node == node
                && ((t.Unlocked? && j.stage.task.Due? && e.Local? && !Live(j.locks, node.name, now))
                    || (t.Checking? && j.stage.task.Unlocked? && e.Local? && (cfg.repair.limit > 0 ==> |j.locks| < cfg.repair.limit)
                        && !cfg.dryRun && cfg.self != Some(node.name)
                        && ExtractNodeInfo(node.name, node.providerId).Info?)
                    || (t.Acting? && j.stage.task.Checking? && e.AzureGet? && e.name == node.name && e.ok
                        && Accepts(cfg, e.state))))
  {
    hide ExtractNodeInfo, RepairCall, Accepts, Live, LooksDue, Check, MarkValues, HealthOf, Overdue;
    if j.stage.Head? && j.stage.todo != [] {
      DueIs(cfg, j.stage.todo[0], now);
    }
  }

  lemma {:induction false} StoryAt(cfg: Config, js: seq<Job>, log: seq<Timed>, j: nat) returns (s: Story)
    requires Trail(cfg, Repair, js, log) && js[0].stage == Rest(Idle) && j <= |log|
    ensures Told(cfg, js, log, j, s)
  {
    hide Step, ExtractNodeInfo, Accepts, LooksDue;
    s := Story(0, 0, 0, 0);
    if j > 0 && js[j].stage.Busy? && RepairTask(js[j].stage.task) {
      var last: nat := j - 1;
      assert StepAt(cfg, Repair, js, log, j - 1);
      var before := StoryAt(cfg, js, log, j - 1);
      RepairStep(cfg, log[j - 1].at, js[j - 1], log[j - 1].event, js[j]);
      if log[j - 1].event.Swept? {
        s := before;
      } else {
        s := match js[j].stage.task
             case Due => before.(due := last)
             case Unlocked => before.(unlocked := last)
             case Checking => before.(free := last)
             case _ => before.(accepted := last);
      }
    }
  }

  /** Every repair call to Azure is the configured action on a node that, in this order, was seen to be unhealthy,
      schedulable and overdue, to have no live lock, to fit into the limit outside of a dry run, and to be in an
      accepted state; and it leads to the lock for a success or for an error. */
  lemma RepairsAreDue(cfg: Config, js: seq<Job>, log: seq<Timed>, j: nat) returns (s: Story, node: NodeObject)
    requires Trail(cfg, Repair, js, log) && js[0].stage == Rest(Idle) && j < |log| && log[j].event.AzureAct?
    ensures node.name == log[j].event.name && Configured(cfg, node, log[j].event.call)
    ensures s.due < s.unlocked < s.free < s.accepted < j
    ensures SeenDue(cfg, js, log, s.due, node) && SeenUnlocked(js, log, s.unlocked, node)
    ensures SeenFree(cfg, js, log, s.free, node) && SeenAccepted(cfg, log, s.accepted, node)
    ensures js[j + 1].stage.Busy? && js[j + 1].stage.node == node
    ensures js[j + 1].stage.task ==
            Locking(if log[j].event.ok then cfg.repair.lockDuration else cfg.repair.lockDurationError, true)
  {
    hide LocalStep, ExtractNodeInfo, RepairCall, Accepts, Live, HealthOf, Overdue, Told, Configured;
    hide SeenDue, SeenUnlocked, SeenFree, SeenAccepted;
    s := StoryAt(cfg, js, log, j);
    assert StepAt(cfg, Repair, js, log, j);
    node := js[j].stage.node;
    AlwaysProper(cfg, Repair, js, log, j);
    ActingStory(cfg, js, log, j, s);
    ConfiguredIs(cfg, node, log[j].event.call);
  }

  lemma ActingStory(cfg: Config, js: seq<Job>, log: seq<Timed>, j: nat, s: Story)
    requires j <= |log| < |js| && Told(cfg, js, log, j, s) && js[j].stage.Busy? && js[j].stage.task.Acting?
    ensures var node := js[j].stage.node;
            && s.due < s.unlocked < s.free < s.accepted < j
            && SeenDue(cfg, js, log, s.due, node) && SeenUnlocked(js, log, s.unlocked, node)
            && SeenFree(cfg, js, log, s.free, node) && SeenAccepted(cfg, log, s.accepted, node)
  {
    hide SeenDue, SeenUnlocked, SeenFree, SeenAccepted;
  }

  // ---- the decisions on the way there ----

  /** The limit check of a node without a live lock, and what follows it: at the limit, or with an ID that cannot be
      parsed, the node is passed over; a dry run locks it; the own node ends the run; otherwise Azure is asked. */
  lemma FreeLook(cfg: Config, js: seq<Job>, log: seq<Timed>, j: nat)
    requires Trail(cfg, Repair, js, log) && j < |log| && !log[j].event.Swept?
    requires js[j].stage.Busy? && js[j].stage.task.Unlocked?
    ensures log[j].event.Local? && js[j + 1].locks == js[j].locks
    ensures var node, todo, locks := js[j].stage.node, js[j].stage.todo, js[j].locks;
            js[j + 1].stage ==
            if (cfg.repair.limit > 0 && cfg.repair.limit <= |locks|)
               || ExtractNodeInfo(node.name, node.providerId).Unrecognised? then Head(RepairRun, todo)
            else if cfg.dryRun then Busy(Locking(cfg.repair.lockDuration, false), node, todo)
            else if cfg.self == Some(node.name) then Rest(Idle)
            else Busy(Checking, node, todo)
  {
    hide ExtractNodeInfo;
    assert StepAt(cfg, Repair, js, log, j);
  }

  /** A lock in the cache, of either job: a live entry stays as it is; otherwise there is one for the duration, or for 15
      minutes if that is zero. */
  lemma LockEntry(cfg: Config, kind: Kind, js: seq<Job>, log: seq<Timed>, j: nat)
    requires Trail(cfg, kind, js, log) && j < |log| && !log[j].event.Swept?
    requires js[j].stage.Busy? && js[j].stage.task.Locking?
    ensures var name, dur, locks, at := js[j].stage.node.name, js[j].stage.task.dur, js[j].locks, log[j].at;
            js[j + 1].locks ==
            if name in locks && (locks[name].expiry.At? ==> at <= locks[name].expiry.instant) then locks
            else locks[name := Item(true, if dur > 0 then At(at + dur)
                                          else if dur == 0 then At(at + 15 * 60 * 1_000_000_000) else Never)]
    ensures log[j].event.Local? && if js[j].stage.task.annotate
                                   then js[j + 1].stage == js[j].stage.(task := Stamping(js[j].stage.task.dur))
                                   else js[j + 1].stage.Head? && js[j + 1].stage.todo == js[j].stage.todo
  {
    hide ExtractNodeInfo;
    assert StepAt(cfg, kind, js, log, j);
  }

  /** A repair that Azure refuses, or whose action is not known, leads to the lock for an error. */
  lemma RefusedRepairLocks(cfg: Config, js: seq<Job>, log: seq<Timed>, j: nat)
    requires Trail(cfg, Repair, js, log) && j < |log| && !log[j].event.Swept? && js[j].stage.Busy?
    requires js[j].stage.task.Checking? && log[j].event.AzureGet? ==> !log[j].event.ok || !Accepts(cfg, log[j].event.state)
    requires js[j].stage.task.Checking? || (js[j].stage.task.Acting? && log[j].event.Local?)
    ensures js[j + 1].stage == js[j].stage.(task := Locking(cfg.repair.lockDurationError, true))
    ensures js[j].stage.task.Acting? ==> forall call :: !Configured(cfg, js[j].stage.node, call)
  {
    hide ExtractNodeInfo, Accepts, RepairCall, Configured;
    assert StepAt(cfg, Repair, js, log, j);
    forall call ensures Configured(cfg, js[j].stage.node, call) <==> RepairCall(cfg, js[j].stage.node) == Some(call) {
      ConfiguredIs(cfg, js[j].stage.node, call);
    }
  }
}

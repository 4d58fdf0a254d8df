/**
 The autoscaler annotations: updateNode forbids scaling the node down, the lock that follows says until when, and
 Cleanup lifts the ban when that time is over. A ban without an end would stay for ever.
 */
module ScaleDown {
  import opened Options
  import opened ProviderId
  import opened JsonPatch
  import opened Nodes
  import opened Settings
  import opened TimedCaches
  import opened Jobs
  import opened World
  import opened Plays
  import opened Ticks
  import opened LockWindow

  /** If scaling the node down is forbidden, there is an end to it. */
  predicate Settled(nodes: Cluster, name: string) {
    name in nodes && SCALE_DOWN_DISABLED in nodes[name].annotations ==> SCALE_DOWN_EXPIRE in nodes[name].annotations
  }

  /** The update job is on its way to the lock of the node. */
  predicate Owes(stage: Stage, name: string) {
    && stage.Busy? && stage.node.name == name
    && (UpdateTask(stage.task) || (stage.task.Locking? && stage.task.annotate)
        || stage.task.Stamping? || stage.task.Writing?)
  }

  predicate SettledOrOwed(w: World, name: string) {
    Owes(w.update.stage, name) || Settled(w.nodes, name)
  }

  /** Others leave the two annotations alone and bring no node with an endless ban; the process does not die, and
      the API server takes the lock patches of the update job. */
  predicate Assumed(w: World, h: Happening, name: string) {
    match h.what
    case ByJob(kind, e, _) => kind.Update? && e.Patch? && w.update.stage.Busy? && w.update.stage.task.Writing? ==> e.ok
    case Died => false
    case ByOthers(change) =>
      (match change
       case Annotated(n, key, _) => n != name || (key != SCALE_DOWN_DISABLED && key != SCALE_DOWN_EXPIRE)
       case Joined(node) => Settled(map[node.name := node], name)
       case _ => true)
  }

  // ---- what patches do to the two annotations ----

  predicate Ends(doc: Annotations) {
    SCALE_DOWN_DISABLED in doc ==> SCALE_DOWN_EXPIRE in doc
  }

  /** Only the mark of updateNode can leave a ban without an end. */
  lemma PatchEnds(cfg: Config, kind: Kind, now: int, j: Job, name: string, change: Change, ok: bool, doc: Annotations)
    requires cfg.DistinctAnnotations() && Proper(cfg, kind, j.stage)
    requires Step(cfg, kind, now, j, Patch(name, change, ok)).Some? && Effect(doc, change).Applied?
    requires Ends(doc) && !j.stage.task.Marking?
    ensures Ends(Effect(doc, change).result)
  {
    hide LocalStep, MarkValues, LockValues;
    cfg.OwnNames();
  }

  lemma LockEnds(cfg: Config, change: Change, doc: Annotations)
    requires cfg.scaledownLockTime > 0 && IsLockChange(cfg, Update, change)
    ensures Effect(doc, change).Applied? && Ends(Effect(doc, change).result)
  {
  }

  // ---- one step ----

  lemma OutsideSettled(w: World, h: Happening, name: string)
    requires h.what.ByOthers? && Assumed(w, h, name) && Settled(w.nodes, name)
    ensures Settled(OutsideEffect(w.nodes, h.what.change), name)
  {
  }

  lemma EventSettled(cfg: Config, kind: Kind, now: int, j: Job, e: Event, applied: bool, nodes: Cluster, name: string)
    requires cfg.DistinctAnnotations() && Proper(cfg, kind, j.stage) && Step(cfg, kind, now, j, e).Some?
    requires EventEffect(cfg, nodes, e, applied).Some? && Settled(nodes, name)
    requires !(j.stage.Busy? && j.stage.node.name == name && j.stage.task.Marking?)
    ensures Settled(EventEffect(cfg, nodes, e, applied).value, name)
  {
    hide Step, Effect, Proper;
    if e.Patch? && applied && e.name == name {
      PatchTouches(cfg, kind, now, j, e.name, e.change, e.ok);
      PatchEnds(cfg, kind, now, j, e.name, e.change, e.ok, nodes[name].annotations);
    }
  }

  lemma OweLocal(cfg: Config, now: int, locks: Cache<bool>, task: Task, node: NodeObject, todo: seq<NodeObject>)
    requires Owes(Busy(task, node, todo), node.name) && TaskStep(cfg, Update, now, locks, task, node, todo).Some?
    ensures Owes(TaskStep(cfg, Update, now, locks, task, node, todo).value.stage, node.name)
  {
    hide TaskStep;
  }

  lemma OweAnswer(cfg: Config, task: Task, node: NodeObject, todo: seq<NodeObject>, e: Event)
    requires Owes(Busy(task, node, todo), node.name) && AnswerStep(cfg, Update, task, node, todo, e).Some?
    ensures Owes(AnswerStep(cfg, Update, task, node, todo, e).value, node.name) || (task.Writing? && e.Patch?)
    ensures e.Patch? && task.Writing? ==> e.change == task.change
  {
    hide RepairCall, MarkValues;
  }

  /** From the mark to the lock the update job stays with the node. */
  lemma OweOn(cfg: Config, now: int, j: Job, e: Event, next: Job, name: string)
    requires Owes(j.stage, name) && Step(cfg, Update, now, j, e) == Some(next)
    ensures Owes(next.stage, name) || (j.stage.task.Writing? && e.Patch?)
    ensures e.Patch? && j.stage.task.Writing? ==> e.name == name && e.change == j.stage.task.change
  {
    hide TaskStep, AnswerStep, Owes;
    var stage := j.stage;
    OwesNode(stage, name);
    match e
    case Local => OweLocal(cfg, now, j.locks, stage.task, stage.node, stage.todo);
    case Swept =>
    case Listed(_) =>
    case Collected(_, _, _, _) =>
    case _ => OweAnswer(cfg, stage.task, stage.node, stage.todo, e);
  }

  lemma OwesNode(stage: Stage, name: string)
    requires Owes(stage, name)
    ensures stage.Busy? && stage.node.name == name
  {
  }

  lemma LockSettles(cfg: Config, w: World, e: Event, applied: bool, name: string)
    requires cfg.scaledownLockTime > 0 && Proper(cfg, Update, w.update.stage)
    requires w.update.stage.Busy? && w.update.stage.task.Writing?
    requires e.Patch? && e.ok && e.name == name && e.change == w.update.stage.task.change
    requires EventEffect(cfg, w.nodes, e, applied).Some?
    ensures Settled(EventEffect(cfg, w.nodes, e, applied).value, name)
  {
    hide Effect, IsLockChange;
    LockEnds(cfg, e.change, w.nodes[name].annotations);
  }

  lemma UpdateStepSettles(cfg: Config, w: World, h: Happening, next: World, name: string)
    requires cfg.DistinctAnnotations() && cfg.scaledownLockTime > 0 && Orderly(cfg, w)
    requires h.what.ByJob? && h.what.kind.Update? && WorldStep(cfg, w, h) == Some(next)
    requires Assumed(w, h, name) && SettledOrOwed(w, name)
    ensures SettledOrOwed(next, name)
  {
    hide Step, EventEffect, Settled, Tidy, Proper, Keyed;
    var e := h.what.event;
    if Owes(w.update.stage, name) {
      OweOn(cfg, h.at, w.update, e, next.update, name);
      if w.update.stage.task.Writing? && e.Patch? {
        LockSettles(cfg, w, e, h.what.applied, name);
      }
    } else {
      EventSettled(cfg, Update, h.at, w.update, e, h.what.applied, w.nodes, name);
    }
  }

  lemma StepSettles(cfg: Config, w: World, h: Happening, next: World, name: string)
    requires cfg.DistinctAnnotations() && cfg.scaledownLockTime > 0 && Orderly(cfg, w)
    requires WorldStep(cfg, w, h) == Some(next) && Assumed(w, h, name) && SettledOrOwed(w, name)
    ensures SettledOrOwed(next, name)
  {
    hide Step, EventEffect, OutsideEffect, Settled, Tidy, Proper, Keyed;
    match h.what
    case ByJob(Update, _, _) => UpdateStepSettles(cfg, w, h, next, name);
    case ByJob(Repair, e, applied) =>
      if Settled(w.nodes, name) {
        RepairMarksNothing(cfg, w.repair.stage);
        EventSettled(cfg, Repair, h.at, w.repair, e, applied, w.nodes, name);
      }
    case ByOthers(_) => if Settled(w.nodes, name) { OutsideSettled(w, h, name); }
  }

  lemma RepairMarksNothing(cfg: Config, stage: Stage)
    requires Proper(cfg, Repair, stage)
    ensures stage.Busy? ==> !stage.task.Marking?
  {
  }

  // ---- a whole run ----

  lemma {:induction false} SettledUpTo(cfg: Config, ws: seq<World>, hs: seq<Happening>, i: nat, j: nat, name: string)
    requires cfg.DistinctAnnotations() && cfg.scaledownLockTime > 0 && Behaviour(cfg, ws, hs) && i <= j <= |hs|
    requires SettledOrOwed(ws[i], name)
    requires forall k :: i <= k < j ==> Assumed(ws[k], hs[k], name)
    ensures SettledOrOwed(ws[j], name)
  {
    hide WorldStep, SettledOrOwed, Orderly, Assumed, Starts;
    if i < j {
      SettledUpTo(cfg, ws, hs, i, j - 1, name);
      AlwaysOrderly(cfg, ws, hs, j - 1);
      assert HappensAt(cfg, ws, hs, j - 1);
      StepSettles(cfg, ws[j - 1], hs[j - 1], ws[j], name);
    }
  }

  /** updateNode began on the node at i, and at j the update job is done with it: a ban on scaling the node down has
      its end, whatever updateNode got to, and whatever the repair job did meanwhile. */
  lemma BanHasAnEnd(cfg: Config, ws: seq<World>, hs: seq<Happening>, i: nat, j: nat, name: string)
    requires cfg.DistinctAnnotations() && cfg.scaledownLockTime > 0 && Behaviour(cfg, ws, hs) && i <= j <= |hs|
    requires ws[i].update.stage.Busy? && ws[i].update.stage.task.Marking? && ws[i].update.stage.node.name == name
    requires !Owes(ws[j].update.stage, name)
    requires forall k :: i <= k < j ==> Assumed(ws[k], hs[k], name)
    ensures Settled(ws[j].nodes, name)
  {
    hide WorldStep, Assumed, Starts;
    SettledUpTo(cfg, ws, hs, i, j, name);
  }

  // ---- the ban while an update is in flight ----

  predicate Banned(nodes: Cluster, name: string) {
    name in nodes ==> SCALE_DOWN_DISABLED in nodes[name].annotations
  }

  /** Cleanup of the repair job is about to remove the annotations of the node. */
  predicate Lifting(stage: Stage, name: string) {
    stage.Busy? && stage.task.CleanDropping? && stage.node.name == name
  }

  /** Cleanup of the repair job looks at a list that shows the node with an outdated expire annotation. */
  predicate LooksOver(cfg: Config, w: World, h: Happening, name: string) {
    && h.what.ByJob? && h.what.kind.Repair? && h.what.event.Local?
    && w.repair.stage.Head? && w.repair.stage.loop.Cleanup? && w.repair.stage.todo != []
    && w.repair.stage.todo[0].name == name && BanIsOver(cfg, w.repair.stage.todo[0], h.at)
  }

  /** Nobody else takes the ban away, and Cleanup of the repair job has no reason to. */
  predicate Unlifted(cfg: Config, w: World, h: Happening, name: string) {
    && !LooksOver(cfg, w, h, name)
    && match h.what
       case ByOthers(change) =>
         (match change
          case Annotated(n, key, value) => n != name || key != SCALE_DOWN_DISABLED || value.Some?
          case Joined(node) => node.name != name || SCALE_DOWN_DISABLED in node.annotations
          case _ => true)
       case _ => true
  }

  lemma OutsideBans(cfg: Config, w: World, h: Happening, name: string)
    requires h.what.ByOthers? && Unlifted(cfg, w, h, name) && Banned(w.nodes, name)
    ensures Banned(OutsideEffect(w.nodes, h.what.change), name)
  {
  }

  /** No patch but that of Cleanup takes the ban away. */
  lemma PatchBans(cfg: Config, kind: Kind, now: int, j: Job, name: string, change: Change, ok: bool, doc: Annotations)
    requires cfg.DistinctAnnotations() && Proper(cfg, kind, j.stage)
    requires Step(cfg, kind, now, j, Patch(name, change, ok)).Some? && Effect(doc, change).Applied?
    requires SCALE_DOWN_DISABLED in doc && !Lifting(j.stage, name)
    ensures SCALE_DOWN_DISABLED in Effect(doc, change).result
  {
    hide LocalStep, MarkValues, LockValues;
    cfg.OwnNames();
  }

  lemma EventBans(cfg: Config, kind: Kind, now: int, j: Job, e: Event, applied: bool, nodes: Cluster, name: string)
    requires cfg.DistinctAnnotations() && Proper(cfg, kind, j.stage) && Step(cfg, kind, now, j, e).Some?
    requires EventEffect(cfg, nodes, e, applied).Some? && Banned(nodes, name) && !Lifting(j.stage, name)
    ensures Banned(EventEffect(cfg, nodes, e, applied).value, name)
  {
    hide Step, Effect, Proper, Lifting;
    if e.Patch? && applied && e.name == name {
      PatchBans(cfg, kind, now, j, e.name, e.change, e.ok, nodes[name].annotations);
    }
  }

  lemma RepairStaysAway(cfg: Config, now: int, j: Job, e: Event, next: Job, name: string)
    requires Step(cfg, Repair, now, j, e) == Some(next) && !Lifting(j.stage, name)
    requires e.Local? && j.stage.Head? && j.stage.loop.Cleanup? && j.stage.todo != [] && j.stage.todo[0].name == name
             ==> !BanIsOver(cfg, j.stage.todo[0], now)
    ensures !Lifting(next.stage, name)
  {
    hide Parsed, Check, HealthOf, Overdue, RepairCall, MarkValues, LockValues, BanIsOver;
  }

  lemma StepBans(cfg: Config, w: World, h: Happening, next: World, name: string)
    requires cfg.DistinctAnnotations() && Orderly(cfg, w) && WorldStep(cfg, w, h) == Some(next)
    requires Banned(w.nodes, name) && !Lifting(w.repair.stage, name) && Owes(w.update.stage, name)
    requires Unlifted(cfg, w, h, name)
    ensures Banned(next.nodes, name) && !Lifting(next.repair.stage, name)
  {
    hide Step, EventEffect, OutsideEffect, Banned, Tidy, Proper, Keyed, BanIsOver;
    match h.what
    case ByJob(kind, e, applied) =>
      EventBans(cfg, kind, h.at, w.JobOf(kind), e, applied, w.nodes, name);
      if kind.Repair? {
        RepairStaysAway(cfg, h.at, w.repair, e, next.repair, name);
      }
    case Died =>
    case ByOthers(_) => OutsideBans(cfg, w, h, name);
  }

  /** The API server takes the mark of updateNode. */
  predicate Marks(cfg: Config, w: World, h: Happening, name: string) {
    && w.update.stage.Busy? && w.update.stage.task.Marking? && w.update.stage.node.name == name
    && h.what.ByJob? && h.what.kind.Update? && h.what.event.Patch? && h.what.applied
  }

  lemma MarkBans(cfg: Config, w: World, h: Happening, next: World, name: string)
    requires WorldStep(cfg, w, h) == Some(next) && Marks(cfg, w, h, name)
    ensures Banned(next.nodes, name) && next.repair == w.repair
  {
    hide LocalStep;
  }

  lemma {:induction false} BannedUpTo(cfg: Config, ws: seq<World>, hs: seq<Happening>, i: nat, j: nat, name: string)
    requires cfg.DistinctAnnotations() && Behaviour(cfg, ws, hs) && i <= j <= |hs|
    requires Banned(ws[i].nodes, name) && !Lifting(ws[i].repair.stage, name)
    requires forall k :: i <= k < j ==> Owes(ws[k].update.stage, name) && Unlifted(cfg, ws[k], hs[k], name)
    ensures Banned(ws[j].nodes, name) && !Lifting(ws[j].repair.stage, name)
  {
    hide WorldStep, Banned, Lifting, Owes, Unlifted, Orderly, Starts;
    if i < j {
      BannedUpTo(cfg, ws, hs, i, j - 1, name);
      AlwaysOrderly(cfg, ws, hs, j - 1);
      assert HappensAt(cfg, ws, hs, j - 1);
      StepBans(cfg, ws[j - 1], hs[j - 1], ws[j], name);
    }
  }

  /** The mark is taken at i, and up to j the update job stays with the node: the node may not be scaled down, whatever
      else both jobs do, as long as Cleanup of the repair job is not at the node when it is marked, and sees no outdated
      expire annotation on it afterwards. */
  lemma BanStandsInFlight(cfg: Config, ws: seq<World>, hs: seq<Happening>, i: nat, j: nat, name: string)
    requires cfg.DistinctAnnotations() && Behaviour(cfg, ws, hs) && i < j <= |hs|
    requires Marks(cfg, ws[i], hs[i], name) && !Lifting(ws[i].repair.stage, name)
    requires forall k :: i < k < j ==> Owes(ws[k].update.stage, name) && Unlifted(cfg, ws[k], hs[k], name)
    ensures Banned(ws[j].nodes, name)
  {
    hide WorldStep, Banned, Lifting, Owes, Unlifted, Starts, Marks;
    assert HappensAt(cfg, ws, hs, i);
    MarkBans(cfg, ws[i], hs[i], ws[i + 1], name);
    BannedUpTo(cfg, ws, hs, i + 1, j, name);
  }

  // ---- the ban is lifted in flight ----

  /** The mark at i is taken, and the update call at j goes to a node that may be scaled down. */
  ghost predicate Unprotected(cfg: Config, ws: seq<World>, hs: seq<Happening>, i: nat, j: nat, name: string) {
    && i < j < |hs| < |ws| && Marks(cfg, ws[i], hs[i], name) && !Lifting(ws[i].repair.stage, name)
    && Owes(ws[j].update.stage, name) && hs[j].what == ByJob(Update, AzureAct(name, UpdateInstances, true), false)
    && name in ws[j].nodes && !Banned(ws[j].nodes, name)
  }

  lemma FlyingKeeps(cfg: Config, node: NodeObject, key: string, t: int)
    requires cfg.DistinctAnnotations() && key != cfg.ongoingAnnotation && key != SCALE_DOWN_DISABLED
    ensures key in Flying(cfg, node).annotations <==> key in node.annotations
    ensures key in node.annotations ==> Flying(cfg, node).annotations[key] == node.annotations[key]
    ensures Flying(cfg, node).name == node.name && Paired(Flying(cfg, node))
    ensures BanIsOver(cfg, Flying(cfg, node), t) == BanIsOver(cfg, node, t)
  {
    cfg.OwnNames();
  }

  /** The last part: a tick of the repair job, whose Cleanup finds the ban over, and then the update call. */
  lemma LiftPhase(cfg: Config, w: World, hs: seq<Happening>, start: int, t: int, now: NodeObject, node: NodeObject,
                  locks: Cache<bool>) returns (more: seq<Happening>, call: nat, gone: NodeObject)
    requires Leads(cfg, w, hs, Scene(start, now, Update, InFlight(node), Job(locks, Rest(Idle)))) && start <= t
    requires cfg.DistinctAnnotations() && now.name == node.name
    requires NoneOrOutdated(cfg, Repair, now, t) && BanIsOver(cfg, now, t) && Paired(now)
    ensures Continued(hs, more) && |hs| <= call < |more| && more[call] == UpdateCallOn(t, node.name)
    ensures gone.name == node.name && SCALE_DOWN_DISABLED !in gone.annotations
    ensures Leads(cfg, w, more[..call], Scene(t, gone, Update, InFlight(node), Resting(Place.Cleaned)))
    ensures exists end :: Leads(cfg, w, more, end)
  {
    hide Leads, NoneOrOutdated;
    var free := Unlock(cfg, Repair, now);
    UnlockKeepsBan(cfg, now, t);
    gone := CleanedUp(cfg, free, t);
    hide BanIsOver, CleanedUp;
    more := SyncPhase(cfg, w, hs, Repair, start, t, now, locks, InFlight(node));
    more := CleanPhase(cfg, w, more, Repair, t, free, InFlight(node));
    call := |more|;
    var before := more;
    more := UpdateCallPhase(cfg, w, more, t, gone, node, Resting(Place.Cleaned));
    assert more[..call] == before;
  }

  lemma UnlockKeepsBan(cfg: Config, node: NodeObject, t: int)
    requires cfg.DistinctAnnotations() && BanIsOver(cfg, node, t) && Paired(node)
    ensures var free := Unlock(cfg, Repair, node);
            BanIsOver(cfg, free, t) && Paired(free)
            && CleanedUp(cfg, free, t).name == node.name && SCALE_DOWN_DISABLED !in CleanedUp(cfg, free, t).annotations
  {
    cfg.OwnNames();
  }

  /** The scene at i and at j. */
  lemma SeenUnprotected(cfg: Config, ws: seq<World>, hs: seq<Happening>, i: nat, j: nat, t0: int, t1: int,
                        node: NodeObject, gone: NodeObject, other: Job)
    requires i < j < |hs| < |ws| && !Lifting(other.stage, node.name)
    requires hs[i] == By(Update, t0, Patch(node.name, Set(MarkValues(cfg)), true), true)
    requires ws[i] == Scene(t0, node, Update, Job(NO_LOCKS, Busy(Marking, node, [])), other)
    requires hs[j] == UpdateCallOn(t1, node.name)
    requires ws[j] == Scene(t1, gone, Update, InFlight(node), Resting(Place.Cleaned))
    requires gone.name == node.name && SCALE_DOWN_DISABLED !in gone.annotations
    ensures Unprotected(cfg, ws, hs, i, j, node.name)
  {
    hide MarkValues;
  }

  /** Every expire annotation that is not outdated when the update job cleans up, at t0, but is when the repair job does,
      at t1, can cost an update in flight its protection: all lists are current, all calls succeed, and nobody else
      does anything. */
  lemma CleanupMayUnprotect(cfg: Config, node: NodeObject, t0: int, t1: int)
      returns (ws: seq<World>, hs: seq<Happening>, i: nat, j: nat)
    requires cfg.DistinctAnnotations() && TakenUp(cfg, node) && t0 <= t1
    requires cfg.repair.lockAnnotation !in node.annotations && cfg.update.lockAnnotation !in node.annotations
    requires !BanIsOver(cfg, node, t0) && BanIsOver(cfg, node, t1)
    ensures Behaviour(cfg, ws, hs) && Fair(ws, hs) && ws[0] == Scene(t0, node, Update, FRESH_JOB, FRESH_JOB)
    ensures Unprotected(cfg, ws, hs, i, j, node.name) && hs[j].at == t1
  {
    hide Leads, Scene, TakenUp, BanIsOver, Fair, Unprotected, Flying, NoneOrOutdated, Paired, MarkValues;
    var w := Scene(t0, node, Update, FRESH_JOB, FRESH_JOB);
    cfg.OwnNames();
    FlyingKeeps(cfg, node, cfg.repair.lockAnnotation, t1);
    NothingToUnlock(cfg, Repair, Flying(cfg, node), t1);
    FreshStarts(t0, node, Update);
    Nothing(cfg, w);
    hs := ApproachPhase(cfg, w, [], t0, t0, node, FRESH_JOB);
    hs, i := FlightPhase(cfg, w, hs, t0, node, FRESH_JOB, None);
    var flight, gone := hs, node;
    hs, j, gone := LiftPhase(cfg, w, hs, t0, t1, Flying(cfg, node), node, NO_LOCKS);
    assert hs[..i] == flight[..i];
    var end :| Leads(cfg, w, hs, end);
    ws := Replayed(cfg, w, hs, end);
    SeenUnprotected(cfg, ws, hs, i, j, t0, t1, node, gone, FRESH_JOB);
  }

  lemma LockKeepsTakenUp(cfg: Config, node: NodeObject, t: int, later: int)
    requires cfg.DistinctAnnotations() && TakenUp(cfg, node) && cfg.scaledownLockTime > 0 && cfg.reading.Since?
    requires later <= Rfc3339(t + cfg.repair.lockDuration).instant
    requires later <= Rfc3339(t + cfg.scaledownLockTime).instant
    ensures var locked := Relock(cfg, node, t);
            && TakenUp(cfg, locked) && locked.name == node.name
            && NoneOrOutdated(cfg, Repair, Flying(cfg, locked), later) && BanIsOver(cfg, Flying(cfg, locked), later)
            && Paired(Flying(cfg, locked))
  {
    cfg.OwnNames();
    var locked := Relock(cfg, node, t);
    RelockStillTakenUp(cfg, node, t);
    LockValueOf(cfg.repair.lockAnnotation, cfg.repair.lockDuration, cfg.scaledownLockTime, t, t);
    FlyingKeeps(cfg, locked, cfg.repair.lockAnnotation, later);
    hide TakenUp, Flying, CleanedUp;
  }

  lemma RelockStillTakenUp(cfg: Config, node: NodeObject, t: int)
    requires cfg.DistinctAnnotations() && TakenUp(cfg, node)
    ensures TakenUp(cfg, Relock(cfg, node, t)) && Relock(cfg, node, t).name == node.name
  {
    hide ExtractNodeInfo, LockValuesAt;
    cfg.OwnNames();
    LockValueKeys(cfg.repair.lockAnnotation, cfg.repair.lockDuration, cfg.scaledownLockTime, t, t);
  }

  /** As written, the repair job itself does so: it repairs and locks a broken node, which writes a live expire
      annotation, the update job takes the node up, and the next tick of the repair job, at any time up to the end of
      lock and ban, lifts the ban. */
  lemma RepairLockUnprotects(cfg: Config, node: NodeObject, t0: int, t1: int)
      returns (ws: seq<World>, hs: seq<Happening>, i: nat, j: nat)
    requires cfg.DistinctAnnotations() && cfg.reading.Since? && cfg.scaledownLockTime > 0
    requires TakenUp(cfg, node) && UpForRepair(cfg, node, t0) && Paired(node) && !BanIsOver(cfg, node, t0)
    requires cfg.repair.lockAnnotation !in node.annotations && cfg.update.lockAnnotation !in node.annotations
    requires t0 <= t1 <= Rfc3339(t0 + cfg.repair.lockDuration).instant
    requires t1 <= Rfc3339(t0 + cfg.scaledownLockTime).instant
    ensures Behaviour(cfg, ws, hs) && Fair(ws, hs) && ws[0] == Scene(t0, node, Update, FRESH_JOB, FRESH_JOB)
    ensures Unprotected(cfg, ws, hs, i, j, node.name) && hs[j].at == t1
  {
    hide Leads, TakenUp, UpForRepair, BanIsOver, Fair, Unprotected, Flying, NoneOrOutdated, Paired, MarkValues, Relock, Locked,
         AzureCallOn;
    var w := Scene(t0, node, Update, FRESH_JOB, FRESH_JOB);
    var locked, locks := Relock(cfg, node, t0), Locked(cfg, node.name, t0);
    LockKeepsTakenUp(cfg, node, t0, t1);
    NothingToUnlock(cfg, Repair, node, t0);
    FreshStarts(t0, node, Update);
    FlyingName(cfg, locked);
    Nothing(cfg, w);
    var repaired: nat;
    hs := ApproachPhase(cfg, w, [], t0, t0, node, FRESH_JOB);
    hs, repaired := TickPhase(cfg, w, hs, t0, t0, node, NO_LOCKS, Resting(Place.Cleaned));
    hs, i := FlightPhase(cfg, w, hs, t0, locked, Job(locks, Rest(Idle)), None);
    var flight, gone := hs, node;
    hs, j, gone := LiftPhase(cfg, w, hs, t0, t1, Flying(cfg, locked), locked, locks);
    assert hs[..i] == flight[..i];
    var end :| Leads(cfg, w, hs, end);
    ws := Replayed(cfg, w, hs, end);
    SeenUnprotected(cfg, ws, hs, i, j, t0, t1, locked, gone, Job(locks, Rest(Idle)));
  }

  // ---- the mark is taken too late ----

  /** What `BanStandsInFlight` excludes last: the mark at i is taken while Cleanup of the repair job is about to send its
      patch, and the update call at j goes to a node that may be scaled down, although nothing else lifts the ban. */
  ghost predicate UnprotectedFromMark(cfg: Config, ws: seq<World>, hs: seq<Happening>, i: nat, j: nat, name: string) {
    && i < j < |hs| < |ws| && Marks(cfg, ws[i], hs[i], name) && Lifting(ws[i].repair.stage, name)
    && (forall k :: i < k < j ==> Owes(ws[k].update.stage, name) && Unlifted(cfg, ws[k], hs[k], name))
    && Owes(ws[j].update.stage, name) && hs[j].what == ByJob(Update, AzureAct(name, UpdateInstances, true), false)
    && name in ws[j].nodes && !Banned(ws[j].nodes, name)
  }

  function Lifter(node: NodeObject): Job {
    Job(NO_LOCKS, Busy(CleanDropping, node, []))
  }

  function Lifted(cfg: Config, node: NodeObject): NodeObject {
    var flying := Flying(cfg, node);
    flying.(annotations := flying.annotations - {SCALE_DOWN_EXPIRE, SCALE_DOWN_DISABLED})
  }

  function DropCall(t: int, name: string): Happening {
    By(Repair, t, Patch(name, Drop({SCALE_DOWN_EXPIRE, SCALE_DOWN_DISABLED}), true), true)
  }

  lemma LateDropStep(cfg: Config, t: int, node: NodeObject)
    requires cfg.DistinctAnnotations() && BanIsOver(cfg, node, t)
    ensures var change, flying := Drop({SCALE_DOWN_EXPIRE, SCALE_DOWN_DISABLED}), Flying(cfg, node);
            && Step(cfg, Repair, t, Lifter(node), Patch(flying.name, change, true)) == Some(Job(NO_LOCKS, Head(Cleanup, [])))
            && Effect(flying.annotations, change) == Applied(Lifted(cfg, node).annotations)
            && flying.name == node.name
  {
    FlyingName(cfg, node);
    FlyingKeeps(cfg, node, SCALE_DOWN_EXPIRE, t) by { cfg.OwnNames(); }
  }

  /** The patch of Cleanup, and then the update call. */
  lemma LateDropPhase(cfg: Config, w: World, hs: seq<Happening>, t: int, node: NodeObject) returns (more: seq<Happening>)
    requires cfg.DistinctAnnotations() && BanIsOver(cfg, node, t)
    requires Leads(cfg, w, hs, Scene(t, Flying(cfg, node), Update, InFlight(node), Lifter(node)))
    ensures more == hs + [DropCall(t, node.name), UpdateCallOn(t, node.name)] && Continued(hs, more)
    ensures Leads(cfg, w, more[..|hs| + 1],
                  Scene(t, Lifted(cfg, node), Update, InFlight(node), Job(NO_LOCKS, Head(Cleanup, []))))
    ensures exists end :: Leads(cfg, w, more, end)
  {
    hide Leads, Step, Effect, Flying, BanIsOver;
    LateDropStep(cfg, t, node);
    var done := Job(NO_LOCKS, Head(Cleanup, []));
    more := Send(cfg, w, hs, Repair, t, Flying(cfg, node), Lifter(node), InFlight(node),
                 Drop({SCALE_DOWN_EXPIRE, SCALE_DOWN_DISABLED}), done, Lifted(cfg, node));
    var dropped := more;
    more := UpdateCallPhase(cfg, w, more, t, Lifted(cfg, node), node, done);
    assert more[..|hs| + 1] == dropped;
  }

  lemma SeenLate(cfg: Config, ws: seq<World>, hs: seq<Happening>, i: nat, j: nat, t: int, node: NodeObject)
    requires j == i + 3 + (if cfg.drain.enable then 1 else 0) && j < |hs| < |ws|
    requires hs[i] == By(Update, t, Patch(node.name, Set(MarkValues(cfg)), true), true)
    requires ws[i] == Scene(t, node, Update, Job(NO_LOCKS, Busy(Marking, node, [])), Lifter(node))
    requires ws[i + 1] == Scene(t, WithMark(cfg, node), Update, Job(NO_LOCKS, Busy(Inspecting, node, [])), Lifter(node))
    requires ws[i + 2] == Scene(t, WithMark(cfg, node), Update, Job(NO_LOCKS, Busy(DrainOrUpdate(cfg), node, [])), Lifter(node))
    requires ws[j - 1] == Scene(t, Flying(cfg, node), Update, InFlight(node), Lifter(node))
    requires forall k :: i < k < j ==> hs[k].what.ByJob? && !hs[k].what.event.Local?
    requires ws[j] == Scene(t, Lifted(cfg, node), Update, InFlight(node), Job(NO_LOCKS, Head(Cleanup, [])))
    requires hs[j] == UpdateCallOn(t, node.name)
    ensures UnprotectedFromMark(cfg, ws, hs, i, j, node.name)
  {
    hide MarkValues, WithMark, BanIsOver;
    FlyingName(cfg, node);
    forall k | i < k < j ensures Owes(ws[k].update.stage, node.name) && Unlifted(cfg, ws[k], hs[k], node.name) {
      assert k == i + 1 || k == i + 2 || k == j - 1;
    }
  }

  /** For every expire annotation that is not outdated when the update job cleans up, at t0, but is when the repair job
      does, at t1, there is such a behaviour, with current lists and without any failure. */
  lemma LateMarkUnprotected(cfg: Config, node: NodeObject, t0: int, t1: int)
      returns (ws: seq<World>, hs: seq<Happening>, i: nat, j: nat)
    requires cfg.DistinctAnnotations() && TakenUp(cfg, node) && t0 <= t1
    requires cfg.repair.lockAnnotation !in node.annotations && cfg.update.lockAnnotation !in node.annotations
    requires !BanIsOver(cfg, node, t0) && BanIsOver(cfg, node, t1)
    ensures Behaviour(cfg, ws, hs) && Fair(ws, hs) && ws[0] == Scene(t0, node, Update, FRESH_JOB, FRESH_JOB)
    ensures UnprotectedFromMark(cfg, ws, hs, i, j, node.name) && hs[j].at == t1
  {
    hide Leads, TakenUp, BanIsOver, Fair, UnprotectedFromMark, Flying, Lifted, NoneOrOutdated, MarkValues, WithMark;
    var w := Scene(t0, node, Update, FRESH_JOB, FRESH_JOB);
    NothingToUnlock(cfg, Repair, node, t1);
    FreshStarts(t0, node, Update);
    Nothing(cfg, w);
    hs := ApproachPhase(cfg, w, [], t0, t0, node, FRESH_JOB);
    hs := SyncPhase(cfg, w, hs, Repair, t0, t1, node, NO_LOCKS, Resting(Place.Cleaned));
    hs := LookPhase(cfg, w, hs, Repair, t1, node, Resting(Place.Cleaned));
    hs, i := FlightPhase(cfg, w, hs, t1, node, Lifter(node), None);
    var flight := hs;
    j := |hs| + 1;
    hs := LateDropPhase(cfg, w, hs, t1, node);
    assert hs[..j - 1] == flight;
    assert hs[..i] == flight[..i] && hs[..i + 1] == flight[..i + 1] && hs[..i + 2] == flight[..i + 2];
    var end :| Leads(cfg, w, hs, end);
    ws := Replayed(cfg, w, hs, end);
    SeenLate(cfg, ws, hs, i, j, t1, node);
  }
}

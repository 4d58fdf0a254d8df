/**
 Draining protects a node under update from the repair job: a repair run that took its list after the node was drained
 and before it was uncordoned does not turn to Azure about it, however the two jobs interleave.
 */
module DrainGuard {
  import opened Options
  import opened JsonPatch
  import opened Nodes
  import opened Settings
  import opened Jobs
  import opened World
  import opened Plays
  import opened Ticks
  import opened LockWindow

  /** The update job drains the node, and kubectl reports success or has cordoned the node at least. */
  predicate Drains(cfg: Config, h: Happening, name: string) {
    && h.what.ByJob? && h.what.kind.Update? && h.what.event.Drain? && h.what.event.name == name
    && (h.what.applied || (h.what.event.ok && !cfg.drain.dryRun))
  }

  /** The node is made schedulable again, or replaced. */
  predicate Reopens(h: Happening, name: string) {
    match h.what
    case ByJob(_, e, applied) => e.Uncordon? && e.name == name && applied
    case Died => false
    case ByOthers(change) =>
      (match change
       case Cordoned(n, on) => n == name && !on
       case Joined(node) => node.name == name
       case _ => false)
  }

  predicate Closed(nodes: Cluster, name: string) {
    name in nodes ==> nodes[name].unschedulable
  }

  /** repairRun takes its list. */
  predicate TakesList(w: World, h: Happening) {
    && h.what.ByJob? && h.what.kind.Repair? && h.what.event.Listed?
    && w.repair.stage == Rest(Cleaned)
  }

  predicate AllClosed(todo: seq<NodeObject>, name: string) {
    forall node <- todo :: node.name == name ==> node.unschedulable
  }

  /** The rest of a repair run passes the node by. */
  predicate Avoids(stage: Stage, name: string) {
    match stage
    case Rest(_) => stage == Rest(Idle)
    case Head(loop, todo) => loop.RepairRun? && AllClosed(todo, name)
    case Busy(task, node, todo) =>
      && (RepairTask(task) || task.Locking? || task.Stamping? || task.Writing?)
      && node.name != name && AllClosed(todo, name)
  }

  // ---- the node stays closed ----

  lemma DrainCloses(cfg: Config, w: World, h: Happening, next: World, name: string)
    requires WorldStep(cfg, w, h) == Some(next) && Drains(cfg, h, name)
    ensures Closed(next.nodes, name)
  {
    hide Step;
  }

  lemma EventKeepsClosed(cfg: Config, nodes: Cluster, e: Event, applied: bool, name: string)
    requires EventEffect(cfg, nodes, e, applied).Some? && Closed(nodes, name)
    requires !(e.Uncordon? && e.name == name && applied)
    ensures Closed(EventEffect(cfg, nodes, e, applied).value, name)
  {
    hide Effect;
  }

  lemma StepKeepsClosed(cfg: Config, w: World, h: Happening, next: World, name: string)
    requires WorldStep(cfg, w, h) == Some(next) && Closed(w.nodes, name) && !Reopens(h, name)
    ensures Closed(next.nodes, name)
  {
    hide Step, EventEffect, Closed;
    match h.what
    case ByJob(_, e, applied) => EventKeepsClosed(cfg, w.nodes, e, applied, name);
    case Died =>
    case ByOthers(change) => OutsideKeepsClosed(w.nodes, change, name);
  }

  lemma OutsideKeepsClosed(nodes: Cluster, change: Outside, name: string)
    requires Closed(nodes, name) && !Reopens(Happening(0, ByOthers(change)), name)
    ensures Closed(OutsideEffect(nodes, change), name)
  {
  }

  lemma {:induction false} StaysClosed(cfg: Config, ws: seq<World>, hs: seq<Happening>, i: nat, k: nat, name: string)
    requires Behaviour(cfg, ws, hs) && i <= k <= |hs| && Closed(ws[i].nodes, name)
    requires forall m :: i <= m < k ==> !Reopens(hs[m], name)
    ensures Closed(ws[k].nodes, name)
  {
    hide WorldStep, Closed, Reopens, Starts;
    if i < k {
      StaysClosed(cfg, ws, hs, i, k - 1, name);
      assert HappensAt(cfg, ws, hs, k - 1);
      StepKeepsClosed(cfg, ws[k - 1], hs[k - 1], ws[k], name);
    }
  }

  // ---- the run passes the node by ----

  lemma ListAvoids(view: seq<NodeObject>, nodes: Cluster, name: string)
    requires Current(view, nodes) && Closed(nodes, name)
    ensures AllClosed(view, name)
  {
  }

  lemma LocalAvoids(cfg: Config, now: int, j: Job, name: string)
    requires Avoids(j.stage, name) && LocalStep(cfg, Repair, now, j).Some?
    ensures Avoids(LocalStep(cfg, Repair, now, j).value.stage, name)
  {
    hide Parsed, RepairCall, LockValues, HealthOf, Overdue, Check;
  }

  lemma AnswerAvoids(cfg: Config, task: Task, node: NodeObject, todo: seq<NodeObject>, e: Event, name: string)
    requires Avoids(Busy(task, node, todo), name) && AnswerStep(cfg, Repair, task, node, todo, e).Some?
    ensures Avoids(AnswerStep(cfg, Repair, task, node, todo, e).value, name)
  {
    hide RepairCall, MarkValues;
  }

  lemma RepairAvoids(cfg: Config, now: int, j: Job, e: Event, next: Job, name: string)
    requires Avoids(j.stage, name) && j.stage != Rest(Idle) && Step(cfg, Repair, now, j, e) == Some(next)
    ensures Avoids(next.stage, name)
    ensures e.AzureGet? || e.AzureAct? ==> e.name != name
  {
    hide LocalStep, AnswerStep;
    match e
    case Local => LocalAvoids(cfg, now, j, name);
    case Swept =>
    case Listed(_) =>
    case Collected(_, _, _, _) =>
    case _ => AnswerAvoids(cfg, j.stage.task, j.stage.node, j.stage.todo, e, name);
  }

  lemma StepAvoids(cfg: Config, w: World, h: Happening, next: World, name: string)
    requires WorldStep(cfg, w, h) == Some(next) && Avoids(w.repair.stage, name) && w.repair.stage != Rest(Idle)
    ensures Avoids(next.repair.stage, name) && !Repairs(h, name)
  {
    hide Step, EventEffect, OutsideEffect, Avoids;
    if h.what.ByJob? && h.what.kind.Repair? {
      RepairAvoids(cfg, h.at, w.repair, h.what.event, next.repair, name);
    } else if h.what.Died? {
      IdleAvoids(name);
    }
  }

  lemma IdleAvoids(name: string)
    ensures Avoids(FRESH_JOB.stage, name)
  {
  }

  lemma {:induction false} RunAvoids(cfg: Config, ws: seq<World>, hs: seq<Happening>, k: nat, j: nat, name: string)
    requires Behaviour(cfg, ws, hs) && k <= j <= |hs| && Avoids(ws[k].repair.stage, name)
    requires forall m :: k <= m < j ==> ws[m].repair.stage != Rest(Idle)
    ensures Avoids(ws[j].repair.stage, name)
  {
    hide WorldStep, Avoids, Starts;
    if k < j {
      RunAvoids(cfg, ws, hs, k, j - 1, name);
      assert HappensAt(cfg, ws, hs, j - 1);
      StepAvoids(cfg, ws[j - 1], hs[j - 1], ws[j], name);
    }
  }

  lemma ListStep(cfg: Config, w: World, h: Happening, next: World, name: string)
    requires WorldStep(cfg, w, h) == Some(next) && TakesList(w, h) && Closed(w.nodes, name)
    requires Current(h.what.event.view, w.nodes)
    ensures Avoids(next.repair.stage, name)
  {
    ListAvoids(h.what.event.view, w.nodes, name);
  }

  /** Happening i drains the node, k is the list of a repair run, and j is a happening of that same run. */
  lemma DrainedNodeNotRepaired(cfg: Config, ws: seq<World>, hs: seq<Happening>, i: nat, k: nat, j: nat, name: string)
    requires Behaviour(cfg, ws, hs) && i < k < j < |hs|
    requires Drains(cfg, hs[i], name)
    requires TakesList(ws[k], hs[k]) && Current(hs[k].what.event.view, ws[k].nodes)
    requires forall m :: i < m < k ==> !Reopens(hs[m], name)
    requires forall m :: k < m <= j ==> ws[m].repair.stage != Rest(Idle)
    ensures !Repairs(hs[j], name)
  {
    hide WorldStep, Drains, Reopens, Closed, Avoids, TakesList, Current, Starts, Repairs;
    assert HappensAt(cfg, ws, hs, i) && HappensAt(cfg, ws, hs, k) && HappensAt(cfg, ws, hs, j);
    DrainCloses(cfg, ws[i], hs[i], ws[i + 1], name);
    StaysClosed(cfg, ws, hs, i + 1, k, name);
    ListStep(cfg, ws[k], hs[k], ws[k + 1], name);
    RunAvoids(cfg, ws, hs, k + 1, j, name);
    StepAvoids(cfg, ws[j], hs[j], ws[j + 1], name);
  }

  /** The repair job takes no other list. */
  predicate NoNewList(hs: seq<Happening>, i: nat, j: nat)
    requires j <= |hs|
  {
    forall m :: i < m < j ==> !(hs[m].what.ByJob? && hs[m].what.kind.Repair? && hs[m].what.event.Listed?)
  }

  /** What `DrainedNodeNotRepaired` excludes, with the list and the drain the other way round. */
  ghost predicate RepairedWhenDrained(cfg: Config, ws: seq<World>, hs: seq<Happening>, i: nat, k: nat, j: nat, name: string) {
    && i < k < j < |hs| < |ws|
    && TakesList(ws[i], hs[i]) && Current(hs[i].what.event.view, ws[i].nodes) && NoNewList(hs, i, j)
    && Drains(cfg, hs[k], name)
    && (forall m :: k < m < j ==> !Reopens(hs[m], name))
    && Repairs(hs[j], name) && hs[j].what.event.AzureAct? && name in ws[j].nodes && Closed(ws[j].nodes, name)
  }

  /** A repair run that took its list before the drain repairs the node after it: for every node that both jobs may take
      up there is such a behaviour, with current lists and without any failure. The two jobs know nothing of each other. */
  lemma EarlierListMayRepair(cfg: Config, node: NodeObject, t: int)
      returns (ws: seq<World>, hs: seq<Happening>, i: nat, k: nat, j: nat)
    requires TakenUp(cfg, node) && UpForRepair(cfg, node, t) && cfg.drain.enable && !cfg.drain.dryRun
    requires cfg.repair.lockAnnotation !in node.annotations && cfg.update.lockAnnotation !in node.annotations
    requires !BanIsOver(cfg, node, t)
    ensures Behaviour(cfg, ws, hs) && Fair(ws, hs) && ws[0] == Scene(t, node, Repair, FRESH_JOB, FRESH_JOB)
    ensures RepairedWhenDrained(cfg, ws, hs, i, k, j, node.name)
  {
    hide Leads, TakenUp, UpForRepair, BanIsOver, Fair, RepairedWhenDrained, NoneOrOutdated, WithMark;
    var w := Scene(t, node, Repair, FRESH_JOB, FRESH_JOB);
    var acting := Job(NO_LOCKS, Busy(Acting, node, []));
    NothingToUnlock(cfg, Repair, node, t);
    FreshStarts(t, node, Repair);
    Nothing(cfg, w);
    hs := SyncPhase(cfg, w, [], Repair, t, t, node, NO_LOCKS, FRESH_JOB);
    hs := CleanPhase(cfg, w, hs, Repair, t, node, FRESH_JOB);
    i := |hs|;
    var s1 := hs;
    hs := RepairPhase(cfg, w, hs, t, node, FRESH_JOB);
    var s2 := hs;
    hs := ApproachPhase(cfg, w, hs, t, t, node, acting);
    var mark;
    hs, mark := FlightPhase(cfg, w, hs, t, node, acting, None);
    k, j := |hs| - 1, |hs|;
    var s3 := hs;
    BrokenCall(cfg, node, t);
    ActStep(cfg, t, node);
    hs := Call(cfg, w, hs, Repair, t, t, Flying(cfg, node), acting, InFlight(node), AzureCallOn(cfg, t, node).what.event,
               Job(NO_LOCKS, Busy(Locking(cfg.repair.lockDuration, true), node, [])));
    ws := Replayed(cfg, w, hs, Scene(t, Flying(cfg, node), Repair,
                                     Job(NO_LOCKS, Busy(Locking(cfg.repair.lockDuration, true), node, [])), InFlight(node)));
    assert hs[..i] == s1 && hs[..j] == s3;
    SeenRepaired(cfg, ws, hs, i, k, j, |s2|, t, node, acting);
  }

  lemma BrokenCall(cfg: Config, node: NodeObject, t: int)
    requires UpForRepair(cfg, node, t)
    ensures RepairCall(cfg, node).Some?
  {
  }

  lemma SeenRepaired(cfg: Config, ws: seq<World>, hs: seq<Happening>, i: nat, k: nat, j: nat, s: nat, t: int,
                     node: NodeObject, acting: Job)
    requires i < s <= k < j == k + 1 < |hs| < |ws| && cfg.drain.enable && !cfg.drain.dryRun
    requires ws[i] == Scene(t, node, Repair, Resting(Place.Cleaned), FRESH_JOB)
    requires hs[i] == By(Repair, t, Listed([node]), false)
    requires forall m :: i < m < s ==> hs[m].what.ByJob? && (hs[m].what.event.Local? || hs[m].what.event.AzureGet?)
    requires forall m :: s <= m < j ==> hs[m].what.ByJob? && hs[m].what.kind == Update
    requires hs[k] == By(Update, t, Drain(node.name, cfg.drain.disableEviction, true), true)
    requires RepairCall(cfg, node).Some? && hs[j] == AzureCallOn(cfg, t, node)
    requires ws[j] == Scene(t, Flying(cfg, node), Repair, acting, InFlight(node))
    ensures RepairedWhenDrained(cfg, ws, hs, i, k, j, node.name)
  {
    hide RepairCall, Flying;
    FlyingName(cfg, node);
    assert Current([node], ws[i].nodes);
  }
}

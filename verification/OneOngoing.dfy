/**
 The "ongoing" annotation is the recovery log of the update job: over all behaviours, with any call failing and the
 process dying anywhere, at most one node that is not excluded carries it.
 */
module OneOngoing {
  import opened Options
  import opened JsonPatch
  import opened Nodes
  import opened Settings
  import opened Jobs
  import opened World

  /** Names of the nodes that carry the ongoing annotation and are not excluded. */
  function Marked(cfg: Config, nodes: Cluster): set<string> {
    set name | name in nodes && Ongoing(cfg, nodes[name]) && !Excluded(cfg, nodes[name])
  }

  predicate AtMostOne(names: set<string>) {
    forall a, b :: a in names && b in names ==> a == b
  }

  /** What the place of the update job says about the marked nodes. */
  predicate MarkedFor(stage: Stage, marked: set<string>) {
    match stage
    case Rest(_) => AtMostOne(marked)
    case Head(loop, todo) =>
      if !loop.UpdateRun? || todo == [] then AtMostOne(marked)
      else if |todo| == 1 then marked <= {todo[0].name}
      else marked == {}
    case Busy(task, node, todo) =>
      if UpdateTask(task) then marked <= {node.name}
      else if todo == [] || !(task.Locking? || task.Stamping? || task.Writing?) then AtMostOne(marked)
      else marked == {}
  }

  predicate Quiet(cfg: Config, change: Outside) {
    match change
    case Annotated(_, key, _) => key != cfg.ongoingAnnotation && key != cfg.excludeAnnotation
    case Joined(node) => !Ongoing(cfg, node)
    case _ => true
  }

  /** Names of the nodes of a list that carry the ongoing annotation and are not excluded. */
  function ViewMarked(cfg: Config, view: seq<NodeObject>): set<string> {
    set node <- view | Ongoing(cfg, node) && !Excluded(cfg, node) :: node.name
  }

  /** The list misses no marked node, and shows one at most; it may be old in everything else. */
  predicate Agrees(cfg: Config, view: seq<NodeObject>, nodes: Cluster) {
    Marked(cfg, nodes) <= ViewMarked(cfg, view) && AtMostOne(ViewMarked(cfg, view))
  }

  /** From m to k the update job was between its Cleanup and its candidates. */
  ghost predicate CleanedSince(ws: seq<World>, m: nat, k: nat)
    requires k < |ws|
  {
    forall i :: m <= i <= k ==> ws[i].update.stage == Rest(Cleaned)
  }

  /** The list was current at some instant since the update job's Cleanup. The Azure listing may take as long as it
      likes after that, with the repair job and everybody else at work. */
  ghost predicate SeenSince(ws: seq<World>, k: nat, view: seq<NodeObject>)
    requires k < |ws|
  {
    exists m: nat :: m <= k && Current(view, ws[m].nodes) && CleanedSince(ws, m, k)
  }

  /** Nobody else writes the ongoing or the exclude annotation, and the list that candidates are collected from was
      current when it was taken. */
  ghost predicate Assumed(cfg: Config, ws: seq<World>, hs: seq<Happening>, k: nat)
    requires k < |hs| && k < |ws|
  {
    match hs[k].what
    case ByJob(kind, e, _) => e.Collected? ==> SeenSince(ws, k, e.view)
    case Died => true
    case ByOthers(change) => Quiet(cfg, change)
  }

  ghost predicate Invariant(cfg: Config, w: World) {
    MarkedFor(w.update.stage, Marked(cfg, w.nodes))
  }

  // ---- what happens to the marked nodes ----

  lemma SameMarks(cfg: Config, nodes: Cluster, name: string, node: NodeObject)
    requires name in nodes
    requires Ongoing(cfg, node) == Ongoing(cfg, nodes[name]) && Excluded(cfg, node) == Excluded(cfg, nodes[name])
    ensures Marked(cfg, nodes[name := node]) == Marked(cfg, nodes)
  {
  }

  lemma PatchMarks(cfg: Config, kind: Kind, now: int, j: Job, name: string, change: Change, ok: bool, nodes: Cluster)
    requires cfg.DistinctAnnotations() && Proper(cfg, kind, j.stage)
    requires Step(cfg, kind, now, j, Patch(name, change, ok)).Some?
    requires name in nodes && Effect(nodes[name].annotations, change).Applied?
    ensures var after := Marked(cfg, Annotate(nodes, name, Effect(nodes[name].annotations, change).result));
            && j.stage.Busy? && j.stage.node.name == name
            && (if j.stage.task.Marking? then after <= Marked(cfg, nodes) + {name}
                else if j.stage.task.Unmarking? then after == Marked(cfg, nodes) - {name}
                else after == Marked(cfg, nodes))
  {
    hide Step;
    cfg.OwnNames();
    PatchTouches(cfg, kind, now, j, name, change, ok);
    var doc := nodes[name].annotations;
    EffectElsewhere(doc, change, cfg.excludeAnnotation);
    if !j.stage.task.Marking? && !j.stage.task.Unmarking? {
      EffectElsewhere(doc, change, cfg.ongoingAnnotation);
      SameMarks(cfg, nodes, name, nodes[name].(annotations := Effect(doc, change).result));
    }
  }

  predicate MarksAfter(stage: Stage, e: Event, applied: bool, before: set<string>, after: set<string>) {
    if e.Patch? && applied && stage.Busy? && stage.task.Marking? then after <= before + {stage.node.name}
    else if e.Patch? && applied && stage.Busy? && stage.task.Unmarking? then after == before - {stage.node.name}
    else after == before
  }

  lemma EventMarks(cfg: Config, kind: Kind, now: int, j: Job, e: Event, applied: bool, nodes: Cluster, next: Cluster)
    requires cfg.DistinctAnnotations() && Proper(cfg, kind, j.stage)
    requires Step(cfg, kind, now, j, e).Some? && EventEffect(cfg, nodes, e, applied) == Some(next)
    ensures MarksAfter(j.stage, e, applied, Marked(cfg, nodes), Marked(cfg, next))
  {
    hide Step;
    match e
    case Patch(name, change, ok) =>
      if applied {
        PatchMarks(cfg, kind, now, j, name, change, ok, nodes);
      }
    case Drain(name, _, _) =>
      if applied {
        SameMarks(cfg, nodes, name, nodes[name].(unschedulable := true));
      }
    case Uncordon(name, _) =>
      if applied {
        SameMarks(cfg, nodes, name, nodes[name].(unschedulable := false));
      }
    case _ =>
  }

  lemma OutsideMarks(cfg: Config, nodes: Cluster, change: Outside)
    requires Quiet(cfg, change)
    ensures Marked(cfg, OutsideEffect(nodes, change)) <= Marked(cfg, nodes)
  {
  }

  // ---- what happens to the place of the update job ----

  lemma FewerMarks(stage: Stage, marked: set<string>, fewer: set<string>)
    requires MarkedFor(stage, marked) && fewer <= marked
    ensures MarkedFor(stage, fewer)
  {
  }

  lemma {:induction false} FirstOngoingIsFirst(cfg: Config, view: seq<NodeObject>)
    ensures FirstOngoing(cfg, view).Some? ==>
              var node := FirstOngoing(cfg, view).value; node in view && Ongoing(cfg, node) && !Excluded(cfg, node)
    ensures FirstOngoing(cfg, view).None? ==> forall node <- view :: Excluded(cfg, node) || !Ongoing(cfg, node)
  {
    if view != [] {
      FirstOngoingIsFirst(cfg, view[1..]);
      assert view == [view[0]] + view[1..];
    }
  }

  /** Resuming an update takes that node alone; several candidates mean that no update is ongoing. */
  lemma CollectedMarks(cfg: Config, view: seq<NodeObject>, outdated: set<string>, failed: nat, reachable: bool,
                       nodes: Cluster)
    requires Agrees(cfg, view, nodes) && AtMostOne(Marked(cfg, nodes))
    ensures MarkedFor(CollectedStep(cfg, view, outdated, failed, reachable), Marked(cfg, nodes))
  {
    FirstOngoingIsFirst(cfg, view);
    if FirstOngoing(cfg, view).Some? {
      assert FirstOngoing(cfg, view).value.name in ViewMarked(cfg, view);
    } else {
      assert ViewMarked(cfg, view) == {};
    }
  }

  lemma LocalMarks(cfg: Config, now: int, j: Job, marked: set<string>)
    requires MarkedFor(j.stage, marked) && Proper(cfg, Update, j.stage) && LocalStep(cfg, Update, now, j).Some?
    ensures MarkedFor(LocalStep(cfg, Update, now, j).value.stage, marked)
  {
    hide Parsed, Check, LockValues, RepairCall, HealthOf, Overdue;
  }

  lemma AnswerMarks(cfg: Config, task: Task, node: NodeObject, todo: seq<NodeObject>, e: Event, applied: bool,
                    before: set<string>, after: set<string>)
    requires MarkedFor(Busy(task, node, todo), before) && Proper(cfg, Update, Busy(task, node, todo))
    requires AnswerStep(cfg, Update, task, node, todo, e).Some?
    requires MarksAfter(Busy(task, node, todo), e, applied, before, after) && (e.Patch? && e.ok ==> applied)
    ensures MarkedFor(AnswerStep(cfg, Update, task, node, todo, e).value, after)
  {
    hide RepairCall, MarkValues;
  }

  lemma JobKeeps(cfg: Config, w: World, kind: Kind, e: Event, applied: bool, at: int, next: World)
    requires cfg.DistinctAnnotations() && Orderly(cfg, w) && Invariant(cfg, w)
    requires WorldStep(cfg, w, Happening(at, ByJob(kind, e, applied))) == Some(next)
    requires e.Collected? ==> Agrees(cfg, e.view, w.nodes)
    ensures Invariant(cfg, next)
  {
    hide LocalStep, AnswerStep, CollectedStep, Effect, MarkedFor, Marked, Tidy, Proper;
    var j, before, after := w.JobOf(kind), Marked(cfg, w.nodes), Marked(cfg, next.nodes);
    EventMarks(cfg, kind, at, j, e, applied, w.nodes, next.nodes);
    match kind
    case Repair => RepairMarks(cfg, at, j, e, applied, w.update.stage, before, after);
    case Update => UpdateMarks(cfg, at, j, e, applied, next.update, w.nodes, before, after);
  }

  lemma RepairMarks(cfg: Config, at: int, j: Job, e: Event, applied: bool, stage: Stage, before: set<string>, after: set<string>)
    requires Proper(cfg, Repair, j.stage) && MarksAfter(j.stage, e, applied, before, after) && MarkedFor(stage, before)
    ensures MarkedFor(stage, after)
  {
  }

  lemma UpdateMarks(cfg: Config, at: int, j: Job, e: Event, applied: bool, next: Job, nodes: Cluster,
                    before: set<string>, after: set<string>)
    requires Proper(cfg, Update, j.stage) && MarksAfter(j.stage, e, applied, before, after)
    requires MarkedFor(j.stage, before) && before == Marked(cfg, nodes)
    requires Step(cfg, Update, at, j, e) == Some(next) && (e.Patch? && e.ok ==> applied)
    requires e.Collected? ==> Agrees(cfg, e.view, nodes)
    ensures MarkedFor(next.stage, after)
  {
    hide LocalStep, AnswerStep, CollectedStep, Marked;
    match e
    case Local => LocalMarks(cfg, at, j, before);
    case Swept =>
    case Listed(_) =>
    case Collected(view, outdated, failed, reachable) =>
      CollectedMarks(cfg, view, outdated, failed, reachable, nodes);
    case _ => AnswerMarks(cfg, j.stage.task, j.stage.node, j.stage.todo, e, applied, before, after);
  }

  lemma StepKeeps(cfg: Config, w: World, h: Happening, next: World)
    requires cfg.DistinctAnnotations() && Orderly(cfg, w) && Invariant(cfg, w)
    requires WorldStep(cfg, w, h) == Some(next) && (h.what.ByOthers? ==> Quiet(cfg, h.what.change))
    requires h.what.ByJob? && h.what.event.Collected? ==> Agrees(cfg, h.what.event.view, w.nodes)
    ensures Invariant(cfg, next)
  {
    hide Step, EventEffect, Tidy, Proper, Agrees;
    match h.what
    case ByJob(kind, e, applied) =>
      assert h == Happening(h.at, ByJob(kind, e, applied));
      JobKeeps(cfg, w, kind, e, applied, h.at, next);
    case Died =>
    case ByOthers(change) =>
      OutsideMarks(cfg, w.nodes, change);
      FewerMarks(w.update.stage, Marked(cfg, w.nodes), Marked(cfg, next.nodes));
  }

  // ---- an older list ----

  /** While the update job waits for Azure, marks can only go. */
  lemma WaitingMarks(cfg: Config, w: World, h: Happening, next: World)
    requires cfg.DistinctAnnotations() && Orderly(cfg, w) && WorldStep(cfg, w, h) == Some(next)
    requires w.update.stage == Rest(Cleaned) && (h.what.ByOthers? ==> Quiet(cfg, h.what.change))
    ensures Marked(cfg, next.nodes) <= Marked(cfg, w.nodes)
  {
    hide Step, EventEffect, OutsideEffect, Tidy, Keyed;
    match h.what
    case ByJob(kind, e, applied) =>
      EventMarks(cfg, kind, h.at, w.JobOf(kind), e, applied, w.nodes, next.nodes);
    case Died =>
    case ByOthers(change) => OutsideMarks(cfg, w.nodes, change);
  }

  lemma {:induction false} MarksOnlyGo(cfg: Config, ws: seq<World>, hs: seq<Happening>, m: nat, k: nat)
    requires cfg.DistinctAnnotations() && Behaviour(cfg, ws, hs) && m <= k < |hs| && CleanedSince(ws, m, k)
    requires forall i :: 0 <= i < k ==> Assumed(cfg, ws, hs, i)
    ensures Marked(cfg, ws[k].nodes) <= Marked(cfg, ws[m].nodes)
  {
    hide WorldStep, Orderly, Marked, Starts;
    if m < k {
      MarksOnlyGo(cfg, ws, hs, m, k - 1);
      AlwaysOrderly(cfg, ws, hs, k - 1);
      assert HappensAt(cfg, ws, hs, k - 1) && Assumed(cfg, ws, hs, k - 1);
      WaitingMarks(cfg, ws[k - 1], hs[k - 1], ws[k]);
    }
  }

  lemma CurrentMarks(cfg: Config, view: seq<NodeObject>, nodes: Cluster)
    requires Current(view, nodes) && Keyed(nodes)
    ensures ViewMarked(cfg, view) == Marked(cfg, nodes)
  {
    forall name | name in Marked(cfg, nodes) ensures name in ViewMarked(cfg, view) {
      assert nodes[name] in view && nodes[name].name == name;
    }
  }

  lemma SeenAgrees(cfg: Config, ws: seq<World>, hs: seq<Happening>, m: nat, k: nat, view: seq<NodeObject>)
    requires cfg.DistinctAnnotations() && Behaviour(cfg, ws, hs) && m <= k < |hs| && CleanedSince(ws, m, k)
    requires forall i :: 0 <= i < k ==> Assumed(cfg, ws, hs, i)
    requires Current(view, ws[m].nodes) && Invariant(cfg, ws[m])
    ensures Agrees(cfg, view, ws[k].nodes)
  {
    hide WorldStep, Marked, ViewMarked, Starts;
    MarksOnlyGo(cfg, ws, hs, m, k);
    AlwaysOrderly(cfg, ws, hs, m);
    CurrentMarks(cfg, view, ws[m].nodes);
  }

  // ---- all behaviours ----

  lemma {:induction false} Always(cfg: Config, ws: seq<World>, hs: seq<Happening>, i: nat)
    requires cfg.DistinctAnnotations() && Behaviour(cfg, ws, hs) && i <= |hs|
    requires AtMostOne(Marked(cfg, ws[0].nodes))
    requires forall k :: 0 <= k < |hs| ==> Assumed(cfg, ws, hs, k)
    ensures Invariant(cfg, ws[i])
  {
    hide WorldStep, Orderly, Invariant, Agrees, Starts;
    if i > 0 {
      var k, h := i - 1, hs[i - 1];
      Always(cfg, ws, hs, k);
      AlwaysOrderly(cfg, ws, hs, k);
      assert HappensAt(cfg, ws, hs, k) && Assumed(cfg, ws, hs, k);
      if h.what.ByJob? && h.what.event.Collected? {
        var view := h.what.event.view;
        var m: nat :| m <= k && Current(view, ws[m].nodes) && CleanedSince(ws, m, k);
        Always(cfg, ws, hs, m);
        SeenAgrees(cfg, ws, hs, m, k, view);
      }
      StepKeeps(cfg, ws[k], h, ws[i]);
    } else {
      FreshInvariant(cfg, ws[0]);
    }
  }

  lemma FreshInvariant(cfg: Config, w: World)
    requires Starts(w) && AtMostOne(Marked(cfg, w.nodes))
    ensures Invariant(cfg, w)
  {
  }

  /** Starting with at most one, there is at most one ongoing node that is not excluded at every moment. */
  lemma OneOngoingUpdate(cfg: Config, ws: seq<World>, hs: seq<Happening>, i: nat)
    requires cfg.DistinctAnnotations() && Behaviour(cfg, ws, hs) && i <= |hs|
    requires AtMostOne(Marked(cfg, ws[0].nodes))
    requires forall k :: 0 <= k < |hs| ==> Assumed(cfg, ws, hs, k)
    ensures AtMostOne(Marked(cfg, ws[i].nodes))
  {
    Always(cfg, ws, hs, i);
  }

  /** While one node is ongoing, a run that starts now works on that node only. */
  lemma OngoingIsResumedAlone(cfg: Config, view: seq<NodeObject>, outdated: set<string>, nodes: Cluster, name: string)
    requires Current(view, nodes) && Keyed(nodes) && AtMostOne(Marked(cfg, nodes)) && name in Marked(cfg, nodes)
    ensures Candidates(cfg, view, outdated) == [nodes[name]]
  {
    FirstOngoingIsFirst(cfg, view);
    assert nodes[name] in view;
    assert FirstOngoing(cfg, view).value.name in Marked(cfg, nodes);
  }
}

/**
 The recovery log: whatever fails, a node that the update job has drained carries the ongoing annotation until it is
 schedulable again, through failures, deaths of the process and restarts. So the next run can find it, and works on it alone.
 */
module Recovery {
  import opened Options
  import opened JsonPatch
  import opened Nodes
  import opened Settings
  import opened Provisioning
  import opened Jobs
  import opened World
  import opened UpdateProtocol
  import opened UpdateUnderMark
  import opened DrainGuard
  import OneOngoing

  /** Nobody else takes the ongoing annotation of the node away. */
  predicate LeavesMark(cfg: Config, h: Happening, name: string) {
    match h.what
    case ByOthers(Annotated(n, key, value)) => n != name || key != cfg.ongoingAnnotation || value.Some?
    case _ => true
  }

  predicate Marked(cfg: Config, nodes: Cluster, name: string) {
    name in nodes ==> Ongoing(cfg, nodes[name])
  }

  /** The update job is about to take the annotation off. */
  predicate Unmarks(stage: Stage, name: string) {
    stage.Busy? && stage.task.Unmarking? && stage.node.name == name
  }

  lemma OutsideKeepsMark(cfg: Config, nodes: Cluster, h: Happening, name: string)
    requires h.what.ByOthers? && Marked(cfg, nodes, name) && LeavesMark(cfg, h, name) && !Reopens(h, name)
    ensures Marked(cfg, OutsideEffect(nodes, h.what.change), name)
  {
  }

  lemma EventKeepsMark(cfg: Config, kind: Kind, now: int, j: Job, e: Event, applied: bool, nodes: Cluster, name: string)
    requires cfg.DistinctAnnotations() && Proper(cfg, kind, j.stage) && Step(cfg, kind, now, j, e).Some?
    requires EventEffect(cfg, nodes, e, applied).Some? && Marked(cfg, nodes, name) && !Unmarks(j.stage, name)
    ensures Marked(cfg, EventEffect(cfg, nodes, e, applied).value, name)
  {
    hide Step, Effect, Proper;
    if e.Patch? && applied && e.name == name {
      PatchTouches(cfg, kind, now, j, e.name, e.change, e.ok);
      EventLeaves(cfg, kind, now, j, e, applied, nodes, name);
    }
  }

  /** Only a successful uncordon leads to the removal of the annotation. */
  lemma UnmarksAfterUncordon(cfg: Config, now: int, j: Job, e: Event, next: Job, name: string)
    requires Step(cfg, Update, now, j, e) == Some(next) && !Unmarks(j.stage, name) && Unmarks(next.stage, name)
    ensures e.Uncordon? && e.ok && e.name == name
  {
    hide Parsed, Check, HealthOf, Overdue, RepairCall, MarkValues, Accepts, BanIsOver, LockValuesAt;
  }

  lemma StepKeepsMarked(cfg: Config, w: World, h: Happening, next: World, name: string)
    requires cfg.DistinctAnnotations() && !cfg.drain.dryRun && Orderly(cfg, w) && WorldStep(cfg, w, h) == Some(next)
    requires Marked(cfg, w.nodes, name) && !Unmarks(w.update.stage, name)
    requires LeavesMark(cfg, h, name) && !Reopens(h, name)
    ensures Marked(cfg, next.nodes, name) && !Unmarks(next.update.stage, name)
  {
    hide Step, EventEffect, OutsideEffect, Marked, Tidy, Proper, Keyed, LeavesMark;
    match h.what
    case ByJob(kind, e, applied) =>
      RepairUnmarksNothing(cfg, w.repair.stage, name);
      EventKeepsMark(cfg, kind, h.at, w.JobOf(kind), e, applied, w.nodes, name);
      if kind.Update? && Unmarks(next.update.stage, name) {
        UnmarksAfterUncordon(cfg, h.at, w.update, e, next.update, name);
        UncordonApplies(cfg, w.nodes, e, applied);
      }
    case Died =>
    case ByOthers(_) => OutsideKeepsMark(cfg, w.nodes, h, name);
  }

  lemma RepairUnmarksNothing(cfg: Config, stage: Stage, name: string)
    requires Proper(cfg, Repair, stage)
    ensures !Unmarks(stage, name)
  {
  }

  lemma UncordonApplies(cfg: Config, nodes: Cluster, e: Event, applied: bool)
    requires !cfg.drain.dryRun && e.Uncordon? && e.ok && EventEffect(cfg, nodes, e, applied).Some?
    ensures applied
  {
  }

  lemma {:induction false} StaysMarked(cfg: Config, ws: seq<World>, hs: seq<Happening>, i: nat, j: nat, name: string)
    requires cfg.DistinctAnnotations() && !cfg.drain.dryRun && Behaviour(cfg, ws, hs) && i <= j <= |hs|
    requires Marked(cfg, ws[i].nodes, name) && !Unmarks(ws[i].update.stage, name)
    requires forall k :: i <= k < j ==> LeavesMark(cfg, hs[k], name) && !Reopens(hs[k], name)
    ensures Marked(cfg, ws[j].nodes, name) && !Unmarks(ws[j].update.stage, name)
  {
    hide WorldStep, Orderly, Marked, Unmarks, LeavesMark, Reopens;
    if i < j {
      StaysMarked(cfg, ws, hs, i, j - 1, name);
      AlwaysOrderly(cfg, ws, hs, j - 1);
      assert HappensAt(cfg, ws, hs, j - 1);
      StepKeepsMarked(cfg, ws[j - 1], hs[j - 1], ws[j], name);
    }
  }

  /** A drain comes after the mark. */
  lemma DrainedUnderMark(cfg: Config, w: World, h: Happening, next: World, name: string)
    requires UnderMark(cfg, w) && WorldStep(cfg, w, h) == Some(next) && Drains(cfg, h, name)
    ensures Marked(cfg, next.nodes, name) && !Unmarks(next.update.stage, name) && !cfg.drain.dryRun
  {
    hide LocalStep;
  }

  /** Happening i drains the node, and up to j nobody makes it schedulable again, replaces it or takes the annotation away:
      it is cordoned and carries the ongoing annotation. */
  lemma DrainedStaysMarked(cfg: Config, ws: seq<World>, hs: seq<Happening>, i: nat, j: nat, name: string)
    requires cfg.DistinctAnnotations() && Behaviour(cfg, ws, hs) && i < j <= |hs| && Drains(cfg, hs[i], name)
    requires forall k :: 0 <= k < i ==> Leaves(cfg, ws[k], hs[k])
    requires forall k :: i < k < j ==> LeavesMark(cfg, hs[k], name) && !Reopens(hs[k], name)
    ensures name in ws[j].nodes ==> Ongoing(cfg, ws[j].nodes[name]) && ws[j].nodes[name].unschedulable
  {
    hide WorldStep, Drains, UnderMark, Leaves, LeavesMark, Reopens, Starts, Unmarks;
    AlwaysUnderMark(cfg, ws, hs, i);
    assert HappensAt(cfg, ws, hs, i);
    DrainedUnderMark(cfg, ws[i], hs[i], ws[i + 1], name);
    DrainCloses(cfg, ws[i], hs[i], ws[i + 1], name);
    StaysMarked(cfg, ws, hs, i + 1, j, name);
    StaysClosed(cfg, ws, hs, i + 1, j, name);
  }

  /** If there is at most one ongoing node, as OneOngoing has it, the next run takes up the drained node, and it alone,
      unless the node is gone or excluded. */
  lemma DrainedIsResumed(cfg: Config, ws: seq<World>, hs: seq<Happening>, i: nat, j: nat, name: string,
                         view: seq<NodeObject>, outdated: set<string>)
    requires cfg.DistinctAnnotations() && Behaviour(cfg, ws, hs) && i < j <= |hs| && Drains(cfg, hs[i], name)
    requires forall k :: 0 <= k < i ==> Leaves(cfg, ws[k], hs[k])
    requires forall k :: i < k < j ==> LeavesMark(cfg, hs[k], name) && !Reopens(hs[k], name)
    requires OneOngoing.AtMostOne(OneOngoing.Marked(cfg, ws[0].nodes))
    requires forall k :: 0 <= k < |hs| ==> OneOngoing.Assumed(cfg, ws, hs, k)
    requires Current(view, ws[j].nodes) && name in ws[j].nodes && !Excluded(cfg, ws[j].nodes[name])
    ensures Candidates(cfg, view, outdated) == [ws[j].nodes[name]]
  {
    hide HappensAt, Drains, Leaves, LeavesMark, Reopens, OneOngoing.Assumed, Current, Starts, Candidates, Tidy, Proper, Keyed;
    DrainedStaysMarked(cfg, ws, hs, i, j, name);
    OneOngoing.OneOngoingUpdate(cfg, ws, hs, j);
    AlwaysOrderly(cfg, ws, hs, j);
    OneOngoing.OngoingIsResumedAlone(cfg, view, outdated, ws[j].nodes, name);
  }
}

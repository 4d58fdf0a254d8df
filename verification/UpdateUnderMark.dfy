/** Azure updates and redeploys happen while the node carries the ongoing annotation in the cluster. */
module UpdateUnderMark {
  import opened Options
  import opened JsonPatch
  import opened Nodes
  import opened Settings
  import opened Jobs
  import opened World
  import opened UpdateProtocol

  /** From the mark to its removal the node at hand carries the ongoing annotation, as long as it exists. */
  predicate UnderMark(cfg: Config, w: World) {
    var stage := w.update.stage;
    AtUpdate(stage) && !stage.task.Marking? && stage.node.name in w.nodes ==> Ongoing(cfg, w.nodes[stage.node.name])
  }

  /** Nobody else takes the ongoing annotation away, or replaces the node at hand by one without it. */
  predicate Leaves(cfg: Config, w: World, h: Happening) {
    h.what.ByOthers? ==>
      match h.what.change
      case Annotated(_, key, value) => key != cfg.ongoingAnnotation || value.Some?
      case Joined(node) => !w.update.stage.Busy? || node.name != w.update.stage.node.name || Ongoing(cfg, node)
      case _ => true
  }

  lemma OutsideLeaves(cfg: Config, w: World, h: Happening, name: string)
    requires h.what.ByOthers? && Leaves(cfg, w, h) && w.update.stage.Busy? && w.update.stage.node.name == name
    requires name in w.nodes ==> Ongoing(cfg, w.nodes[name])
    ensures var nodes := OutsideEffect(w.nodes, h.what.change); name in nodes ==> Ongoing(cfg, nodes[name])
  {
  }

  /** A job takes the annotation away by the patch of Unmarking only. */
  lemma EventLeaves(cfg: Config, kind: Kind, now: int, j: Job, e: Event, applied: bool, nodes: Cluster, name: string)
    requires cfg.DistinctAnnotations() && Proper(cfg, kind, j.stage) && Step(cfg, kind, now, j, e).Some?
    requires EventEffect(cfg, nodes, e, applied).Some?
    requires name in nodes ==> Ongoing(cfg, nodes[name])
    requires !(j.stage.Busy? && j.stage.task.Unmarking? && e.Patch?)
    ensures var next := EventEffect(cfg, nodes, e, applied).value; name in next ==> Ongoing(cfg, next[name])
  {
    hide Step, Effect, Proper;
    if e.Patch? && applied && e.name == name {
      cfg.OwnNames();
      PatchTouches(cfg, kind, now, j, e.name, e.change, e.ok);
      if j.stage.task.Marking? {
        MarkSets(cfg, nodes[name].annotations);
      } else {
        EffectElsewhere(nodes[name].annotations, e.change, cfg.ongoingAnnotation);
      }
    }
  }

  lemma MarkSets(cfg: Config, doc: Annotations)
    ensures Effect(doc, Set(MarkValues(cfg))).Applied?
    ensures cfg.ongoingAnnotation in Effect(doc, Set(MarkValues(cfg))).result
  {
  }

  /** How updateNode goes on behind the mark. */
  lemma BehindTheMark(cfg: Config, now: int, j: Job, e: Event, next: Job)
    requires Step(cfg, Update, now, j, e) == Some(next)
    requires AtUpdate(next.stage) && !next.stage.task.Marking?
    ensures AtUpdate(j.stage) && next.stage.node == j.stage.node
    ensures j.stage.task.Marking? ==>
              e.Patch? && e.ok && e.change == Set(MarkValues(cfg)) && e.name == j.stage.node.name
    ensures j.stage.task.Unmarking? ==> !e.Patch?
  {
    hide Parsed, Check, HealthOf, Overdue, RepairCall, MarkValues;
  }

  lemma UpdateKeepsMark(cfg: Config, w: World, h: Happening, next: World)
    requires cfg.DistinctAnnotations() && Orderly(cfg, w) && UnderMark(cfg, w)
    requires WorldStep(cfg, w, h) == Some(next) && h.what.ByJob? && h.what.kind.Update?
    ensures UnderMark(cfg, next)
  {
    hide Step, EventEffect, Effect, Tidy, Proper, Keyed, MarkValues;
    var j, e, stage := w.update, h.what.event, next.update.stage;
    if AtUpdate(stage) && !stage.task.Marking? {
      BehindTheMark(cfg, h.at, j, e, next.update);
      if j.stage.task.Marking? {
        PatchMarks(cfg, w.nodes, e, h.what.applied, stage.node.name);
      } else {
        EventLeaves(cfg, Update, h.at, j, e, h.what.applied, w.nodes, stage.node.name);
      }
    }
  }

  lemma PatchMarks(cfg: Config, nodes: Cluster, e: Event, applied: bool, name: string)
    requires EventEffect(cfg, nodes, e, applied).Some?
    requires e.Patch? && e.ok && e.change == Set(MarkValues(cfg)) && e.name == name
    ensures name in EventEffect(cfg, nodes, e, applied).value
    ensures Ongoing(cfg, EventEffect(cfg, nodes, e, applied).value[name])
  {
    hide MarkValues, Effect;
    MarkSets(cfg, nodes[name].annotations);
  }

  lemma StepKeepsMark(cfg: Config, w: World, h: Happening, next: World)
    requires cfg.DistinctAnnotations() && Orderly(cfg, w) && UnderMark(cfg, w) && Leaves(cfg, w, h)
    requires WorldStep(cfg, w, h) == Some(next)
    ensures UnderMark(cfg, next)
  {
    hide Step, EventEffect, OutsideEffect, Tidy, Proper, Keyed;
    var stage := w.update.stage;
    match h.what
    case ByJob(Update, _, _) => UpdateKeepsMark(cfg, w, h, next);
    case ByJob(Repair, e, applied) =>
      if AtUpdate(stage) && !stage.task.Marking? {
        NoUnmarkInRepair(cfg, w.repair.stage);
        EventLeaves(cfg, Repair, h.at, w.repair, e, applied, w.nodes, stage.node.name);
      }
    case Died =>
    case ByOthers(_) =>
      if AtUpdate(stage) && !stage.task.Marking? {
        OutsideLeaves(cfg, w, h, stage.node.name);
      }
  }

  lemma NoUnmarkInRepair(cfg: Config, stage: Stage)
    requires Proper(cfg, Repair, stage)
    ensures !AtUpdate(stage)
  {
  }

  lemma {:induction false} AlwaysUnderMark(cfg: Config, ws: seq<World>, hs: seq<Happening>, j: nat)
    requires cfg.DistinctAnnotations() && Behaviour(cfg, ws, hs) && j <= |hs|
    requires forall k :: 0 <= k < j ==> Leaves(cfg, ws[k], hs[k])
    ensures UnderMark(cfg, ws[j])
  {
    hide WorldStep, Orderly, Leaves;
    if j > 0 {
      AlwaysUnderMark(cfg, ws, hs, j - 1);
      AlwaysOrderly(cfg, ws, hs, j - 1);
      assert HappensAt(cfg, ws, hs, j - 1);
      StepKeepsMark(cfg, ws[j - 1], hs[j - 1], ws[j]);
    }
  }

  /** At an update or redeploy call the node carries the ongoing annotation, whatever the repair job, the clock and
      everybody else did since it was marked. */
  lemma AzureUpdatesUnderMark(cfg: Config, ws: seq<World>, hs: seq<Happening>, j: nat)
    requires cfg.DistinctAnnotations() && Behaviour(cfg, ws, hs) && j < |hs|
    requires forall k :: 0 <= k < j ==> Leaves(cfg, ws[k], hs[k])
    requires hs[j].what.ByJob? && hs[j].what.kind.Update? && hs[j].what.event.AzureAct?
    ensures var name := hs[j].what.event.name;
            name in ws[j].nodes ==> Ongoing(cfg, ws[j].nodes[name])
  {
    hide WorldStep, Leaves, Orderly, UnderMark, Starts;
    AlwaysUnderMark(cfg, ws, hs, j);
    AlwaysOrderly(cfg, ws, hs, j);
    assert HappensAt(cfg, ws, hs, j);
    AzureCallAfterMark(cfg, ws[j], hs[j], ws[j + 1]);
  }

  lemma AzureCallAfterMark(cfg: Config, w: World, h: Happening, next: World)
    requires Orderly(cfg, w) && WorldStep(cfg, w, h) == Some(next) && UnderMark(cfg, w)
    requires h.what.ByJob? && h.what.kind.Update? && h.what.event.AzureAct?
    ensures var name := h.what.event.name; name in w.nodes ==> Ongoing(cfg, w.nodes[name])
  {
    hide LocalStep, Tidy, Keyed, RepairCall, IsLockChange;
  }
}

/**
 The order of the calls of updateNode, given as a language of call sequences, and what a nil result means.
 Runs of the update job alone: the janitor and the steps inside the process are left out of the calls.
 */
module UpdateProtocol {
  import opened Options
  import opened JsonPatch
  import opened Nodes
  import opened Settings
  import opened Jobs
  import opened Provisioning
  import opened World

  // ---- the calls of one updateNode ----

  /** The ongoing annotation and the scale-down ban, set with one patch. */
  function Marked(cfg: Config, name: string): Event {
    Patch(name, Set(map[cfg.ongoingAnnotation := Text("true"), SCALE_DOWN_DISABLED := Text("true")]), true)
  }

  /** The node was marked, and found in an accepted provisioning state. */
  predicate Inspected(cfg: Config, name: string, calls: seq<Event>) {
    && |calls| == 2
    && calls[0] == Marked(cfg, name)
    && calls[1].AzureGet? && calls[1].name == name && calls[1].ok && Accepts(cfg, calls[1].state)
  }

  /** The drain attempts that k8sDrainNode accepts. */
  predicate AcceptedDrains(cfg: Config, name: string, drains: seq<Event>) {
    if !cfg.drain.enable then drains == []
    else
      || drains == [FirstDrain(cfg, name, true)]
      || (cfg.drain.retryWithoutEviction && drains == [FirstDrain(cfg, name, false), Drain(name, true, true)])
      || (cfg.drain.ignoreFailure
          && drains == [FirstDrain(cfg, name, false)]
                       + if cfg.drain.retryWithoutEviction then [Drain(name, true, false)] else [])
  }

  function FirstDrain(cfg: Config, name: string, ok: bool): Event {
    Drain(name, cfg.drain.disableEviction, ok)
  }

  /** Ready for the Azure update. */
  predicate Drained(cfg: Config, name: string, calls: seq<Event>) {
    |calls| >= 2 && Inspected(cfg, name, calls[..2]) && AcceptedDrains(cfg, name, calls[2..])
  }

  predicate Updated(cfg: Config, name: string, calls: seq<Event>) {
    calls != [] && Drained(cfg, name, Most(calls)) && Last(calls) == AzureAct(name, UpdateInstances, true)
  }

  /** All Azure calls are done. */
  predicate AzureDone(cfg: Config, name: string, calls: seq<Event>) {
    if cfg.updateAction == "update+reimage"
    then calls != [] && Updated(cfg, name, Most(calls)) && Last(calls) == AzureAct(name, Redeploy, true)
    else Updated(cfg, name, calls)
  }

  predicate Uncordoned(cfg: Config, name: string, calls: seq<Event>) {
    calls != [] && AzureDone(cfg, name, Most(calls)) && Last(calls) == Uncordon(name, true)
  }

  /** Everything went well. */
  predicate Complete(cfg: Config, name: string, calls: seq<Event>) {
    calls != [] && Uncordoned(cfg, name, Most(calls)) && Last(calls) == Patch(name, Drop({cfg.ongoingAnnotation}), true)
  }

  function Last(calls: seq<Event>): Event
    requires calls != []
  {
    calls[|calls| - 1]
  }

  function Most(calls: seq<Event>): seq<Event>
    requires calls != []
  {
    calls[..|calls| - 1]
  }

  /** The calls made when updateNode has got to `task`. */
  predicate SoFar(cfg: Config, name: string, task: Task, calls: seq<Event>) {
    match task
    case Marking => calls == []
    case Inspecting => calls == [Marked(cfg, name)]
    case Draining(again) =>
      && cfg.drain.enable
      && (if again
          then calls != [] && Inspected(cfg, name, Most(calls)) && cfg.drain.retryWithoutEviction
               && Last(calls) == FirstDrain(cfg, name, false)
          else Inspected(cfg, name, calls))
    case Updating => Drained(cfg, name, calls)
    case Redeploying => cfg.updateAction == "update+reimage" && Updated(cfg, name, calls)
    case Uncordoning => AzureDone(cfg, name, calls)
    case Unmarking => Uncordoned(cfg, name, calls)
    case _ => false
  }


  // ---- words of the protocol, one call after the other ----

  lemma LastMost(calls: seq<Event>, e: Event)
    ensures Last(calls + [e]) == e && Most(calls + [e]) == calls
  {
  }

  lemma NoDrains(cfg: Config, name: string)
    requires !cfg.drain.enable
    ensures AcceptedDrains(cfg, name, [])
  {
  }

  lemma DrainsAccepted(cfg: Config, name: string, first: bool, last: bool, drains: seq<Event>)
    requires cfg.drain.enable && (first || !cfg.drain.retryWithoutEviction ==> last == first)
    requires drains == [FirstDrain(cfg, name, first)]
                       + if !first && cfg.drain.retryWithoutEviction then [Drain(name, true, last)] else []
    ensures AcceptedDrains(cfg, name, drains) <==> last || cfg.drain.ignoreFailure
  {
    assert drains[0] == FirstDrain(cfg, name, first);
    if |drains| == 2 {
      assert drains[1] == Drain(name, true, last);
    }
  }

  lemma NotDone(cfg: Config, name: string, calls: seq<Event>)
    requires calls != [] && !Last(calls).AzureAct?
    ensures !AzureDone(cfg, name, [Marked(cfg, name)] + calls)
  {
    hide Marked;
    var all := [Marked(cfg, name)] + calls;
    assert Last(all) == Last(calls);
  }

  lemma NotComplete(cfg: Config, name: string, calls: seq<Event>)
    requires calls != [] && (Last(calls).Patch? ==> !Last(calls).ok)
    ensures !Complete(cfg, name, calls)
  {
  }

  lemma UpdateDone(cfg: Config, name: string, get: Event, drains: seq<Event>, ok: bool)
    requires get.AzureGet? && get.name == name && get.ok && Accepts(cfg, get.state)
    requires AcceptedDrains(cfg, name, drains)
    ensures var all := [Marked(cfg, name)] + ([get] + drains + [AzureAct(name, UpdateInstances, ok)]);
            && (Updated(cfg, name, all) <==> ok)
            && (AzureDone(cfg, name, all) <==> ok && cfg.updateAction != "update+reimage")
  {
    hide Marked, Accepts, AcceptedDrains;
    var act := AzureAct(name, UpdateInstances, ok);
    var most := [Marked(cfg, name)] + ([get] + drains);
    assert [Marked(cfg, name)] + ([get] + drains + [act]) == most + [act];
    LastMost(most, act);
    assert most[..2] == [Marked(cfg, name), get] && most[2..] == drains;
  }

  lemma RedeployDone(cfg: Config, name: string, get: Event, drains: seq<Event>, ok: bool)
    requires get.AzureGet? && get.name == name && get.ok && Accepts(cfg, get.state) && cfg.updateAction == "update+reimage"
    requires AcceptedDrains(cfg, name, drains)
    ensures var calls := [get] + drains + [AzureAct(name, UpdateInstances, true)] + [AzureAct(name, Redeploy, ok)];
            AzureDone(cfg, name, [Marked(cfg, name)] + calls) <==> ok
  {
    hide Marked, Accepts, AcceptedDrains, Updated;
    var act := AzureAct(name, Redeploy, ok);
    var most := [Marked(cfg, name)] + ([get] + drains + [AzureAct(name, UpdateInstances, true)]);
    assert [Marked(cfg, name)] + ([get] + drains + [AzureAct(name, UpdateInstances, true)] + [act]) == most + [act];
    LastMost(most, act);
    UpdateDone(cfg, name, get, drains, true);
  }

  /** The update, and the redeploy if configured and the update succeeded. */
  predicate IsActs(cfg: Config, name: string, acts: seq<Event>, ok: bool) {
    if cfg.updateAction == "update+reimage" && ok then acts == [AzureAct(name, UpdateInstances, true), AzureAct(name, Redeploy, true)]
    else
      || acts == [AzureAct(name, UpdateInstances, ok)]
      || (cfg.updateAction == "update+reimage" && acts == [AzureAct(name, UpdateInstances, true), AzureAct(name, Redeploy, false)])
  }

  lemma ActsDone(cfg: Config, name: string, get: Event, drains: seq<Event>, acts: seq<Event>, ok: bool)
    requires get.AzureGet? && get.name == name && get.ok && Accepts(cfg, get.state)
    requires AcceptedDrains(cfg, name, drains) && IsActs(cfg, name, acts, ok)
    ensures AzureDone(cfg, name, [Marked(cfg, name)] + ([get] + drains + acts)) <==> ok
    ensures Last([get] + drains + acts) == Last(acts) && !Last(acts).Patch?
  {
    hide Marked, Accepts, AcceptedDrains, AzureDone;
    if |acts| == 1 {
      UpdateDone(cfg, name, get, drains, acts[0].ok);
    } else {
      RedeployDone(cfg, name, get, drains, acts[1].ok);
      assert [get] + drains + acts == [get] + drains + [acts[0]] + [acts[1]];
    }
  }

  /** The uncordon, and the removal of the ongoing annotation if it succeeded. */
  predicate IsEnds(cfg: Config, name: string, ends: seq<Event>, ok: bool) {
    if ok then ends == [Uncordon(name, true), Patch(name, Drop({cfg.ongoingAnnotation}), true)]
    else
      || ends == [Uncordon(name, false)]
      || ends == [Uncordon(name, true), Patch(name, Drop({cfg.ongoingAnnotation}), false)]
  }

  lemma EndsComplete(cfg: Config, name: string, calls: seq<Event>, ends: seq<Event>, ok: bool)
    requires AzureDone(cfg, name, calls) && IsEnds(cfg, name, ends, ok)
    ensures Complete(cfg, name, calls + ends) <==> ok
  {
    hide AzureDone;
    LastMost(calls, ends[0]);
    if |ends| == 2 {
      LastMost(calls + [ends[0]], ends[1]);
      assert calls + ends == calls + [ends[0]] + [ends[1]];
    } else {
      assert calls + ends == calls + [ends[0]];
    }
  }

  // ---- one step ----

  predicate AtUpdate(stage: Stage) {
    stage.Busy? && UpdateTask(stage.task)
  }

  /** How updateNode ends: with the lock for a success exactly when everything went well. */
  predicate Outcome(cfg: Config, node: NodeObject, todo: seq<NodeObject>, calls: seq<Event>, t: Stage) {
    if Complete(cfg, node.name, calls) then t == Busy(Locking(cfg.update.lockDuration, true), node, todo)
    else t == Busy(Locking(cfg.update.lockDurationError, true), node, [])
  }

  /** updateNode is one step further, or over. */
  predicate GoesOnOrEnds(cfg: Config, node: NodeObject, todo: seq<NodeObject>, calls: seq<Event>, t: Stage) {
    if AtUpdate(t) then t.node == node && t.todo == todo && SoFar(cfg, node.name, t.task, calls)
    else Outcome(cfg, node, todo, calls, t)
  }

  lemma DrainedNext(cfg: Config, node: NodeObject, again: bool, todo: seq<NodeObject>, e: Event, calls: seq<Event>)
    requires e.Drain? && e.name == node.name && e.disableEviction == (again || cfg.drain.disableEviction)
    requires SoFar(cfg, node.name, Draining(again), calls)
    ensures GoesOnOrEnds(cfg, node, todo, calls + [e], DrainStep(cfg, again, node, todo, e.ok))
  {
    hide Accepts, Marked;
    LastMost(calls, e);
    var all := calls + [e];
    if again {
      assert calls == Most(calls) + [Last(calls)];
      assert all[..2] == Most(calls) && all[2..] == [FirstDrain(cfg, node.name, false), e];
    } else {
      assert all[..2] == calls && all[2..] == [e];
    }
  }

  lemma InspectedNext(cfg: Config, node: NodeObject, todo: seq<NodeObject>, e: Event, calls: seq<Event>)
    requires e.AzureGet? && e.name == node.name && SoFar(cfg, node.name, Inspecting, calls)
    ensures GoesOnOrEnds(cfg, node, todo, calls + [e],
                         AzureGetStep(cfg, Inspecting, node, todo, e.ok && Accepts(cfg, e.state)).value)
  {
    hide Accepts, Marked;
    LastMost(calls, e);
    var all := calls + [e];
    assert all[..2] == all && all[2..] == [];
  }

  lemma MarkedIs(cfg: Config, name: string)
    ensures Marked(cfg, name) == Patch(name, Set(MarkValues(cfg)), true)
  {
    assert map[cfg.ongoingAnnotation := Text("true"), SCALE_DOWN_DISABLED := Text("true")] == MarkValues(cfg);
  }

  lemma AnswerSoFar(cfg: Config, node: NodeObject, task: Task, todo: seq<NodeObject>, e: Event, calls: seq<Event>)
    requires UpdateTask(task) && SoFar(cfg, node.name, task, calls)
    requires !e.Local? && !e.Swept? && !e.Listed? && !e.Collected? && !e.Clock? && e.name == node.name
    requires AnswerStep(cfg, Update, task, node, todo, e).Some?
    ensures GoesOnOrEnds(cfg, node, todo, calls + [e], AnswerStep(cfg, Update, task, node, todo, e).value)
  {
    hide Accepts, MarkValues, Marked, Inspected, AcceptedDrains, Drained, DrainStep, RepairCall;
    LastMost(calls, e);
    MarkedIs(cfg, node.name);
    match task
    case Inspecting => InspectedNext(cfg, node, todo, e, calls);
    case Draining(again) => DrainedNext(cfg, node, again, todo, e, calls);
    case _ =>
  }

  /** updateNode does not look at the clock. */
  lemma NoClock(cfg: Config, stage: Stage, e: Event)
    requires AtUpdate(stage) && e.Clock?
    ensures AnswerStep(cfg, Update, stage.task, stage.node, stage.todo, e).None?
  {
  }

  lemma StepSoFar(cfg: Config, now: int, j: Job, e: Event, next: Job, calls: seq<Event>)
    requires AtUpdate(j.stage) && SoFar(cfg, j.stage.node.name, j.stage.task, calls)
    requires Step(cfg, Update, now, j, e) == Some(next)
    ensures GoesOnOrEnds(cfg, j.stage.node, j.stage.todo, calls + CallOf(e), next.stage)
  {
    hide AnswerStep, SoFar, Outcome;
    match e
    case Local =>
    case Swept => assert calls + [] == calls;
    case Listed(_) =>
    case Collected(_, _, _, _) =>
    case Clock(_, _, _) =>
      NoClock(cfg, j.stage, e);
      assert false;
    case _ => AnswerSoFar(cfg, j.stage.node, j.stage.task, j.stage.todo, e, calls);
  }

  /** updateNode begins with marking the node. */
  lemma BeginsMarking(cfg: Config, now: int, j: Job, e: Event, next: Job)
    requires !AtUpdate(j.stage) && Step(cfg, Update, now, j, e) == Some(next) && AtUpdate(next.stage)
    ensures next.stage.task.Marking?
  {
    hide Parsed, Check, HealthOf, Overdue, RepairCall;
  }

  // ---- runs ----

  /** The job begins at rest. */
  ghost predicate FromRest(cfg: Config, js: seq<Job>, log: seq<Timed>) {
    Trail(cfg, Update, js, log) && js[0].stage == Rest(Idle)
  }

  /** One updateNode from m on, still busy at j. */
  ghost predicate OneAttempt(cfg: Config, js: seq<Job>, log: seq<Timed>, m: nat, j: nat)
    requires m <= j <= |log| < |js|
  {
    && AtUpdate(js[j].stage)
    && (forall i :: m <= i <= j ==> AtUpdate(js[i].stage) && js[i].stage.node == js[j].stage.node)
    && SoFar(cfg, js[j].stage.node.name, js[j].stage.task, Calls(log[m..j]))
  }

  /** Wherever updateNode is, its calls so far are those of the protocol. */
  lemma {:induction false} CallsInOrder(cfg: Config, js: seq<Job>, log: seq<Timed>, j: nat) returns (m: nat)
    requires FromRest(cfg, js, log) && j <= |log| && AtUpdate(js[j].stage)
    ensures m <= j && OneAttempt(cfg, js, log, m, j)
  {
    hide Step, SoFar, Outcome;
    assert StepAt(cfg, Update, js, log, j - 1);
    if AtUpdate(js[j - 1].stage) {
      m := CallsInOrder(cfg, js, log, j - 1);
      StepSoFar(cfg, log[j - 1].at, js[j - 1], log[j - 1].event, js[j], Calls(log[m..j - 1]));
      CallsAdd(log, m, j - 1);
    } else {
      m := j;
      BeginsMarking(cfg, log[j - 1].at, js[j - 1], log[j - 1].event, js[j]);
      assert log[m..j] == [];
      MarkingBegins(cfg, js[j].stage.node.name);
    }
  }

  lemma MarkingBegins(cfg: Config, name: string)
    ensures SoFar(cfg, name, Marking, Calls([]))
  {
  }

  /** Every Azure update or redeploy comes after the node was marked and found in an accepted state, and after an
      accepted drain if draining is enabled; nothing else was called in between, and no uncordon came before. */
  lemma AzureCallsComeLate(cfg: Config, js: seq<Job>, log: seq<Timed>, j: nat) returns (m: nat)
    requires FromRest(cfg, js, log) && j < |log| && log[j].event.AzureAct?
    ensures m <= j && OneAttempt(cfg, js, log, m, j) && log[j].event.name == js[j].stage.node.name
    ensures var e, calls := log[j].event, Calls(log[m..j]);
            || (e.call == UpdateInstances && Drained(cfg, e.name, calls))
            || (e.call == Redeploy && cfg.updateAction == "update+reimage" && Updated(cfg, e.name, calls))
  {
    hide LocalStep, SoFar, Drained, Updated;
    assert StepAt(cfg, Update, js, log, j);
    AlwaysProper(cfg, Update, js, log, j);
    m := CallsInOrder(cfg, js, log, j);
    var e, stage := log[j].event, js[j].stage;
    assert AnswerStep(cfg, Update, stage.task, stage.node, stage.todo, e).Some?;
    LateTask(cfg, stage.node.name, stage.task, Calls(log[m..j]));
  }

  lemma LateTask(cfg: Config, name: string, task: Task, calls: seq<Event>)
    requires SoFar(cfg, name, task, calls)
    ensures task.Updating? ==> Drained(cfg, name, calls)
    ensures task.Redeploying? ==> cfg.updateAction == "update+reimage" && Updated(cfg, name, calls)
    ensures task.Uncordoning? ==> AzureDone(cfg, name, calls)
  {
  }

  /** The uncordon of the protocol comes after all Azure calls, each of which succeeded. */
  lemma UncordonComesLast(cfg: Config, js: seq<Job>, log: seq<Timed>, j: nat) returns (m: nat)
    requires FromRest(cfg, js, log) && j < |log| && log[j].event.Uncordon? && AtUpdate(js[j].stage)
    ensures m <= j && OneAttempt(cfg, js, log, m, j) && AzureDone(cfg, log[j].event.name, Calls(log[m..j]))
  {
    hide LocalStep, SoFar, AzureDone;
    assert StepAt(cfg, Update, js, log, j);
    m := CallsInOrder(cfg, js, log, j);
    LateTask(cfg, js[j].stage.node.name, js[j].stage.task, Calls(log[m..j]));
  }

  /** updateNode returns nil exactly when every step of the protocol succeeded, the uncordon and the removal of the
      ongoing annotation included; otherwise the node is locked for the error duration and the run is over. */
  lemma NilMeansComplete(cfg: Config, js: seq<Job>, log: seq<Timed>, j: nat) returns (m: nat)
    requires FromRest(cfg, js, log) && j < |log| && AtUpdate(js[j].stage) && !AtUpdate(js[j + 1].stage)
    ensures m <= j && OneAttempt(cfg, js, log, m, j)
    ensures Outcome(cfg, js[j].stage.node, js[j].stage.todo, Calls(log[m..j + 1]), js[j + 1].stage)
  {
    hide Step, SoFar, Outcome;
    assert StepAt(cfg, Update, js, log, j);
    m := CallsInOrder(cfg, js, log, j);
    StepSoFar(cfg, log[j].at, js[j], log[j].event, js[j + 1], Calls(log[m..j]));
    CallsAdd(log, m, j);
  }

  // ---- at most one failure a run, and it is the last attempt ----

  /** The run is winding down. */
  predicate Over(stage: Stage) {
    match stage
    case Rest(place) => place.Idle?
    case Head(loop, todo) => loop.UpdateRun? && todo == []
    case Busy(task, _, todo) => (task.Locking? || task.Stamping? || task.Writing?) && todo == []
  }

  lemma OverStays(cfg: Config, now: int, j: Job, e: Event, next: Job)
    requires Over(j.stage) && j.stage != Rest(Idle) && Step(cfg, Update, now, j, e) == Some(next)
    ensures Over(next.stage)
  {
    hide Parsed, Check, HealthOf, Overdue, RepairCall;
  }

  lemma {:induction false} OverUntilIdle(cfg: Config, js: seq<Job>, log: seq<Timed>, a: nat, b: nat)
    requires Trail(cfg, Update, js, log) && a <= b <= |log| && Over(js[a].stage)
    requires forall i :: a <= i < b ==> js[i].stage != Rest(Idle)
    ensures Over(js[b].stage)
  {
    hide Step, Over;
    if a < b {
      OverUntilIdle(cfg, js, log, a, b - 1);
      assert StepAt(cfg, Update, js, log, b - 1);
      OverStays(cfg, log[b - 1].at, js[b - 1], log[b - 1].event, js[b]);
    }
  }

  /** After an updateNode that ended at f without being complete, no node is attempted up to the end of the run. */
  lemma FailureEndsTheRun(cfg: Config, js: seq<Job>, log: seq<Timed>, f: nat, b: nat) returns (m: nat)
    requires FromRest(cfg, js, log) && f < b <= |log| && AtUpdate(js[f].stage) && !AtUpdate(js[f + 1].stage)
    requires forall i :: f < i < b ==> js[i].stage != Rest(Idle)
    ensures m <= f && OneAttempt(cfg, js, log, m, f)
    ensures Complete(cfg, js[f].stage.node.name, Calls(log[m..f + 1])) || !AtUpdate(js[b].stage)
  {
    hide Step, StepAt, SoFar, Complete;
    m := NilMeansComplete(cfg, js, log, f);
    if !Complete(cfg, js[f].stage.node.name, Calls(log[m..f + 1])) {
      OverUntilIdle(cfg, js, log, f + 1, b);
    }
  }
}

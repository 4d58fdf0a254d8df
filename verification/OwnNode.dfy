/** The update job leaves the node alone that the autopilot runs on, and gives up the rest of its run there. */
module OwnNode {
  import opened Options
  import opened Nodes
  import opened Settings
  import opened TimedCaches
  import opened Provisioning
  import opened ProviderId
  import opened Jobs
  import opened UpdateProtocol

  predicate IsOwn(cfg: Config, node: NodeObject) {
    cfg.self == Some(node.name)
  }

  /** An update begins with a look at the name. */
  lemma TakesNoOwn(cfg: Config, now: int, j: Job, e: Event, next: Job)
    requires Step(cfg, Update, now, j, e) == Some(next) && AtUpdate(next.stage)
    ensures !IsOwn(cfg, next.stage.node) || (AtUpdate(j.stage) && j.stage.node == next.stage.node)
  {
    hide Parsed, Check, HealthOf, Overdue, RepairCall, MarkValues, Accepts, DoReimage, LockValuesAt, BanIsOver;
  }

  /** Wherever updateNode is in a run, it is not about the own node. */
  lemma {:induction false} OwnNodeNotUpdated(cfg: Config, js: seq<Job>, log: seq<Timed>, j: nat)
    requires FromRest(cfg, js, log) && j <= |log| && AtUpdate(js[j].stage)
    ensures cfg.self != Some(js[j].stage.node.name)
  {
    hide Step, AtUpdate;
    if j > 0 {
      assert StepAt(cfg, Update, js, log, j - 1);
      TakesNoOwn(cfg, log[j - 1].at, js[j - 1], log[j - 1].event, js[j]);
      if AtUpdate(js[j - 1].stage) {
        OwnNodeNotUpdated(cfg, js, log, j - 1);
      }
    } else {
      AtRest(js[0].stage);
    }
  }

  lemma AtRest(stage: Stage)
    requires stage == Rest(Idle)
    ensures !AtUpdate(stage)
  {
  }

  /** The look at one candidate: the run is over at the limit and at the own node; a node whose ID cannot be parsed is
      passed over; any other is taken up. */
  lemma UpdateLook(cfg: Config, js: seq<Job>, log: seq<Timed>, j: nat)
    requires FromRest(cfg, js, log) && j < |log| && !log[j].event.Swept?
    requires js[j].stage.Head? && js[j].stage.loop.UpdateRun? && js[j].stage.todo != []
    ensures log[j].event.Local? && js[j + 1].locks == js[j].locks
    ensures var node, rest, locks := js[j].stage.todo[0], js[j].stage.todo[1..], js[j].locks;
            js[j + 1].stage ==
            if (cfg.update.limit > 0 && cfg.update.limit <= |locks|) || cfg.self == Some(node.name) then Rest(Idle)
            else if ExtractNodeInfo(node.name, node.providerId).Unrecognised? then Head(UpdateRun, rest)
            else Busy(Marking, node, rest)
  {
    hide ExtractNodeInfo;
    assert StepAt(cfg, Update, js, log, j);
  }

  /** A run that comes to its own node ends there without a call. */
  lemma OwnNodeEndsRun(cfg: Config, js: seq<Job>, log: seq<Timed>, j: nat)
    requires FromRest(cfg, js, log) && j < |log| && !log[j].event.Swept?
    requires js[j].stage.Head? && js[j].stage.loop.UpdateRun? && js[j].stage.todo != []
    requires cfg.self == Some(js[j].stage.todo[0].name)
    ensures js[j + 1].stage == Rest(Idle) && CallOf(log[j].event) == []
  {
    hide ExtractNodeInfo;
    UpdateLook(cfg, js, log, j);
  }

  // ---- what stands behind the own node ----

  /** The run over `todo`, in which the own node is at `own`, has not got past it, or is winding down. */
  predicate Before(todo: seq<NodeObject>, own: nat, stage: Stage, k: nat) {
    || Over(stage)
    || (k <= own < |todo| && stage == Head(UpdateRun, todo[k..]))
    || (k <= own < |todo| && stage.Busy? && InRun(stage.task) && k > 0 && stage.node == todo[k - 1]
        && stage.todo == todo[k..])
  }

  predicate InRun(task: Task) {
    UpdateTask(task) || task.Locking? || task.Stamping? || task.Writing?
  }

  /** An attempt and the lock after it stay with the node, and a failure gives up the rest. */
  lemma InRunNext(cfg: Config, now: int, j: Job, e: Event, next: Job)
    requires j.stage.Busy? && InRun(j.stage.task) && Step(cfg, Update, now, j, e) == Some(next)
    ensures || next.stage == Head(UpdateRun, j.stage.todo)
            || (next.stage.Busy? && InRun(next.stage.task) && next.stage.node == j.stage.node
                && (next.stage.todo == j.stage.todo || (next.stage.todo == [] && next.stage.task.Locking?)))
  {
    hide Parsed, RepairCall, MarkValues, Accepts, DoReimage, LockValuesAt;
  }

  lemma HeadNext(cfg: Config, now: int, j: Job, e: Event, next: Job)
    requires j.stage.Head? && j.stage.loop.UpdateRun? && j.stage.todo != [] && Step(cfg, Update, now, j, e) == Some(next)
    ensures var node, rest := j.stage.todo[0], j.stage.todo[1..];
            || (e.Swept? && next.stage == j.stage)
            || next.stage == Rest(Idle)
            || (!IsOwn(cfg, node) && next.stage in {Head(UpdateRun, rest), Busy(Marking, node, rest)})
  {
    hide Parsed;
  }

  lemma BeforeNext(cfg: Config, todo: seq<NodeObject>, own: nat, now: int, j: Job, e: Event, next: Job, k: nat)
      returns (more: nat)
    requires own < |todo| && cfg.self == Some(todo[own].name)
    requires Before(todo, own, j.stage, k) && j.stage != Rest(Idle) && Step(cfg, Update, now, j, e) == Some(next)
    ensures Before(todo, own, next.stage, more)
  {
    hide Step, Over;
    more := k;
    if Over(j.stage) {
      OverStays(cfg, now, j, e, next);
    } else if j.stage.Head? {
      HeadNext(cfg, now, j, e, next);
      assert todo[k..][0] == todo[k] && todo[k..][1..] == todo[k + 1..];
      RunOver(next.stage);
      more := if next.stage.Rest? || next.stage == j.stage then k else k + 1;
    } else {
      InRunNext(cfg, now, j, e, next);
    }
    IsOver(next.stage);
  }

  lemma RunOver(stage: Stage)
    ensures stage == Rest(Idle) ==> Over(stage)
  {
  }

  lemma IsOver(stage: Stage)
    ensures stage == Head(UpdateRun, []) ==> Over(stage)
    ensures stage.Busy? && stage.task.Locking? && stage.todo == [] ==> Over(stage)
  {
  }

  /** No node that stands behind the own node among the candidates is attempted in the run. */
  lemma {:induction false} OwnNodeCutsOff(cfg: Config, js: seq<Job>, log: seq<Timed>, a: nat, b: nat, own: nat) returns (k: nat)
    requires FromRest(cfg, js, log) && a <= b <= |log| && js[a].stage.Head? && js[a].stage.loop.UpdateRun?
    requires own < |js[a].stage.todo| && cfg.self == Some(js[a].stage.todo[own].name)
    requires forall i :: a <= i < b ==> js[i].stage != Rest(Idle)
    ensures Before(js[a].stage.todo, own, js[b].stage, k)
    ensures AtUpdate(js[b].stage) ==> 0 < k <= own && js[b].stage.node == js[a].stage.todo[k - 1]
  {
    hide Step;
    var todo := js[a].stage.todo;
    if a == b {
      k := 0;
      assert todo[0..] == todo;
    } else {
      k := OwnNodeCutsOff(cfg, js, log, a, b - 1, own);
      assert StepAt(cfg, Update, js, log, b - 1);
      k := BeforeNext(cfg, todo, own, log[b - 1].at, js[b - 1], log[b - 1].event, js[b], k);
    }
  }
}

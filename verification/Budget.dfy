/** How many nodes one run may act on, and how full the lock cache gets while it runs. */
module Budget {
  import opened Options
  import opened Nodes
  import opened Settings
  import opened TimedCaches
  import opened Jobs
  import opened Provisioning
  import opened SetSizes

  /** The names of the nodes a step starts to act on: a repair, a dry-run repair, or an updateNode. */
  function Begins(j: Job, e: Event, next: Job): set<string> {
    if e.Local? && next.stage.Busy?
       && ((j.stage.Busy? && j.stage.task.Unlocked?) || (j.stage.Head? && j.stage.loop.UpdateRun?))
    then {next.stage.node.name} else {}
  }

  /** Nodes acted on by the events from a up to b. */
  function Begun(js: seq<Job>, log: seq<Timed>, a: nat, b: nat): set<string>
    requires a <= b <= |log| < |js|
  {
    if a == b then {} else Begun(js, log, a, b - 1) + Begins(js[b - 1], log[b - 1].event, js[b])
  }

  /** Entries the janitor took away, between a and b, because they had expired. */
  function SweptCount(js: seq<Job>, log: seq<Timed>, a: nat, b: nat): nat
    requires a <= b <= |log| < |js|
  {
    if a == b then 0
    else SweptCount(js, log, a, b - 1) + SweptBy(log[b - 1].at, js[b - 1], log[b - 1].event)
  }

  /** From the guard of the cron body, at a, up to b without having left the run. */
  ghost predicate OneRun(js: seq<Job>, a: nat, b: nat) {
    a <= b < |js| && js[a].stage == Rest(Synced) && forall i :: a <= i < b ==> js[i].stage != Rest(Idle)
  }

  /** Started on, and not in the cache yet. */
  function Open(stage: Stage): set<string> {
    match stage
    case Busy(task, node, _) =>
      if task.Due? || task.Unlocked? || task.Stamping? || task.Writing? || task.CleanDropping? then {} else {node.name}
    case _ => {}
  }

  predicate RunStage(stage: Stage) {
    match stage
    case Rest(place) => place.Entered? || place.Cleaned?
    case Head(loop, _) => !loop.AutoUncordon? && !loop.Sync?
    case Busy(task, _, _) => !task.AutoUncordoning? && !task.Restoring? && !task.Dropping?
  }

  /** Before the loop over nodes nothing was acted on. */
  predicate Opening(stage: Stage) {
    match stage
    case Rest(_) => true
    case Head(loop, _) => loop.Cleanup?
    case Busy(task, _, _) => task.CleanDropping?
  }

  predicate Fresh(stage: Stage, begun: set<string>) {
    && begun !! Names(Todo(stage))
    && (stage.Busy? && (stage.task.Due? || stage.task.Unlocked?) ==> stage.node.name !in begun)
  }

  predicate WithinLimit(cfg: Config, kind: Kind, j: Job) {
    cfg.Job(kind).limit > 0 ==> |j.locks| + |Open(j.stage)| <= cfg.Job(kind).limit
  }

  predicate Accounted(j: Job, begun: set<string>, swept: nat) {
    |begun - j.locks.Keys - Open(j.stage)| <= swept
  }

  predicate InRun(cfg: Config, kind: Kind, j: Job, begun: set<string>, swept: nat) {
    && RunStage(j.stage)
    && (Opening(j.stage) ==> begun == {})
    && Fresh(j.stage, begun)
    && WithinLimit(cfg, kind, j)
    && Accounted(j, begun, swept)
  }

  predicate Invariant(cfg: Config, kind: Kind, j: Job, begun: set<string>, swept: nat) {
    && Tidy(j.stage)
    && (match j.stage
        case Rest(Synced) => begun == {}
        case Rest(Idle) => Accounted(j, begun, swept) && (begun == {} || WithinLimit(cfg, kind, j))
        case _ => InRun(cfg, kind, j, begun, swept))
  }

  lemma SweepKeeps(cfg: Config, kind: Kind, now: int, j: Job, begun: set<string>, swept: nat)
    requires Invariant(cfg, kind, j, begun, swept)
    ensures Invariant(cfg, kind, j.(locks := Sweep(j.locks, now)), begun, swept + |ExpiredNames(j.locks, now)|)
  {
    var gone := ExpiredNames(j.locks, now);
    var left := Sweep(j.locks, now);
    SubsetSize(left.Keys, j.locks.Keys);
    SubsetSizes(begun - left.Keys - Open(j.stage), begun - j.locks.Keys - Open(j.stage), gone);
  }

  // ---- what a step does to the cache and to the node at hand ----

  /** Skipping nodes: only names still ahead can lose their entry. */
  predicate Skips(j: Job, next: Job, begins: set<string>) {
    && begins == {} && Open(j.stage) == {} && Open(next.stage) == {}
    && j.locks.Keys - Names(Todo(j.stage)) <= next.locks.Keys <= j.locks.Keys
  }

  predicate TakesUp(cfg: Config, kind: Kind, j: Job, next: Job, begins: set<string>) {
    && begins == Open(next.stage) && Open(j.stage) == {} && next.locks == j.locks
    && !cfg.LimitReached(kind, |j.locks|)
  }

  /** The node at hand gets its entry, or has a live one already. */
  predicate Locks(j: Job, next: Job, begins: set<string>) {
    begins == {} && Open(next.stage) == {} && next.locks.Keys == j.locks.Keys + Open(j.stage)
  }

  predicate GoesOn(j: Job, next: Job, begins: set<string>) {
    begins == {} && Open(next.stage) == Open(j.stage) && next.locks == j.locks
  }

  predicate Shape(cfg: Config, kind: Kind, j: Job, next: Job, begins: set<string>) {
    Skips(j, next, begins) || TakesUp(cfg, kind, j, next, begins) || Locks(j, next, begins) || GoesOn(j, next, begins)
  }

  lemma LoopShape(cfg: Config, kind: Kind, now: int, j: Job)
    requires RunStage(j.stage) && j.stage.Head? && j.stage.todo != []
    ensures var next := LoopStep(cfg, kind, now, j.locks, j.stage.loop, j.stage.todo[0], j.stage.todo[1..]);
            Shape(cfg, kind, j, next, Begins(j, Local, next))
  {
    hide Parsed, Check, HealthOf, Overdue;
    assert j.stage.todo[0].name in Names(j.stage.todo);
  }

  lemma TaskShape(cfg: Config, kind: Kind, now: int, j: Job)
    requires RunStage(j.stage) && j.stage.Busy?
    requires TaskStep(cfg, kind, now, j.locks, j.stage.task, j.stage.node, j.stage.todo).Some?
    ensures var next := TaskStep(cfg, kind, now, j.locks, j.stage.task, j.stage.node, j.stage.todo).value;
            Shape(cfg, kind, j, next, Begins(j, Local, next))
  {
    hide Parsed, RepairCall, LockValues, Live, Skips;
    var task := j.stage.task;
    var next := TaskStep(cfg, kind, now, j.locks, task, j.stage.node, j.stage.todo).value;
    if task.Locking? {
      assert Locks(j, next, Begins(j, Local, next));
    } else if task.Unlocked? && next.stage.Busy? {
      assert TakesUp(cfg, kind, j, next, Begins(j, Local, next));
    } else {
      assert GoesOn(j, next, Begins(j, Local, next));
    }
  }

  lemma AnswerShape(cfg: Config, kind: Kind, task: Task, node: NodeObject, todo: seq<NodeObject>, e: Event)
    requires AnswerStep(cfg, kind, task, node, todo, e).Some? && RunStage(Busy(task, node, todo))
    ensures Open(AnswerStep(cfg, kind, task, node, todo, e).value) == Open(Busy(task, node, todo))
  {
    hide RepairCall, MarkValues, Accepts;
  }

  lemma StepShape(cfg: Config, kind: Kind, now: int, j: Job, e: Event)
    requires RunStage(j.stage) && Step(cfg, kind, now, j, e).Some? && !e.Swept?
    ensures var next := Step(cfg, kind, now, j, e).value; Shape(cfg, kind, j, next, Begins(j, e, next))
  {
    hide TaskStep, AnswerStep, LoopStep;
    match e
    case Local =>
      match j.stage {
        case Rest(_) =>
        case Head(_, todo) => if todo != [] { LoopShape(cfg, kind, now, j); }
        case Busy(_, _, _) => TaskShape(cfg, kind, now, j);
      }
    case Swept =>
    case Listed(_) =>
    case Collected(_, _, _, _) =>
    case _ => AnswerShape(cfg, kind, j.stage.task, j.stage.node, j.stage.todo, e);
  }

  lemma ShapeLimit(cfg: Config, kind: Kind, j: Job, next: Job, begins: set<string>)
    requires WithinLimit(cfg, kind, j) && Shape(cfg, kind, j, next, begins)
    ensures WithinLimit(cfg, kind, next)
  {
    if Locks(j, next, begins) {
      SubsetSizes(next.locks.Keys, j.locks.Keys, Open(j.stage));
    } else {
      SubsetSize(next.locks.Keys, j.locks.Keys);
    }
    assert |Open(next.stage)| <= 1;
  }

  lemma ShapeAccounted(cfg: Config, kind: Kind, j: Job, next: Job, begun: set<string>, begins: set<string>, swept: nat)
    requires Accounted(j, begun, swept) && Fresh(j.stage, begun) && Shape(cfg, kind, j, next, begins)
    ensures Accounted(next, begun + begins, swept)
  {
    hide Open, cfg.LimitReached;
    var before, after := begun - j.locks.Keys - Open(j.stage), begun + begins - next.locks.Keys - Open(next.stage);
    assert after <= before;
    SubsetSize(after, before);
  }

  predicate Waiting(stage: Stage) {
    stage.Busy? && (stage.task.Due? || stage.task.Unlocked?)
  }

  /** A node waiting for its lock check was waiting before or comes from the list. */
  predicate WaitsProperly(s: Stage, t: Stage) {
    Waiting(t) ==>
      || (Waiting(s) && t.node == s.node)
      || (s.Head? && s.todo != [] && t.node == s.todo[0])
  }

  lemma TaskWaiting(cfg: Config, kind: Kind, now: int, j: Job)
    requires j.stage.Busy?
    requires TaskStep(cfg, kind, now, j.locks, j.stage.task, j.stage.node, j.stage.todo).Some?
    ensures WaitsProperly(j.stage, TaskStep(cfg, kind, now, j.locks, j.stage.task, j.stage.node, j.stage.todo).value.stage)
  {
    hide TaskStep;
  }

  lemma AnswerWaiting(cfg: Config, kind: Kind, task: Task, node: NodeObject, todo: seq<NodeObject>, e: Event)
    requires AnswerStep(cfg, kind, task, node, todo, e).Some?
    ensures !Waiting(AnswerStep(cfg, kind, task, node, todo, e).value)
  {
  }

  lemma StepWaiting(cfg: Config, kind: Kind, now: int, j: Job, e: Event)
    requires Step(cfg, kind, now, j, e).Some?
    ensures WaitsProperly(j.stage, Step(cfg, kind, now, j, e).value.stage)
  {
    match e
    case Local => if j.stage.Busy? { TaskWaiting(cfg, kind, now, j); }
    case Swept =>
    case Listed(_) =>
    case Collected(_, _, _, _) =>
    case _ => AnswerWaiting(cfg, kind, j.stage.task, j.stage.node, j.stage.todo, e);
  }

  lemma FreshMoves(s: Stage, t: Stage, begun: set<string>, begins: set<string>)
    requires Tidy(s) && Tidy(t) && Moves(s, t) && Fresh(s, begun) && WaitsProperly(s, t)
    requires begins == {} || (t.Busy? && !Waiting(t) && begins == {t.node.name})
    ensures Fresh(t, begun + begins)
  {
    if Todo(s) != [] {
      TailNames(Todo(s));
    }
  }

  /** A run stays a run until it ends, and never goes back before its loop over nodes. */
  predicate Proceeds(s: Stage, t: Stage) {
    && (t == Rest(Idle) || RunStage(t))
    && (t == Rest(Idle) || !Opening(t) || Opening(s))
  }

  lemma TaskProceeds(cfg: Config, kind: Kind, now: int, locks: Cache<bool>, task: Task, node: NodeObject, todo: seq<NodeObject>)
    requires RunStage(Busy(task, node, todo)) && TaskStep(cfg, kind, now, locks, task, node, todo).Some?
    ensures Proceeds(Busy(task, node, todo), TaskStep(cfg, kind, now, locks, task, node, todo).value.stage)
  {
    hide TaskStep;
  }

  lemma AnswerProceeds(cfg: Config, kind: Kind, task: Task, node: NodeObject, todo: seq<NodeObject>, e: Event)
    requires RunStage(Busy(task, node, todo)) && AnswerStep(cfg, kind, task, node, todo, e).Some?
    ensures Proceeds(Busy(task, node, todo), AnswerStep(cfg, kind, task, node, todo, e).value)
  {
    hide RepairCall, MarkValues, Accepts;
  }

  lemma StepProceeds(cfg: Config, kind: Kind, now: int, j: Job, e: Event, next: Job)
    requires RunStage(j.stage) && Step(cfg, kind, now, j, e) == Some(next)
    ensures Proceeds(j.stage, next.stage)
    ensures e.Listed? || e.Collected? ==> Opening(j.stage)
    ensures Opening(j.stage) ==> Begins(j, e, next) == {}
  {
    hide TaskStep, AnswerStep, Parsed, Check, HealthOf, Overdue;
    match e
    case Local => if j.stage.Busy? { TaskProceeds(cfg, kind, now, j.locks, j.stage.task, j.stage.node, j.stage.todo); }
    case Swept =>
    case Listed(_) =>
    case Collected(_, _, _, _) =>
    case _ => AnswerProceeds(cfg, kind, j.stage.task, j.stage.node, j.stage.todo, e);
  }

  lemma FreshStep(cfg: Config, kind: Kind, now: int, j: Job, e: Event, next: Job, begun: set<string>)
    requires Fresh(j.stage, begun) && Tidy(j.stage) && Step(cfg, kind, now, j, e) == Some(next)
    requires e.Listed? || e.Collected? ==> begun == {} && Begins(j, e, next) == {}
    ensures Fresh(next.stage, begun + Begins(j, e, next))
  {
    hide Step, Moves, WaitsProperly, Tidy;
    if e.Listed? || e.Collected? {
      assert begun + Begins(j, e, next) == {};
    } else {
      TidyStep(cfg, kind, now, j, e);
      StepMoves(cfg, kind, now, j, e);
      StepWaiting(cfg, kind, now, j, e);
      BeginsNode(cfg, kind, now, j, e, next);
      FreshMoves(j.stage, next.stage, begun, Begins(j, e, next));
    }
  }

  lemma BeginsNode(cfg: Config, kind: Kind, now: int, j: Job, e: Event, next: Job)
    requires Step(cfg, kind, now, j, e) == Some(next)
    ensures Begins(j, e, next) == {} || (next.stage.Busy? && !Waiting(next.stage) && Begins(j, e, next) == {next.stage.node.name})
  {
    hide AnswerStep, ListedStep, CollectedStep, Parsed, Check, HealthOf, Overdue;
  }

  lemma InRunStep(cfg: Config, kind: Kind, now: int, j: Job, e: Event, next: Job, begun: set<string>, swept: nat)
    requires InRun(cfg, kind, j, begun, swept) && Tidy(j.stage)
    requires Step(cfg, kind, now, j, e) == Some(next) && !e.Swept?
    ensures Invariant(cfg, kind, next, begun + Begins(j, e, next), swept)
  {
    hide Step, Shape, WithinLimit, Accounted, Fresh, Tidy, RunStage;
    var begins := Begins(j, e, next);
    TidyStep(cfg, kind, now, j, e);
    StepProceeds(cfg, kind, now, j, e, next);
    StepShape(cfg, kind, now, j, e);
    ShapeLimit(cfg, kind, j, next, begins);
    ShapeAccounted(cfg, kind, j, next, begun, begins, swept);
    FreshStep(cfg, kind, now, j, e, next, begun);
    assert Opening(j.stage) ==> begun + begins == {};
  }

  lemma GuardNext(cfg: Config, kind: Kind, now: int, j: Job, e: Event, next: Job)
    requires j.stage == Rest(Synced) && Step(cfg, kind, now, j, e) == Some(next) && !e.Swept?
    ensures next == j.(stage := Rest(if cfg.LimitReached(kind, |j.locks|) then Idle else Entered))
  {
    hide LoopStep, TaskStep, AnswerStep;
  }

  /** The guard of the cron body. */
  lemma GuardStep(cfg: Config, kind: Kind, now: int, j: Job, e: Event, next: Job, swept: nat)
    requires j.stage == Rest(Synced) && Step(cfg, kind, now, j, e) == Some(next) && !e.Swept?
    ensures Invariant(cfg, kind, next, {}, swept)
    ensures Begins(j, e, next) == {}
  {
    hide Step;
    GuardNext(cfg, kind, now, j, e, next);
  }

  function SweptBy(now: int, j: Job, e: Event): nat {
    if e.Swept? then |ExpiredNames(j.locks, now)| else 0
  }

  lemma InvariantStep(cfg: Config, kind: Kind, now: int, j: Job, e: Event, next: Job, begun: set<string>, swept: nat)
    requires Invariant(cfg, kind, j, begun, swept) && j.stage != Rest(Idle)
    requires Step(cfg, kind, now, j, e) == Some(next)
    ensures Invariant(cfg, kind, next, begun + Begins(j, e, next), swept + SweptBy(now, j, e))
  {
    hide InRun, Tidy, LocalStep, AnswerStep, ListedStep;
    if e.Swept? {
      SweepKeeps(cfg, kind, now, j, begun, swept);
      assert begun + {} == begun;
    } else if j.stage == Rest(Synced) {
      GuardStep(cfg, kind, now, j, e, next, swept);
      assert begun + {} == {};
    } else {
      InRunStep(cfg, kind, now, j, e, next, begun, swept);
    }
  }

  lemma {:induction false} InvariantInRun(cfg: Config, kind: Kind, js: seq<Job>, log: seq<Timed>, a: nat, b: nat)
    requires Trail(cfg, kind, js, log) && OneRun(js, a, b) && Tidy(js[a].stage)
    ensures Invariant(cfg, kind, js[b], Begun(js, log, a, b), SweptCount(js, log, a, b))
  {
    hide Step, InRun, Tidy;
    if a < b {
      InvariantInRun(cfg, kind, js, log, a, b - 1);
      assert StepAt(cfg, kind, js, log, b - 1);
      InvariantStep(cfg, kind, log[b - 1].at, js[b - 1], log[b - 1].event, js[b],
                    Begun(js, log, a, b - 1), SweptCount(js, log, a, b - 1));
    }
  }

  /** A run that was let in by the guard never has more locks in its cache than the limit allows, whatever the
      janitor does; `Idle` is the end of the run, and a run the guard turned away acts on nothing. */
  lemma CacheStaysWithinLimit(cfg: Config, kind: Kind, js: seq<Job>, log: seq<Timed>, a: nat, b: nat)
    requires Trail(cfg, kind, js, log) && OneRun(js, a, b)
    requires cfg.Job(kind).limit > 0 && a < b
    ensures js[b].stage != Rest(Synced) && js[b].stage != Rest(Idle) ==> |js[b].locks| <= cfg.Job(kind).limit
    ensures js[b].stage == Rest(Idle) ==>
              |js[b].locks| <= cfg.Job(kind).limit || Begun(js, log, a, b) == {}
  {
    InvariantInRun(cfg, kind, js, log, a, b);
  }

  /** One run acts on at most `limit` nodes plus one for every expired entry the janitor sweeps meanwhile, although
      healthy nodes give up locks on the way and updates may meet nodes that are locked already. */
  lemma RunStaysWithinBudget(cfg: Config, kind: Kind, js: seq<Job>, log: seq<Timed>, a: nat, b: nat)
    requires Trail(cfg, kind, js, log) && OneRun(js, a, b)
    requires cfg.Job(kind).limit > 0
    ensures |Begun(js, log, a, b)| <= cfg.Job(kind).limit + SweptCount(js, log, a, b)
  {
    InvariantInRun(cfg, kind, js, log, a, b);
    var j, begun := js[b], Begun(js, log, a, b);
    SubsetSizes(begun, begun - j.locks.Keys - Open(j.stage), j.locks.Keys + Open(j.stage));
    SubsetSizes(j.locks.Keys + Open(j.stage), j.locks.Keys, Open(j.stage));
  }
}

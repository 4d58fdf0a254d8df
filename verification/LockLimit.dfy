/**
 The limit over time: the number of nodes with a live lock annotation of a job stays within the limit of that job, through
 ticks, restarts and the other job, if the check means the time left, and unless an entry leaves the lock cache in a run
 although its annotation is live. There are three ways for it to do so. The janitor sweeps an entry that the run has made;
 this can happen with every limit. A healthy node gives its lock up, or the janitor sweeps an entry of a lock that the run
 has renewed; a limit of one rules both out.
 */
module LockLimit {
  import opened Options
  import opened JsonPatch
  import opened Nodes
  import opened Settings
  import opened TimedCaches
  import opened SetSizes
  import opened Jobs
  import opened World
  import opened Budget
  import opened Provisioning
  import Window = LockWindow

  predicate HasLive(cfg: Config, kind: Kind, node: NodeObject, now: int) {
    var lock := cfg.Job(kind).lockAnnotation;
    lock in node.annotations && node.annotations[lock].Stamp? && now < node.annotations[lock].instant
  }

  /** The nodes with a live lock annotation of the job. */
  function LiveLocks(cfg: Config, kind: Kind, w: World): set<string> {
    set name | name in w.nodes && HasLive(cfg, kind, w.nodes[name], w.now)
  }

  function Until(cfg: Config, kind: Kind, w: World, name: string): int
    requires name in LiveLocks(cfg, kind, w)
  {
    w.nodes[name].annotations[cfg.Job(kind).lockAnnotation].instant
  }

  /** The node whose lock is in the cache, and on its way to the node. */
  function AtHand(stage: Stage): set<string> {
    if stage.Busy? && (stage.task.Stamping? || stage.task.Writing?) then {stage.node.name} else {}
  }

  // ---- what the entries of a run are ----

  /** The step from s to t puts the node at hand into the cache, to lock it by annotation as well. */
  predicate Enters(s: Stage, t: Stage) {
    s.Busy? && s.task.Locking? && t.Busy? && t.task.Stamping?
  }

  /** The names that the run at ws[i] has locked: for the first time if not `renewed`, and otherwise although they were
      locked, so that the cache kept the entry they had. */
  function EntriesOf(kind: Kind, renewed: bool, ws: seq<World>, i: nat): set<string>
    requires i < |ws|
  {
    if i == 0 || !RunStage(ws[i - 1].JobOf(kind).stage) then {}
    else EntriesOf(kind, renewed, ws, i - 1) + NewEntry(kind, renewed, ws[i - 1], ws[i])
  }

  function NewEntry(kind: Kind, renewed: bool, w: World, next: World): set<string> {
    var j := w.JobOf(kind);
    if Enters(j.stage, next.JobOf(kind).stage) && Live(j.locks, j.stage.node.name, next.now) == renewed
    then {j.stage.node.name} else {}
  }

  // ---- the hypotheses ----

  /** The lock that a healthy node gives up. */
  function GivenUp(j: Job, e: Event): set<string> {
    if e.Local? && j.stage.Head? && j.stage.loop.RepairRun? && j.stage.todo != []
       && HealthOf(j.stage.todo[0].conditions).ready
    then {j.stage.todo[0].name} else {}
  }

  /** The entries that a run takes out of the cache. */
  function Removes(j: Job, e: Event, at: int): set<string> {
    if e.Swept? then ExpiredNames(j.locks, at) else GivenUp(j, e)
  }

  /** Others bring no locks of the job. */
  predicate Quiet(cfg: Config, kind: Kind, change: Outside) {
    match change
    case Annotated(_, key, _) => key != cfg.Job(kind).lockAnnotation
    case Joined(node) => cfg.Job(kind).lockAnnotation !in node.annotations
    case _ => true
  }

  /** The list that syncNodeLockCache takes is current, and nobody else writes the lock annotation. */
  ghost predicate Assumed(cfg: Config, kind: Kind, w: World, h: Happening) {
    match h.what
    case ByJob(who, e, _) =>
      who == kind && e.Listed? && w.JobOf(kind).stage == Rest(Begin(kind)) ==> Current(e.view, w.nodes)
    case Died => true
    case ByOthers(change) => Quiet(cfg, kind, change)
  }

  predicate RunsOwn(kind: Kind, w: World, h: Happening) {
    h.what.ByJob? && h.what.kind == kind && RunStage(w.JobOf(kind).stage)
  }

  /** The locks that are live at the instant, or about to be written. */
  function Needed(cfg: Config, kind: Kind, w: World, at: int): set<string> {
    LiveLocks(cfg, kind, w.(now := at)) + AtHand(w.JobOf(kind).stage)
  }

  /** A sweep in the run takes out none of these entries while its annotation is live or about to be written. */
  predicate Harmless(cfg: Config, kind: Kind, entries: set<string>, w: World, h: Happening) {
    RunsOwn(kind, w, h) && h.what.event.Swept? ==>
      ExpiredNames(w.JobOf(kind).locks, h.at) * entries !! Needed(cfg, kind, w, h.at)
  }

  /** No healthy node gives up a lock whose annotation is live. */
  predicate Kept(cfg: Config, kind: Kind, w: World, h: Happening) {
    RunsOwn(kind, w, h) ==> GivenUp(w.JobOf(kind), h.what.event) !! LiveLocks(cfg, kind, w.(now := h.at))
  }

  /** What is needed for every limit, in a whole behaviour. */
  ghost predicate AllAssumed(cfg: Config, kind: Kind, ws: seq<World>, hs: seq<Happening>)
    requires |ws| == |hs| + 1
  {
    forall k :: 0 <= k < |hs| ==>
      Assumed(cfg, kind, ws[k], hs[k]) && Harmless(cfg, kind, EntriesOf(kind, false, ws, k), ws[k], hs[k])
  }

  ghost predicate AllKept(cfg: Config, kind: Kind, ws: seq<World>, hs: seq<Happening>)
    requires |ws| == |hs| + 1
  {
    forall k :: 0 <= k < |hs| ==> Kept(cfg, kind, ws[k], hs[k])
  }

  /** No sweep takes out an entry of a lock that the run has renewed. */
  ghost predicate AllRenewalsKept(cfg: Config, kind: Kind, ws: seq<World>, hs: seq<Happening>)
    requires |ws| == |hs| + 1
  {
    forall k :: 0 <= k < |hs| ==> Harmless(cfg, kind, EntriesOf(kind, true, ws, k), ws[k], hs[k])
  }

  // ---- where live locks come from ----

  lemma OtherPatch(cfg: Config, kind: Kind, who: Kind, now: int, j: Job, name: string, change: Change, ok: bool,
                   doc: Annotations)
    requires cfg.DistinctAnnotations() && Proper(cfg, who, j.stage)
    requires Step(cfg, who, now, j, Patch(name, change, ok)).Some? && Effect(doc, change).Applied?
    requires !(who == kind && j.stage.task.Writing?)
    ensures var lock, after := cfg.Job(kind).lockAnnotation, Effect(doc, change).result;
            lock in after ==> lock in doc && after[lock] == doc[lock]
  {
    hide LocalStep, MarkValues, LockValues, IsLockChange;
    cfg.OwnNames();
    PatchTouches(cfg, who, now, j, name, change, ok);
    if cfg.Job(kind).lockAnnotation !in Touched(change) {
      EffectElsewhere(doc, change, cfg.Job(kind).lockAnnotation);
    } else {
      assert change == Drop({cfg.Job(kind).lockAnnotation}) by {
        LockPatch(cfg, kind, who, j.stage.task, change);
      }
    }
  }

  /** But for the lock patch, a job touches its lock only to take it off, and the other job never does. */
  lemma LockPatch(cfg: Config, kind: Kind, who: Kind, task: Task, change: Change)
    requires cfg.DistinctAnnotations() && PatchFor(cfg, who, task) == Some(change)
    requires cfg.Job(kind).lockAnnotation in Touched(change) && !(who == kind && task.Writing?)
    requires task.Writing? ==> IsLockChange(cfg, who, change)
    ensures change == Drop({cfg.Job(kind).lockAnnotation})
  {
    cfg.OwnNames();
  }

  lemma EventLive(cfg: Config, kind: Kind, who: Kind, now: int, j: Job, e: Event, applied: bool, nodes: Cluster, name: string)
    requires cfg.DistinctAnnotations() && Proper(cfg, who, j.stage) && Step(cfg, who, now, j, e).Some?
    requires EventEffect(cfg, nodes, e, applied).Some? && name in EventEffect(cfg, nodes, e, applied).value
    requires !(who == kind && e.Patch? && applied && e.name == name && j.stage.Busy? && j.stage.task.Writing?)
    ensures var lock, after := cfg.Job(kind).lockAnnotation, EventEffect(cfg, nodes, e, applied).value[name].annotations;
            name in nodes && (lock in after ==> lock in nodes[name].annotations && after[lock] == nodes[name].annotations[lock])
  {
    hide Step, Effect, Proper;
    if e.Patch? && applied && e.name == name {
      PatchTouches(cfg, who, now, j, e.name, e.change, e.ok);
      OtherPatch(cfg, kind, who, now, j, e.name, e.change, e.ok, nodes[name].annotations);
    }
  }

  lemma OutsideLive(cfg: Config, kind: Kind, nodes: Cluster, change: Outside, name: string)
    requires Quiet(cfg, kind, change) && name in OutsideEffect(nodes, change)
    ensures var lock, after := cfg.Job(kind).lockAnnotation, OutsideEffect(nodes, change)[name].annotations;
            lock in after ==> name in nodes && lock in nodes[name].annotations && after[lock] == nodes[name].annotations[lock]
  {
  }

  /** A lock that is live after a step was so before, or the step has written it. */
  lemma NewLive(cfg: Config, kind: Kind, w: World, h: Happening, next: World, name: string)
    requires cfg.DistinctAnnotations() && Orderly(cfg, w) && WorldStep(cfg, w, h) == Some(next) && Assumed(cfg, kind, w, h)
    requires name in LiveLocks(cfg, kind, next)
    ensures || (name in LiveLocks(cfg, kind, w) && Until(cfg, kind, w, name) == Until(cfg, kind, next, name))
            || Window.WritesLock(cfg, kind, w, h, name, Until(cfg, kind, next, name))
  {
    hide Step, EventEffect, OutsideEffect, Tidy, Proper, Keyed, Quiet, IsLockChange;
    match h.what
    case ByJob(who, e, applied) =>
      var j := w.JobOf(who);
      if who == kind && e.Patch? && applied && e.name == name && j.stage.Busy? && j.stage.task.Writing? {
        WrittenLive(cfg, kind, w, h, next, name);
      } else {
        EventLive(cfg, kind, who, h.at, j, e, applied, w.nodes, name);
      }
    case Died =>
    case ByOthers(change) => OutsideLive(cfg, kind, w.nodes, change, name);
  }

  lemma WrittenLive(cfg: Config, kind: Kind, w: World, h: Happening, next: World, name: string)
    requires Orderly(cfg, w) && WorldStep(cfg, w, h) == Some(next) && name in LiveLocks(cfg, kind, next)
    requires h.what.ByJob? && h.what.kind == kind && h.what.event.Patch? && h.what.applied && h.what.event.name == name
    requires w.JobOf(kind).stage.Busy? && w.JobOf(kind).stage.task.Writing?
    ensures Window.WritesLock(cfg, kind, w, h, name, Until(cfg, kind, next, name))
  {
    hide LocalStep, Tidy, Keyed;
  }

  // ---- the locks while the cache is rebuilt ----

  /** What the place of the job says about a lock that is live until `until`, up to the guard. */
  predicate Restores(cfg: Config, kind: Kind, now: int, j: Job, name: string, until: int) {
    match j.stage
    case Rest(place) => place.Synced? ==> Window.Held(j.locks, name, until)
    case Head(loop, todo) => loop.Sync? ==> Window.Rebuilding(cfg, kind, j.locks, todo, name, until)
    case Busy(task, node, todo) =>
      match task {
        case Restoring(dur) =>
          if node.name == name then name !in j.locks && now + dur >= until
          else Window.Rebuilding(cfg, kind, j.locks, todo, name, until)
        case Dropping => node.name != name && Window.Rebuilding(cfg, kind, j.locks, todo, name, until)
        case _ => true
      }
  }

  lemma SyncRestores(cfg: Config, kind: Kind, at: int, locks: Cache<bool>, node: NodeObject, rest: seq<NodeObject>,
                     name: string, until: int)
    requires cfg.reading.Remaining? && at < until && DistinctNames([node] + rest)
    requires Window.Rebuilding(cfg, kind, locks, [node] + rest, name, until)
    ensures Restores(cfg, kind, at, LoopStep(cfg, kind, at, locks, Sync, node, rest), name, until)
  {
    hide DistinctNames;
    TailNames([node] + rest);
    assert ([node] + rest)[1..] == rest && node in [node] + rest;
    if node.name != name {
      Window.RebuildingTail(cfg, kind, locks, node, rest, name, until);
    }
  }

  lemma LocalRestores(cfg: Config, kind: Kind, now: int, at: int, j: Job, name: string, until: int)
    requires cfg.reading.Remaining? && now <= at < until && Tidy(j.stage) && !RunStage(j.stage)
    requires Restores(cfg, kind, now, j, name, until) && LocalStep(cfg, kind, at, j).Some?
    ensures Restores(cfg, kind, at, LocalStep(cfg, kind, at, j).value, name, until)
  {
    hide LoopStep, DistinctNames, Window.Held, Window.Rebuilding, Added;
    match j.stage
    case Rest(_) =>
    case Head(loop, todo) => HeadRestores(cfg, kind, at, j, name, until);
    case Busy(task, node, todo) =>
      if task.Restoring? {
        RestoringEnds(cfg, kind, now, at, j, name, until);
      }
  }

  lemma HeadRestores(cfg: Config, kind: Kind, at: int, j: Job, name: string, until: int)
    requires cfg.reading.Remaining? && at < until && Tidy(j.stage) && !RunStage(j.stage) && j.stage.Head?
    requires j.stage.loop.Sync? ==> Window.Rebuilding(cfg, kind, j.locks, j.stage.todo, name, until)
    ensures Restores(cfg, kind, at, LocalStep(cfg, kind, at, j).value, name, until)
  {
    hide Check, Window.Held;
    var todo := j.stage.todo;
    if todo != [] {
      assert todo == [todo[0]] + todo[1..];
      if j.stage.loop.Sync? {
        SyncRestores(cfg, kind, at, j.locks, todo[0], todo[1..], name, until);
      }
    } else if Window.Held(j.locks, name, until) {
      Window.SweptHeld(j.locks, name, until, at);
    }
  }

  lemma RestoringEnds(cfg: Config, kind: Kind, now: int, at: int, j: Job, name: string, until: int)
    requires now <= at < until && j.stage.Busy? && j.stage.task.Restoring? && Tidy(j.stage)
    requires Restores(cfg, kind, now, j, name, until)
    ensures Restores(cfg, kind, at, TaskStep(cfg, kind, at, j.locks, j.stage.task, j.stage.node, j.stage.todo).value, name, until)
  {
    hide DistinctNames, Added, Window.Held;
    Window.AddedHeld(j.locks, j.stage.node.name, j.stage.task.dur, name, until, at);
  }

  lemma SweptRestores(cfg: Config, kind: Kind, now: int, at: int, j: Job, name: string, until: int)
    requires now <= at < until && Restores(cfg, kind, now, j, name, until)
    ensures Restores(cfg, kind, at, j.(locks := Sweep(j.locks, at)), name, until)
  {
    hide Sweep, Window.Held, Window.Rebuilding;
    if Window.Held(j.locks, name, until) {
      Window.SweptHeld(j.locks, name, until, at);
    }
    if Window.Rebuilding(cfg, kind, j.locks, Todo(j.stage), name, until) {
      Window.SweptRebuilding(cfg, kind, j.locks, Todo(j.stage), name, until, at);
    }
    Window.SweptAbsent(j.locks, name, at);
  }

  lemma AnswerRestores(cfg: Config, kind: Kind, now: int, at: int, j: Job, e: Event, name: string, until: int)
    requires now <= at < until && !RunStage(j.stage) && j.stage.Busy? && Restores(cfg, kind, now, j, name, until)
    requires AnswerStep(cfg, kind, j.stage.task, j.stage.node, j.stage.todo, e).Some?
    ensures Restores(cfg, kind, at, j.(stage := AnswerStep(cfg, kind, j.stage.task, j.stage.node, j.stage.todo, e).value),
                     name, until)
  {
    hide RepairCall, MarkValues, LockValuesAt, Accepts, Window.Held, Window.Rebuilding;
  }

  lemma ListedRestores(cfg: Config, kind: Kind, at: int, j: Job, view: seq<NodeObject>, nodes: Cluster, name: string, until: int)
    requires ListedStep(kind, j, view).Some? && !RunStage(j.stage) && OwnPlace(kind, j.stage) && Keyed(nodes)
    requires j.stage == Rest(Begin(kind)) ==> Current(view, nodes)
    requires name in nodes && Window.Stamped(cfg, kind, nodes[name].annotations, until)
    ensures Restores(cfg, kind, at, ListedStep(kind, j, view).value, name, until)
  {
    if j.stage == Rest(Begin(kind)) {
      assert nodes[name] in view && nodes[name].name == name;
      forall node <- view | node.name == name ensures Window.Stamped(cfg, kind, node.annotations, until) {
        assert nodes[node.name] == node;
      }
    }
  }

  lemma StepRestores(cfg: Config, kind: Kind, now: int, at: int, j: Job, e: Event, next: Job, nodes: Cluster,
                     name: string, until: int)
    requires cfg.reading.Remaining? && now <= at < until && Tidy(j.stage) && !RunStage(j.stage) && OwnPlace(kind, j.stage)
    requires Restores(cfg, kind, now, j, name, until) && Step(cfg, kind, at, j, e) == Some(next)
    requires Keyed(nodes) && name in nodes && Window.Stamped(cfg, kind, nodes[name].annotations, until)
    requires e.Listed? && j.stage == Rest(Begin(kind)) ==> Current(e.view, nodes)
    ensures Restores(cfg, kind, at, next, name, until)
  {
    hide LocalStep, ListedStep, AnswerStep, Restores, Tidy, Current, Keyed;
    match e
    case Local => LocalRestores(cfg, kind, now, at, j, name, until);
    case Swept => SweptRestores(cfg, kind, now, at, j, name, until);
    case Listed(view) => ListedRestores(cfg, kind, at, j, view, nodes, name, until);
    case Collected(_, _, _, _) =>
    case _ => AnswerRestores(cfg, kind, now, at, j, e, name, until);
  }

  lemma LaterRestores(cfg: Config, kind: Kind, now: int, at: int, j: Job, name: string, until: int)
    requires now <= at && Restores(cfg, kind, now, j, name, until)
    ensures Restores(cfg, kind, at, j, name, until)
  {
  }

  lemma RunRestores(cfg: Config, kind: Kind, now: int, j: Job, name: string, until: int)
    requires RunStage(j.stage) || j.stage == Rest(Idle)
    ensures Restores(cfg, kind, now, j, name, until)
  {
  }

  /** Every lock that is live after a step can still be restored, or is. */
  lemma LiveRestores(cfg: Config, kind: Kind, w: World, h: Happening, next: World, name: string)
    requires cfg.DistinctAnnotations() && cfg.reading.Remaining? && Orderly(cfg, w)
    requires name in LiveLocks(cfg, kind, w) ==>
               Restores(cfg, kind, w.now, w.JobOf(kind), name, Until(cfg, kind, w, name))
    requires WorldStep(cfg, w, h) == Some(next) && Assumed(cfg, kind, w, h) && name in LiveLocks(cfg, kind, next)
    ensures Restores(cfg, kind, next.now, next.JobOf(kind), name, Until(cfg, kind, next, name))
  {
    hide Step, EventEffect, OutsideEffect, Restores, Tidy, Proper, Keyed, Current, RunStage;
    var j, until := w.JobOf(kind), Until(cfg, kind, next, name);
    NewLive(cfg, kind, w, h, next, name);
    if RunStage(j.stage) {
      RunStays(cfg, kind, w, h, next);
      RunRestores(cfg, kind, next.now, next.JobOf(kind), name, until);
    } else {
      WritingIsRun(j.stage);
      if h.what.ByJob? && h.what.kind == kind {
        ProperPlace(cfg, kind, j.stage);
        StepRestores(cfg, kind, w.now, h.at, j, h.what.event, next.JobOf(kind), w.nodes, name, until);
      } else if h.what.Died? {
        RunRestores(cfg, kind, next.now, FRESH_JOB, name, until);
      } else {
        LaterRestores(cfg, kind, w.now, h.at, j, name, until);
      }
    }
  }

  lemma ProperPlace(cfg: Config, kind: Kind, stage: Stage)
    requires Proper(cfg, kind, stage)
    ensures OwnPlace(kind, stage)
  {
  }

  lemma RunStays(cfg: Config, kind: Kind, w: World, h: Happening, next: World)
    requires WorldStep(cfg, w, h) == Some(next) && RunStage(w.JobOf(kind).stage)
    ensures RunStage(next.JobOf(kind).stage) || next.JobOf(kind).stage == Rest(Idle)
  {
    hide Step, EventEffect, OutsideEffect, RunStage;
    if h.what.ByJob? && h.what.kind == kind {
      StepProceeds(cfg, kind, h.at, w.JobOf(kind), h.what.event, next.JobOf(kind));
    }
  }

  lemma WritingIsRun(stage: Stage)
    requires !RunStage(stage)
    ensures !(stage.Busy? && stage.task.Writing?) && AtHand(stage) == {}
  {
  }

  // ---- the invariant ----

  ghost predicate Invariant(cfg: Config, kind: Kind, w: World, made: set<string>, renewed: set<string>) {
    && |LiveLocks(cfg, kind, w)| <= cfg.Job(kind).limit
    && (forall name <- LiveLocks(cfg, kind, w) ::
          Restores(cfg, kind, w.now, w.JobOf(kind), name, Until(cfg, kind, w, name)))
    && (RunStage(w.JobOf(kind).stage) ==> Counted(cfg, kind, w, made, renewed))
  }

  /** In a run, all live locks are in the cache, which is within the limit; an entry that the run has not touched is not
      over before its lock. */
  ghost predicate Counted(cfg: Config, kind: Kind, w: World, made: set<string>, renewed: set<string>) {
    var j := w.JobOf(kind);
    && (forall name <- LiveLocks(cfg, kind, w) ::
          name in j.locks && (name in made + renewed || Window.Held(j.locks, name, Until(cfg, kind, w, name))))
    && (forall name <- AtHand(j.stage) :: name in j.locks && name in made + renewed)
    && WithinLimit(cfg, kind, j)
    && (cfg.Job(kind).limit == 1 ==> OneAtATime(j) && renewed == {})
  }

  /** With a limit of one, a run starts with an empty cache and then locks only nodes it has passed, each once. */
  predicate OneAtATime(j: Job) {
    && (Opening(j.stage) ==> j.locks == map[])
    && j.locks.Keys !! Names(Todo(j.stage))
    && (j.stage.Busy? && AtHand(j.stage) == {} ==> j.stage.node.name !in j.locks)
  }

  // ---- what a run takes out ----

  /** No entry whose annotation is live or about to be written. */
  predicate Spared(cfg: Config, kind: Kind, w: World, h: Happening) {
    RunsOwn(kind, w, h) ==> Removes(w.JobOf(kind), h.what.event, h.at) !! Needed(cfg, kind, w, h.at)
  }

  lemma LiveBefore(cfg: Config, kind: Kind, w: World, at: int, name: string)
    requires w.now <= at && name in LiveLocks(cfg, kind, w.(now := at))
    ensures name in LiveLocks(cfg, kind, w) && Until(cfg, kind, w, name) > at
  {
  }

  lemma SweepSpares(cfg: Config, kind: Kind, w: World, h: Happening, made: set<string>, renewed: set<string>)
    requires Counted(cfg, kind, w, made, renewed) && RunsOwn(kind, w, h) && h.what.event.Swept? && w.now <= h.at
    requires Harmless(cfg, kind, made, w, h) && (cfg.Job(kind).limit == 1 || Harmless(cfg, kind, renewed, w, h))
    ensures Spared(cfg, kind, w, h)
  {
    hide LiveLocks, OneAtATime, WithinLimit;
    forall name | name in Needed(cfg, kind, w, h.at) ensures name !in ExpiredNames(w.JobOf(kind).locks, h.at) {
      if name in LiveLocks(cfg, kind, w.(now := h.at)) {
        LiveBefore(cfg, kind, w, h.at, name);
      }
    }
  }

  lemma HealthySpares(cfg: Config, kind: Kind, w: World, h: Happening, made: set<string>, renewed: set<string>)
    requires Counted(cfg, kind, w, made, renewed) && RunsOwn(kind, w, h) && !h.what.event.Swept? && w.now <= h.at
    requires cfg.Job(kind).limit == 1 || Kept(cfg, kind, w, h)
    ensures Spared(cfg, kind, w, h)
  {
    hide LiveLocks, HealthOf, WithinLimit;
    var removed := GivenUp(w.JobOf(kind), h.what.event);
    forall name | name in LiveLocks(cfg, kind, w.(now := h.at)) ensures name !in removed {
      if cfg.Job(kind).limit == 1 {
        LiveBefore(cfg, kind, w, h.at, name);
        assert name in w.JobOf(kind).locks.Keys;
      }
    }
  }

  lemma EventSpares(cfg: Config, kind: Kind, w: World, h: Happening, made: set<string>, renewed: set<string>)
    requires Counted(cfg, kind, w, made, renewed) && w.now <= h.at && Harmless(cfg, kind, made, w, h)
    requires cfg.Job(kind).limit == 1 || (Kept(cfg, kind, w, h) && Harmless(cfg, kind, renewed, w, h))
    ensures Spared(cfg, kind, w, h)
  {
    hide Counted, Kept, RunStage, Harmless, Needed, Removes;
    if RunsOwn(kind, w, h) {
      if h.what.event.Swept? {
        SweepSpares(cfg, kind, w, h, made, renewed);
      } else {
        HealthySpares(cfg, kind, w, h, made, renewed);
      }
    }
  }

  // ---- the cache ----

  /** What was in the cache stays but for what is taken out; no entry that is not over is changed. */
  predicate KeepsItems(j: Job, removed: set<string>, next: Job, at: int) {
    next.stage == Rest(Idle) ||
    forall name <- j.locks.Keys - removed ::
      name in next.locks && (next.locks[name] == j.locks[name] || Expired(j.locks[name].expiry, at))
  }

  /** A node gets at hand by being entered. */
  predicate KeepsAtHand(j: Job, next: Job) {
    AtHand(next.stage) != {} ==>
      || AtHand(next.stage) == AtHand(j.stage)
      || (Enters(j.stage, next.stage) && next.stage.node == j.stage.node && next.stage.node.name in next.locks)
  }

  /** Entries come from locking the node at hand only, and are never changed otherwise. */
  predicate OnlyLocks(j: Job, next: Job, at: int) {
    forall name <- next.locks ::
      || (name in j.locks && next.locks[name] == j.locks[name])
      || (j.stage.Busy? && j.stage.task.Locking? && name == j.stage.node.name
          && next.locks[name].expiry == Deadline(j.stage.task.dur, LOCK_LIFE, at))
  }

  /** What a step of a run does to the cache. */
  predicate Handles(j: Job, removed: set<string>, next: Job, at: int) {
    KeepsItems(j, removed, next, at) && KeepsAtHand(j, next) && OnlyLocks(j, next, at)
  }

  lemma LoopItems(cfg: Config, kind: Kind, at: int, j: Job)
    requires RunStage(j.stage) && j.stage.Head? && j.stage.todo != []
    ensures Handles(j, Removes(j, Local, at),
                    LoopStep(cfg, kind, at, j.locks, j.stage.loop, j.stage.todo[0], j.stage.todo[1..]), at)
  {
    hide Parsed, Check, HealthOf, Overdue, BanIsOver;
  }

  lemma TaskItems(cfg: Config, kind: Kind, at: int, j: Job)
    requires j.stage.Busy? && RunStage(j.stage)
    requires TaskStep(cfg, kind, at, j.locks, j.stage.task, j.stage.node, j.stage.todo).Some?
    ensures Handles(j, {}, TaskStep(cfg, kind, at, j.locks, j.stage.task, j.stage.node, j.stage.todo).value, at)
  {
    hide Parsed, RepairCall, Deadline;
  }

  lemma AnswerItems(cfg: Config, kind: Kind, at: int, locks: Cache<bool>, task: Task, node: NodeObject,
                    todo: seq<NodeObject>, e: Event)
    requires AnswerStep(cfg, kind, task, node, todo, e).Some?
    ensures Handles(Job(locks, Busy(task, node, todo)), {},
                    Job(locks, AnswerStep(cfg, kind, task, node, todo, e).value), at)
    ensures !task.Locking?
  {
    hide RepairCall, MarkValues, LockValuesAt, Accepts;
  }

  lemma RestItems(cfg: Config, kind: Kind, at: int, j: Job, e: Event, next: Job)
    requires RunStage(j.stage) && j.stage.Rest? && Step(cfg, kind, at, j, e) == Some(next)
    ensures Handles(j, Removes(j, e, at), next, at)
  {
    hide AnswerStep, TaskStep, LoopStep, Candidates;
  }

  lemma ItemsStay(cfg: Config, kind: Kind, at: int, j: Job, e: Event, next: Job)
    requires RunStage(j.stage) && Step(cfg, kind, at, j, e) == Some(next)
    ensures Handles(j, Removes(j, e, at), next, at)
    ensures next.locks.Keys <= j.locks.Keys + if e.Local? && j.stage.Busy? && j.stage.task.Locking? then {j.stage.node.name} else {}
  {
    hide LoopStep, TaskStep, AnswerStep, HealthOf, Deadline;
    if j.stage.Rest? {
      RestItems(cfg, kind, at, j, e, next);
    } else {
      match e
      case Local =>
        match j.stage {
          case Head(_, todo) => if todo != [] { LoopItems(cfg, kind, at, j); }
          case Busy(_, _, _) => TaskItems(cfg, kind, at, j);
        }
      case Swept =>
      case Listed(_) =>
      case Collected(_, _, _, _) =>
      case _ => AnswerItems(cfg, kind, at, j.locks, j.stage.task, j.stage.node, j.stage.todo, e);
    }
  }

  lemma OneAtATimeStays(cfg: Config, kind: Kind, at: int, j: Job, e: Event, next: Job)
    requires RunStage(j.stage) && Step(cfg, kind, at, j, e) == Some(next)
    requires Tidy(j.stage) && OneAtATime(j) && next.stage != Rest(Idle)
    ensures OneAtATime(next)
  {
    hide Step, Tidy, RunStage, KeepsItems, KeepsAtHand, OnlyLocks;
    ItemsStay(cfg, kind, at, j, e, next);
    StepProceeds(cfg, kind, at, j, e, next);
    if Opening(j.stage) {
      OpeningLocksNothing(j.stage);
    } else if !e.Listed? && !e.Collected? {
      StepMoves(cfg, kind, at, j, e);
      PassedStay(j.stage, next.stage);
      HandStays(cfg, kind, at, j, e, next);
    }
  }

  lemma OpeningLocksNothing(stage: Stage)
    requires Opening(stage)
    ensures !(stage.Busy? && stage.task.Locking?)
  {
  }

  lemma PassedStay(s: Stage, t: Stage)
    requires Tidy(s) && Moves(s, t)
    ensures Names(Todo(t)) <= Names(Todo(s))
    ensures s.Busy? ==> s.node.name !in Names(Todo(t))
    ensures t.Busy? ==> (s.Busy? && t.node == s.node) || t.node.name in Names(Todo(s))
  {
    if Todo(s) != [] {
      TailNames(Todo(s));
    }
  }

  /** Once at hand, the node stays so until the run is done with it. */
  lemma HandStays(cfg: Config, kind: Kind, at: int, j: Job, e: Event, next: Job)
    requires RunStage(j.stage) && Step(cfg, kind, at, j, e) == Some(next)
    ensures j.stage.Busy? && next.stage.Busy? && (AtHand(j.stage) != {} || j.stage.task.Locking?) ==>
              AtHand(next.stage) == {j.stage.node.name} || (e.Swept? && next.stage == j.stage)
  {
    hide Parsed, Check, HealthOf, Overdue, BanIsOver, RepairCall, MarkValues, Accepts, LockValuesAt;
  }

  lemma LimitStays(cfg: Config, kind: Kind, at: int, j: Job, e: Event, next: Job)
    requires RunStage(j.stage) && Step(cfg, kind, at, j, e) == Some(next) && WithinLimit(cfg, kind, j)
    ensures WithinLimit(cfg, kind, next)
  {
    hide Step, Shape;
    if e.Swept? {
      SweptLimit(cfg, kind, at, j, next);
    } else {
      StepShape(cfg, kind, at, j, e);
      ShapeLimit(cfg, kind, j, next, Begins(j, e, next));
    }
  }

  lemma SweptLimit(cfg: Config, kind: Kind, at: int, j: Job, next: Job)
    requires Step(cfg, kind, at, j, Swept) == Some(next) && WithinLimit(cfg, kind, j)
    ensures WithinLimit(cfg, kind, next)
  {
    SubsetSize(next.locks.Keys, j.locks.Keys);
  }

  // ---- every step ----

  /** A lock is only written by the run, for the node at hand. */
  lemma LiveStays(cfg: Config, kind: Kind, w: World, h: Happening, next: World)
    requires cfg.DistinctAnnotations() && Orderly(cfg, w) && WorldStep(cfg, w, h) == Some(next) && Assumed(cfg, kind, w, h)
    ensures LiveLocks(cfg, kind, next) <= LiveLocks(cfg, kind, w) + AtHand(w.JobOf(kind).stage)
  {
    hide WorldStep, Assumed, HasLive, Tidy, Proper;
    forall name | name in LiveLocks(cfg, kind, next)
      ensures name in LiveLocks(cfg, kind, w) || name in AtHand(w.JobOf(kind).stage) {
      NewLive(cfg, kind, w, h, next, name);
    }
  }

  /** The entry of a lock that is live afterwards. */
  lemma EntryStays(cfg: Config, kind: Kind, w: World, h: Happening, next: World, made: set<string>, renewed: set<string>,
                   name: string)
    requires cfg.DistinctAnnotations() && Orderly(cfg, w) && WorldStep(cfg, w, h) == Some(next) && Assumed(cfg, kind, w, h)
    requires RunStage(w.JobOf(kind).stage) && Counted(cfg, kind, w, made, renewed) && Spared(cfg, kind, w, h)
    requires RunsOwn(kind, w, h) ==>
               KeepsItems(w.JobOf(kind), Removes(w.JobOf(kind), h.what.event, h.at), next.JobOf(kind), h.at)
    requires !RunsOwn(kind, w, h) ==> next.JobOf(kind) == w.JobOf(kind)
    requires name in LiveLocks(cfg, kind, next) && next.JobOf(kind).stage != Rest(Idle) && h.at == next.now
    ensures var locks := next.JobOf(kind).locks;
            name in locks && (name in made + renewed || Window.Held(locks, name, Until(cfg, kind, next, name)))
  {
    hide WorldStep, Assumed, Tidy, Proper, Keyed, WithinLimit, OneAtATime, RunStage, Removes;
    NewLive(cfg, kind, w, h, next, name);
    if name in LiveLocks(cfg, kind, w) && Until(cfg, kind, w, name) == Until(cfg, kind, next, name) {
      assert name in LiveLocks(cfg, kind, w.(now := h.at));
    } else {
      assert name in AtHand(w.JobOf(kind).stage);
    }
  }

  lemma CountedStays(cfg: Config, kind: Kind, w: World, h: Happening, next: World, made: set<string>, renewed: set<string>)
    requires cfg.DistinctAnnotations() && Orderly(cfg, w) && WorldStep(cfg, w, h) == Some(next) && Assumed(cfg, kind, w, h)
    requires RunStage(w.JobOf(kind).stage) && Counted(cfg, kind, w, made, renewed) && Spared(cfg, kind, w, h)
    ensures RunStage(next.JobOf(kind).stage) ==>
              Counted(cfg, kind, next, made + NewEntry(kind, false, w, next), renewed + NewEntry(kind, true, w, next))
  {
    hide WorldStep, Tidy, Keyed, Proper, LiveLocks, WithinLimit, RunStage, Assumed, KeepsItems, OneAtATime, Spared, Removes,
         NewEntry;
    IdleIsNoRun();
    if RunStage(next.JobOf(kind).stage) {
      JobStays(cfg, kind, w, h, next, made, renewed);
      forall name | name in LiveLocks(cfg, kind, next)
        ensures name in next.JobOf(kind).locks
        ensures name in made + renewed || Window.Held(next.JobOf(kind).locks, name, Until(cfg, kind, next, name)) {
        EntryStays(cfg, kind, w, h, next, made, renewed, name);
      }
    }
  }

  /** What concerns the job alone. */
  lemma JobStays(cfg: Config, kind: Kind, w: World, h: Happening, next: World, made: set<string>, renewed: set<string>)
    requires Orderly(cfg, w) && WorldStep(cfg, w, h) == Some(next) && RunStage(w.JobOf(kind).stage)
    requires Counted(cfg, kind, w, made, renewed) && Spared(cfg, kind, w, h) && RunStage(next.JobOf(kind).stage)
    ensures RunsOwn(kind, w, h) ==>
              KeepsItems(w.JobOf(kind), Removes(w.JobOf(kind), h.what.event, h.at), next.JobOf(kind), h.at)
    ensures !RunsOwn(kind, w, h) ==> next.JobOf(kind) == w.JobOf(kind)
    ensures forall name <- AtHand(next.JobOf(kind).stage) ::
              name in next.JobOf(kind).locks
              && name in made + NewEntry(kind, false, w, next) + (renewed + NewEntry(kind, true, w, next))
    ensures WithinLimit(cfg, kind, next.JobOf(kind))
    ensures cfg.Job(kind).limit == 1 ==> OneAtATime(next.JobOf(kind)) && NewEntry(kind, true, w, next) == {}
    ensures next.now == h.at && next.JobOf(kind).stage != Rest(Idle)
  {
    hide Step, EventEffect, OutsideEffect, Tidy, Keyed, LiveLocks, WithinLimit, RunStage, Proper, Removes, KeepsItems;
    IdleIsNoRun();
    if RunsOwn(kind, w, h) {
      var e := h.what.event;
      ItemsStay(cfg, kind, h.at, w.JobOf(kind), e, next.JobOf(kind));
      HandSpared(cfg, kind, w, h, next);
      LimitStays(cfg, kind, h.at, w.JobOf(kind), e, next.JobOf(kind));
      if cfg.Job(kind).limit == 1 {
        OneAtATimeStays(cfg, kind, h.at, w.JobOf(kind), e, next.JobOf(kind));
      }
    }
  }

  /** The node at hand keeps its entry. */
  lemma HandSpared(cfg: Config, kind: Kind, w: World, h: Happening, next: World)
    requires RunsOwn(kind, w, h) && Spared(cfg, kind, w, h) && next.JobOf(kind).stage != Rest(Idle)
    requires KeepsItems(w.JobOf(kind), Removes(w.JobOf(kind), h.what.event, h.at), next.JobOf(kind), h.at)
    requires forall name <- AtHand(w.JobOf(kind).stage) :: name in w.JobOf(kind).locks
    ensures forall name <- AtHand(w.JobOf(kind).stage) :: name in next.JobOf(kind).locks
  {
    hide RunStage, Removes, LiveLocks;
  }

  lemma IdleIsNoRun()
    ensures !RunStage(Rest(Idle))
  {
  }

  /** The guard lets a run in only with all live locks in the cache. */
  lemma CountedBegins(cfg: Config, kind: Kind, w: World, h: Happening, next: World, made: set<string>, renewed: set<string>)
    requires cfg.DistinctAnnotations() && Orderly(cfg, w) && WorldStep(cfg, w, h) == Some(next) && Assumed(cfg, kind, w, h)
    requires Invariant(cfg, kind, w, made, renewed) && cfg.Job(kind).limit > 0
    requires !RunStage(w.JobOf(kind).stage) && RunStage(next.JobOf(kind).stage)
    ensures Counted(cfg, kind, next, {}, {})
  {
    hide Tidy, Proper, Keyed, LiveLocks, WorldStep, HasLive, Assumed;
    GuardOnly(cfg, kind, w, h, next);
    forall name | name in LiveLocks(cfg, kind, next)
      ensures Window.Held(next.JobOf(kind).locks, name, Until(cfg, kind, next, name)) {
      NewLive(cfg, kind, w, h, next, name);
      HeldAtGuard(cfg, kind, w, made, renewed, name);
    }
  }

  lemma HeldAtGuard(cfg: Config, kind: Kind, w: World, made: set<string>, renewed: set<string>, name: string)
    requires Invariant(cfg, kind, w, made, renewed) && name in LiveLocks(cfg, kind, w)
    requires w.JobOf(kind).stage == Rest(Synced)
    ensures Window.Held(w.JobOf(kind).locks, name, Until(cfg, kind, w, name))
  {
    assert Restores(cfg, kind, w.now, w.JobOf(kind), name, Until(cfg, kind, w, name));
  }

  lemma GuardOnly(cfg: Config, kind: Kind, w: World, h: Happening, next: World)
    requires Orderly(cfg, w) && WorldStep(cfg, w, h) == Some(next)
    requires !RunStage(w.JobOf(kind).stage) && RunStage(next.JobOf(kind).stage)
    ensures w.JobOf(kind).stage == Rest(Synced) && next.JobOf(kind) == w.JobOf(kind).(stage := Rest(Entered))
    ensures cfg.Job(kind).limit > 0 ==> |w.JobOf(kind).locks| < cfg.Job(kind).limit
  {
    hide Tidy, Keyed, EventEffect, OutsideEffect, IsLockChange, Step, RunStage;
    IdleIsNoRun();
    if h.what.ByJob? && h.what.kind == kind {
      GuardStage(cfg, kind, h.at, w.JobOf(kind), h.what.event, next.JobOf(kind));
    }
  }

  lemma GuardStage(cfg: Config, kind: Kind, at: int, j: Job, e: Event, next: Job)
    requires Proper(cfg, kind, j.stage) && Step(cfg, kind, at, j, e) == Some(next)
    requires !RunStage(j.stage) && RunStage(next.stage)
    ensures j.stage == Rest(Synced) && next == j.(stage := Rest(Entered)) && !cfg.LimitReached(kind, |j.locks|)
  {
    hide Parsed, Check, HealthOf, Overdue, RepairCall, MarkValues, LockValues, BanIsOver, IsLockChange;
  }

  lemma StepKeeps(cfg: Config, kind: Kind, w: World, h: Happening, next: World, made: set<string>, renewed: set<string>)
    requires cfg.DistinctAnnotations() && cfg.reading.Remaining? && cfg.Job(kind).limit > 0
    requires Orderly(cfg, w) && Invariant(cfg, kind, w, made, renewed) && WorldStep(cfg, w, h) == Some(next)
    requires Assumed(cfg, kind, w, h) && Harmless(cfg, kind, made, w, h)
    requires cfg.Job(kind).limit == 1 || (Kept(cfg, kind, w, h) && Harmless(cfg, kind, renewed, w, h))
    ensures if RunStage(w.JobOf(kind).stage)
            then Invariant(cfg, kind, next, made + NewEntry(kind, false, w, next), renewed + NewEntry(kind, true, w, next))
            else Invariant(cfg, kind, next, {}, {})
  {
    hide WorldStep, Assumed, LiveLocks, Counted, RunStage, Restores, Tidy, Proper, Spared, Kept, Harmless, NewEntry;
    forall name | name in LiveLocks(cfg, kind, next)
      ensures Restores(cfg, kind, next.now, next.JobOf(kind), name, Until(cfg, kind, next, name)) {
      LiveRestores(cfg, kind, w, h, next, name);
    }
    LiveStays(cfg, kind, w, h, next);
    if RunStage(w.JobOf(kind).stage) {
      ClockStays(cfg, w, h, next);
      EventSpares(cfg, kind, w, h, made, renewed);
      CountedStays(cfg, kind, w, h, next, made, renewed);
      RunWithin(cfg, kind, w, next, made, renewed);
    } else {
      WritingIsRun(w.JobOf(kind).stage);
      SubsetSize(LiveLocks(cfg, kind, next), LiveLocks(cfg, kind, w));
      if RunStage(next.JobOf(kind).stage) {
        CountedBegins(cfg, kind, w, h, next, made, renewed);
      }
    }
  }

  lemma ClockStays(cfg: Config, w: World, h: Happening, next: World)
    requires WorldStep(cfg, w, h) == Some(next)
    ensures w.now <= h.at
  {
    hide Step, EventEffect, OutsideEffect;
  }

  /** The lock that a run writes is in the cache already. */
  lemma RunWithin(cfg: Config, kind: Kind, w: World, next: World, made: set<string>, renewed: set<string>)
    requires Counted(cfg, kind, w, made, renewed) && cfg.Job(kind).limit > 0
    requires LiveLocks(cfg, kind, next) <= LiveLocks(cfg, kind, w) + AtHand(w.JobOf(kind).stage)
    ensures |LiveLocks(cfg, kind, next)| <= cfg.Job(kind).limit
  {
    hide LiveLocks, OneAtATime;
    var locks := w.JobOf(kind).locks;
    assert LiveLocks(cfg, kind, next) <= locks.Keys;
    SubsetSize(LiveLocks(cfg, kind, next), locks.Keys);
    assert |locks.Keys| == |locks|;
  }

  lemma {:induction false} Always(cfg: Config, kind: Kind, ws: seq<World>, hs: seq<Happening>, i: nat)
    requires cfg.DistinctAnnotations() && cfg.reading.Remaining? && cfg.Job(kind).limit > 0
    requires Behaviour(cfg, ws, hs) && i <= |hs| && |LiveLocks(cfg, kind, ws[0])| <= cfg.Job(kind).limit
    requires AllAssumed(cfg, kind, ws, hs)
    requires cfg.Job(kind).limit == 1 || (AllKept(cfg, kind, ws, hs) && AllRenewalsKept(cfg, kind, ws, hs))
    ensures Invariant(cfg, kind, ws[i], EntriesOf(kind, false, ws, i), EntriesOf(kind, true, ws, i))
  {
    hide WorldStep, Orderly, Assumed, Invariant, Harmless, Kept, RunStage, NewEntry;
    if i > 0 {
      Always(cfg, kind, ws, hs, i - 1);
      AlwaysOrderly(cfg, ws, hs, i - 1);
      assert HappensAt(cfg, ws, hs, i - 1);
      StepKeeps(cfg, kind, ws[i - 1], hs[i - 1], ws[i], EntriesOf(kind, false, ws, i - 1), EntriesOf(kind, true, ws, i - 1));
    } else {
      FirstWorld(cfg, kind, ws[0]);
    }
  }

  lemma FirstWorld(cfg: Config, kind: Kind, w: World)
    requires Starts(w) && |LiveLocks(cfg, kind, w)| <= cfg.Job(kind).limit
    ensures Invariant(cfg, kind, w, {}, {})
  {
  }

  /** Starting within the limit, the nodes with a live lock stay within it, over ticks and restarts. With a limit of one a
      healthy node never has a live lock to give up, and no lock is renewed. */
  lemma LiveLocksWithinLimit(cfg: Config, kind: Kind, ws: seq<World>, hs: seq<Happening>, i: nat)
    requires cfg.DistinctAnnotations() && cfg.reading.Remaining? && cfg.Job(kind).limit > 0
    requires Behaviour(cfg, ws, hs) && i <= |hs| && |LiveLocks(cfg, kind, ws[0])| <= cfg.Job(kind).limit
    requires AllAssumed(cfg, kind, ws, hs)
    requires cfg.Job(kind).limit == 1 || (AllKept(cfg, kind, ws, hs) && AllRenewalsKept(cfg, kind, ws, hs))
    ensures |LiveLocks(cfg, kind, ws[i])| <= cfg.Job(kind).limit
  {
    Always(cfg, kind, ws, hs, i);
  }
}

/** What LockLimit comes to for each of the two jobs, and what its hypothesis about sweeps means in terms of times. */
module JobLimits {
  import opened Options
  import opened JsonPatch
  import opened Nodes
  import opened Settings
  import opened TimedCaches
  import opened Jobs
  import opened World
  import opened Budget
  import opened Provisioning
  import opened LockLimit

  // ---- the repair job renews no lock ----

  /** From the lock check on, the node at hand is not locked. */
  predicate Unlocking(now: int, j: Job) {
    && (j.stage.Busy? && (j.stage.task.Unlocked? || j.stage.task.Checking? || j.stage.task.Acting? || j.stage.task.Locking?)
        ==> !Live(j.locks, j.stage.node.name, now))
  }

  lemma UnlockingTask(cfg: Config, now: int, at: int, j: Job)
    requires j.stage.Busy? && TaskStep(cfg, Repair, at, j.locks, j.stage.task, j.stage.node, j.stage.todo).Some?
    requires now <= at && Unlocking(now, j)
    ensures Unlocking(at, TaskStep(cfg, Repair, at, j.locks, j.stage.task, j.stage.node, j.stage.todo).value)
  {
    hide Parsed, RepairCall, Added;
  }

  lemma UnlockingAnswer(cfg: Config, now: int, at: int, j: Job, e: Event)
    requires j.stage.Busy? && Proper(cfg, Repair, j.stage) && now <= at && Unlocking(now, j)
    requires AnswerStep(cfg, Repair, j.stage.task, j.stage.node, j.stage.todo, e).Some?
    ensures Unlocking(at, j.(stage := AnswerStep(cfg, Repair, j.stage.task, j.stage.node, j.stage.todo, e).value))
  {
    hide RepairCall, MarkValues, LockValuesAt, IsLockChange, Accepts;
  }

  lemma StepUnlocking(cfg: Config, now: int, at: int, j: Job, e: Event, next: Job)
    requires Proper(cfg, Repair, j.stage) && Step(cfg, Repair, at, j, e) == Some(next)
    requires now <= at && Unlocking(now, j)
    ensures Unlocking(at, next)
  {
    hide TaskStep, AnswerStep, Parsed, Check, HealthOf, Overdue, BanIsOver, IsLockChange;
    match e
    case Local => if j.stage.Busy? { UnlockingTask(cfg, now, at, j); }
    case Swept =>
    case Listed(_) =>
    case Collected(_, _, _, _) =>
    case _ => UnlockingAnswer(cfg, now, at, j, e);
  }

  lemma LaterUnlocking(now: int, at: int, j: Job)
    requires Unlocking(now, j) && now <= at
    ensures Unlocking(at, j)
  {
  }

  lemma StaysUnlocking(cfg: Config, w: World, h: Happening, next: World)
    requires Orderly(cfg, w) && WorldStep(cfg, w, h) == Some(next) && Unlocking(w.now, w.repair)
    ensures Unlocking(next.now, next.repair)
  {
    hide Step, EventEffect, OutsideEffect, Tidy, Proper, Keyed, Unlocking;
    if h.what.ByJob? && h.what.kind.Repair? {
      StepUnlocking(cfg, w.now, h.at, w.repair, h.what.event, next.repair);
    } else if h.what.Died? {
      FreshUnlocking(h.at);
    } else {
      LaterUnlocking(w.now, h.at, w.repair);
    }
  }

  lemma FreshUnlocking(now: int)
    ensures Unlocking(now, FRESH_JOB)
  {
  }

  lemma {:induction false} AlwaysUnlocking(cfg: Config, ws: seq<World>, hs: seq<Happening>, i: nat)
    requires Behaviour(cfg, ws, hs) && i <= |hs|
    ensures Unlocking(ws[i].now, ws[i].repair)
  {
    hide WorldStep, Orderly, Unlocking;
    if i > 0 {
      AlwaysUnlocking(cfg, ws, hs, i - 1);
      AlwaysOrderly(cfg, ws, hs, i - 1);
      assert HappensAt(cfg, ws, hs, i - 1);
      StaysUnlocking(cfg, ws[i - 1], hs[i - 1], ws[i]);
    } else {
      FreshUnlocking(ws[0].now);
    }
  }

  /** RepairRun asks for a live lock before it locks a node, so every entry it makes is a new one. */
  lemma {:induction false} RepairRenewsNothing(cfg: Config, ws: seq<World>, hs: seq<Happening>, i: nat)
    requires Behaviour(cfg, ws, hs) && i <= |hs|
    ensures EntriesOf(Repair, true, ws, i) == {}
  {
    hide WorldStep, RunStage;
    if i > 0 {
      RepairRenewsNothing(cfg, ws, hs, i - 1);
      AlwaysUnlocking(cfg, ws, hs, i - 1);
      ClockRuns(cfg, ws, hs, i - 1, i);
      LaterUnlocking(ws[i - 1].now, ws[i].now, ws[i - 1].repair);
    }
  }

  /** The limit of the repair job. */
  lemma RepairLocksWithinLimit(cfg: Config, ws: seq<World>, hs: seq<Happening>, i: nat)
    requires cfg.DistinctAnnotations() && cfg.reading.Remaining? && cfg.repair.limit > 0
    requires Behaviour(cfg, ws, hs) && i <= |hs| && |LiveLocks(cfg, Repair, ws[0])| <= cfg.repair.limit
    requires AllAssumed(cfg, Repair, ws, hs) && (cfg.repair.limit == 1 || AllKept(cfg, Repair, ws, hs))
    ensures |LiveLocks(cfg, Repair, ws[i])| <= cfg.repair.limit
  {
    hide HappensAt, LiveLocks, AllAssumed, AllKept, EntriesOf, Starts, Needed;
    forall k | 0 <= k < |hs| ensures Harmless(cfg, Repair, EntriesOf(Repair, true, ws, k), ws[k], hs[k]) {
      RepairRenewsNothing(cfg, ws, hs, k);
    }
    LiveLocksWithinLimit(cfg, Repair, ws, hs, i);
  }

  // ---- no healthy node matters to the update job ----

  lemma GivesNothing(cfg: Config, w: World, h: Happening)
    requires Proper(cfg, Update, w.update.stage)
    ensures Kept(cfg, Update, w, h)
  {
    hide IsLockChange, LiveLocks, HealthOf;
  }

  /** The limit of the update job. */
  lemma UpdateLocksWithinLimit(cfg: Config, ws: seq<World>, hs: seq<Happening>, i: nat)
    requires cfg.DistinctAnnotations() && cfg.reading.Remaining? && cfg.update.limit > 0
    requires Behaviour(cfg, ws, hs) && i <= |hs| && |LiveLocks(cfg, Update, ws[0])| <= cfg.update.limit
    requires AllAssumed(cfg, Update, ws, hs) && (cfg.update.limit == 1 || AllRenewalsKept(cfg, Update, ws, hs))
    ensures |LiveLocks(cfg, Update, ws[i])| <= cfg.update.limit
  {
    hide HappensAt, LiveLocks, AllAssumed, AllRenewalsKept, Starts, Kept, Tidy, Proper, Keyed;
    forall k | 0 <= k < |hs| ensures Kept(cfg, Update, ws[k], hs[k]) {
      AlwaysOrderly(cfg, ws, hs, k);
      GivesNothing(cfg, ws[k], hs[k]);
    }
    LiveLocksWithinLimit(cfg, Update, ws, hs, i);
  }

  // ---- times ----

  /** At the instant, no entry that the job has made since then can have expired. */
  predicate InTime(cfg: Config, kind: Kind, since: int, at: int) {
    && !Expired(Deadline(cfg.Job(kind).lockDuration, LOCK_LIFE, since), at)
    && !Expired(Deadline(cfg.Job(kind).lockDurationError, LOCK_LIFE, since), at)
  }

  /** When the run at ws[i] has locked its first node, if it has. */
  function FirstEntry(kind: Kind, ws: seq<World>, i: nat): Option<int>
    requires i < |ws|
  {
    if i == 0 || !RunStage(ws[i - 1].JobOf(kind).stage) then None
    else if FirstEntry(kind, ws, i - 1).Some? then FirstEntry(kind, ws, i - 1)
    else if Enters(ws[i - 1].JobOf(kind).stage, ws[i].JobOf(kind).stage) then Some(ws[i].now)
    else None
  }

  /** A sweep in a run that locked its first node at `first`, if any, comes in time. */
  predicate Timely(cfg: Config, kind: Kind, first: Option<int>, w: World, h: Happening) {
    RunsOwn(kind, w, h) && h.what.event.Swept? && first.Some? ==> InTime(cfg, kind, first.value, h.at)
  }

  ghost predicate AllTimely(cfg: Config, kind: Kind, ws: seq<World>, hs: seq<Happening>)
    requires |ws| == |hs| + 1
  {
    forall k :: 0 <= k < |hs| ==> Timely(cfg, kind, FirstEntry(kind, ws, k), ws[k], hs[k])
  }

  /** Not to be swept in time. */
  ghost predicate Lasts(cfg: Config, kind: Kind, since: int, expiry: Expiry) {
    forall at :: InTime(cfg, kind, since, at) ==> !Expired(expiry, at)
  }

  /** The entries of the run last, as long as they are in the cache. */
  ghost predicate EntriesLast(cfg: Config, kind: Kind, first: Option<int>, made: set<string>, locks: Cache<bool>) {
    forall name <- made :: first.Some? && (name in locks ==> Lasts(cfg, kind, first.value, locks[name].expiry))
  }

  predicate LocksFor(cfg: Config, kind: Kind, stage: Stage) {
    stage.Busy? && stage.task.Locking? ==>
      stage.task.dur in {cfg.Job(kind).lockDuration, cfg.Job(kind).lockDurationError}
  }

  lemma TaskLocksFor(cfg: Config, kind: Kind, at: int, j: Job)
    requires j.stage.Busy? && OwnPlace(kind, j.stage)
    requires TaskStep(cfg, kind, at, j.locks, j.stage.task, j.stage.node, j.stage.todo).Some?
    ensures LocksFor(cfg, kind, TaskStep(cfg, kind, at, j.locks, j.stage.task, j.stage.node, j.stage.todo).value.stage)
  {
    hide Parsed, RepairCall, Added, Live;
  }

  lemma AnswerLocksFor(cfg: Config, kind: Kind, stage: Stage, e: Event)
    requires stage.Busy? && OwnPlace(kind, stage)
    requires AnswerStep(cfg, kind, stage.task, stage.node, stage.todo, e).Some?
    ensures LocksFor(cfg, kind, AnswerStep(cfg, kind, stage.task, stage.node, stage.todo, e).value)
  {
    hide RepairCall, MarkValues, LockValuesAt, Accepts;
  }

  lemma StepLocksFor(cfg: Config, kind: Kind, at: int, j: Job, e: Event, next: Job)
    requires Proper(cfg, kind, j.stage) && LocksFor(cfg, kind, j.stage) && Step(cfg, kind, at, j, e) == Some(next)
    ensures LocksFor(cfg, kind, next.stage)
  {
    hide TaskStep, AnswerStep, Parsed, Check, HealthOf, Overdue, BanIsOver, IsLockChange;
    match e
    case Local => if j.stage.Busy? { TaskLocksFor(cfg, kind, at, j); }
    case Swept =>
    case Listed(_) =>
    case Collected(_, _, _, _) =>
    case _ => AnswerLocksFor(cfg, kind, j.stage, e);
  }

  /** An entry made later lasts longer. */
  lemma DeadlineLasts(cfg: Config, kind: Kind, since: int, at: int, dur: int)
    requires since <= at && dur in {cfg.Job(kind).lockDuration, cfg.Job(kind).lockDurationError}
    ensures Lasts(cfg, kind, since, Deadline(dur, LOCK_LIFE, at))
  {
  }

  lemma EntryLasts(cfg: Config, kind: Kind, first: int, made: set<string>, at: int, j: Job, next: Job, name: string)
    requires EntriesLast(cfg, kind, Some(first), made, j.locks) && OnlyLocks(j, next, at) && LocksFor(cfg, kind, j.stage)
    requires name in next.locks && first <= at
    requires name in made || (j.stage.Busy? && j.stage.task.Locking? && name == j.stage.node.name && !Live(j.locks, name, at)
                              && next.locks[name].expiry == Deadline(j.stage.task.dur, LOCK_LIFE, at))
    ensures Lasts(cfg, kind, first, next.locks[name].expiry)
  {
    hide Lasts, Deadline;
    if !(name in j.locks && next.locks[name] == j.locks[name] && name in made) {
      DeadlineLasts(cfg, kind, first, at, j.stage.task.dur);
    }
  }

  /** A new entry has the duration from now. */
  lemma NewEntryIs(cfg: Config, kind: Kind, at: int, j: Job, e: Event, next: Job)
    requires Step(cfg, kind, at, j, e) == Some(next) && Enters(j.stage, next.stage)
    requires !Live(j.locks, j.stage.node.name, at)
    ensures j.stage.node.name in next.locks
    ensures next.locks[j.stage.node.name].expiry == Deadline(j.stage.task.dur, LOCK_LIFE, at)
  {
    hide Deadline, RepairCall, Accepts, MarkValues, LockValuesAt;
    assert e.Local?;
  }

  ghost predicate Lasting(cfg: Config, kind: Kind, w: World, first: Option<int>, made: set<string>) {
    && LocksFor(cfg, kind, w.JobOf(kind).stage)
    && (first.Some? ==> first.value <= w.now)
    && EntriesLast(cfg, kind, first, made, w.JobOf(kind).locks)
  }

  function NextFirst(kind: Kind, w: World, next: World, first: Option<int>): Option<int> {
    if first.Some? then first
    else if Enters(w.JobOf(kind).stage, next.JobOf(kind).stage) then Some(next.now) else None
  }

  lemma RunStepLasts(cfg: Config, kind: Kind, w: World, h: Happening, next: World, first: Option<int>, made: set<string>)
    requires Orderly(cfg, w) && WorldStep(cfg, w, h) == Some(next) && RunStage(w.JobOf(kind).stage)
    requires Lasting(cfg, kind, w, first, made) && h.what.ByJob? && h.what.kind == kind
    ensures Lasting(cfg, kind, next, NextFirst(kind, w, next, first), made + NewEntry(kind, false, w, next))
  {
    hide Step, EventEffect, Tidy, Keyed, Proper, Lasts, LocksFor, OnlyLocks, KeepsItems, KeepsAtHand, RunStage, Removes;
    var j, j1, e := w.JobOf(kind), next.JobOf(kind), h.what.event;
    var later, entered := NextFirst(kind, w, next, first), made + NewEntry(kind, false, w, next);
    StepLocksFor(cfg, kind, h.at, j, e, j1);
    ItemsStay(cfg, kind, h.at, j, e, j1);
    if NewEntry(kind, false, w, next) != {} {
      NewEntryIs(cfg, kind, h.at, j, e, j1);
    }
    forall name | name in entered && name in j1.locks ensures later.Some? && Lasts(cfg, kind, later.value, j1.locks[name].expiry) {
      EntryLasts(cfg, kind, later.value, made, h.at, j, j1, name);
    }
  }

  lemma StepLasts(cfg: Config, kind: Kind, w: World, h: Happening, next: World, first: Option<int>, made: set<string>)
    requires Orderly(cfg, w) && WorldStep(cfg, w, h) == Some(next) && Lasting(cfg, kind, w, first, made)
    ensures if RunStage(w.JobOf(kind).stage)
            then Lasting(cfg, kind, next, NextFirst(kind, w, next, first), made + NewEntry(kind, false, w, next))
            else Lasting(cfg, kind, next, None, {})
  {
    hide Step, EventEffect, OutsideEffect, Tidy, Keyed, Proper, Lasts, RunStage;
    if h.what.ByJob? && h.what.kind == kind {
      if RunStage(w.JobOf(kind).stage) {
        RunStepLasts(cfg, kind, w, h, next, first, made);
      } else {
        StepLocksFor(cfg, kind, h.at, w.JobOf(kind), h.what.event, next.JobOf(kind));
      }
    }
  }

  lemma {:induction false} AlwaysLasting(cfg: Config, kind: Kind, ws: seq<World>, hs: seq<Happening>, i: nat)
    requires Behaviour(cfg, ws, hs) && i <= |hs|
    ensures Lasting(cfg, kind, ws[i], FirstEntry(kind, ws, i), EntriesOf(kind, false, ws, i))
  {
    hide WorldStep, Orderly, Lasting, RunStage, Enters, NewEntry;
    if i > 0 {
      AlwaysLasting(cfg, kind, ws, hs, i - 1);
      AlwaysOrderly(cfg, ws, hs, i - 1);
      assert HappensAt(cfg, ws, hs, i - 1);
      StepLasts(cfg, kind, ws[i - 1], hs[i - 1], ws[i], FirstEntry(kind, ws, i - 1), EntriesOf(kind, false, ws, i - 1));
    } else {
      FirstLasting(cfg, kind, ws[0]);
    }
  }

  lemma FirstLasting(cfg: Config, kind: Kind, w: World)
    requires Starts(w)
    ensures Lasting(cfg, kind, w, None, {})
  {
  }

  /** No sweep takes out an entry that a run has made, if all come within a lock duration after the first entry. */
  lemma TimelyIsHarmless(cfg: Config, kind: Kind, ws: seq<World>, hs: seq<Happening>, k: nat)
    requires Behaviour(cfg, ws, hs) && k < |hs| && Timely(cfg, kind, FirstEntry(kind, ws, k), ws[k], hs[k])
    ensures RunsOwn(kind, ws[k], hs[k]) && hs[k].what.event.Swept? ==>
              ExpiredNames(ws[k].JobOf(kind).locks, hs[k].at) !! EntriesOf(kind, false, ws, k)
  {
    hide HappensAt, InTime, FirstEntry, EntriesOf, RunStage, LocksFor;
    AlwaysLasting(cfg, kind, ws, hs, k);
  }

  /** So sweeps in time are harmless, for either job. */
  lemma TimelyIsAssumed(cfg: Config, kind: Kind, ws: seq<World>, hs: seq<Happening>)
    requires Behaviour(cfg, ws, hs) && AllTimely(cfg, kind, ws, hs)
    requires forall k :: 0 <= k < |hs| ==> Assumed(cfg, kind, ws[k], hs[k])
    ensures AllAssumed(cfg, kind, ws, hs)
  {
    hide HappensAt, Assumed, EntriesOf, FirstEntry, Starts, Needed, LiveLocks, RunStage, Timely;
    forall k | 0 <= k < |hs| ensures Harmless(cfg, kind, EntriesOf(kind, false, ws, k), ws[k], hs[k]) {
      TimelyIsHarmless(cfg, kind, ws, hs, k);
    }
  }

  /** A run that is over, or not swept any more, within a lock duration after its first entry keeps the limit. */
  lemma TimelySweepsKeepLimit(cfg: Config, ws: seq<World>, hs: seq<Happening>, i: nat)
    requires cfg.DistinctAnnotations() && cfg.reading.Remaining? && cfg.repair.limit > 0
    requires Behaviour(cfg, ws, hs) && i <= |hs| && |LiveLocks(cfg, Repair, ws[0])| <= cfg.repair.limit
    requires forall k :: 0 <= k < |hs| ==> Assumed(cfg, Repair, ws[k], hs[k])
    requires AllTimely(cfg, Repair, ws, hs) && (cfg.repair.limit == 1 || AllKept(cfg, Repair, ws, hs))
    ensures |LiveLocks(cfg, Repair, ws[i])| <= cfg.repair.limit
  {
    hide HappensAt, Assumed, AllKept, AllAssumed, Starts, LiveLocks, AllTimely;
    TimelyIsAssumed(cfg, Repair, ws, hs);
    RepairLocksWithinLimit(cfg, ws, hs, i);
  }
}

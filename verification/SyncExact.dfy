/** syncNodeLockCache rebuilds the lock cache exactly from the annotations, and takes off exactly the outdated ones. */
module SyncExact {
  import opened Options
  import opened JsonPatch
  import opened Nodes
  import opened Settings
  import opened TimedCaches
  import opened Jobs
  import Budget

  // ---- what the annotations say, each node looked at when its turn came ----

  function Verdict(cfg: Config, kind: Kind, node: NodeObject, at: int): LockCheck {
    Check(cfg, node, cfg.Job(kind).lockAnnotation, at)
  }

  predicate Positive(c: LockCheck) {
    c.Duration? && c.ns > 0
  }

  /** Names of the first |times| nodes that had a positive duration. */
  function Locked(cfg: Config, kind: Kind, view: seq<NodeObject>, times: seq<int>): set<string>
    requires |times| <= |view|
  {
    set k | 0 <= k < |times| && Positive(Verdict(cfg, kind, view[k], times[k])) :: view[k].name
  }

  /** Names of the first |times| nodes whose annotation is to go, in order. */
  function ToDrop(cfg: Config, kind: Kind, view: seq<NodeObject>, times: seq<int>): seq<string>
    requires |times| <= |view|
  {
    if times == [] then []
    else
      var k := |times| - 1;
      ToDrop(cfg, kind, view, times[..k])
      + if Outdated(Verdict(cfg, kind, view[k], times[k])) then [view[k].name] else []
  }

  // ---- what happened ----

  /** Names taken out of the cache because they had expired, by the janitor or by the final DeleteExpired. */
  function SweptNames(js: seq<Job>, log: seq<Timed>, a: nat, b: nat): set<string>
    requires a <= b <= |log| < |js|
  {
    if a == b then {}
    else SweptNames(js, log, a, b - 1) + SweptAt(js[b - 1], log[b - 1])
  }

  function SweptAt(j: Job, t: Timed): set<string> {
    if t.event.Swept? || (t.event.Local? && j.stage == Head(Sync, [])) then ExpiredNames(j.locks, t.at) else {}
  }

  /** Names in the patches, in order. */
  function Patched(log: seq<Timed>, a: nat, b: nat): seq<string>
    requires a <= b <= |log|
  {
    if a == b then [] else Patched(log, a, b - 1) + PatchedAt(log[b - 1].event)
  }

  function PatchedAt(e: Event): seq<string> {
    if e.Patch? then [e.name] else []
  }

  /** In syncNodeLockCache, or just behind it. */
  predicate InSync(stage: Stage) {
    || stage == Rest(Synced)
    || (stage.Head? && stage.loop.Sync?)
    || (stage.Busy? && (stage.task.Restoring? || stage.task.Dropping?))
  }

  /** Node k was looked at, at times[k], when it was at the head of the list. */
  ghost predicate LookedAt(js: seq<Job>, log: seq<Timed>, view: seq<NodeObject>, times: seq<int>, a: nat, b: nat)
    requires a <= b <= |log| < |js| && |times| <= |view|
  {
    forall k :: 0 <= k < |times| ==> LookedAtOne(js, log, view[k..], times[k], a, b)
  }

  ghost predicate LookedAtOne(js: seq<Job>, log: seq<Timed>, todo: seq<NodeObject>, time: int, a: nat, b: nat)
    requires a <= b <= |log| < |js|
  {
    exists i :: a <= i < b && js[i].stage == Head(Sync, todo) && log[i] == Timed(time, Local)
  }

  // ---- the invariant ----

  predicate Finite(locks: Cache<bool>) {
    forall name <- locks :: locks[name].expiry.At?
  }

  /** The cache holds what was locked among the first |times| nodes, as far as it was not swept. */
  predicate Holds(cfg: Config, kind: Kind, view: seq<NodeObject>, times: seq<int>, locks: Cache<bool>,
                  swept: set<string>, dropped: seq<string>)
    requires |times| <= |view|
  {
    && locks.Keys == Locked(cfg, kind, view, times) - swept
    && swept <= Locked(cfg, kind, view, times)
    && dropped == ToDrop(cfg, kind, view, times)
    && Finite(locks)
  }

  predicate SyncState(cfg: Config, kind: Kind, view: seq<NodeObject>, times: seq<int>, j: Job,
                      swept: set<string>, dropped: seq<string>)
    requires |times| <= |view|
  {
    match j.stage
    case Rest(place) => place.Synced? && |times| == |view| && Holds(cfg, kind, view, times, j.locks, swept, dropped)
    case Head(loop, todo) =>
      loop.Sync? && todo == view[|times|..] && Holds(cfg, kind, view, times, j.locks, swept, dropped)
    case Busy(task, node, todo) =>
      && times != []
      && var k := |times| - 1;
      && node == view[k] && todo == view[k + 1..]
      && Holds(cfg, kind, view, times[..k], j.locks, swept, dropped)
      && var c := Verdict(cfg, kind, node, times[k]);
      match task {
        case Restoring(dur) => c == Duration(dur) && dur > 0
        case Dropping => Outdated(c)
        case _ => false
      }
  }

  // ---- one step ----

  lemma NextName(cfg: Config, kind: Kind, view: seq<NodeObject>, times: seq<int>, at: int)
    requires DistinctNames(view) && |times| < |view|
    ensures var all := times + [at]; var k := |times|;
            && all[..k] == times
            && Locked(cfg, kind, view, all) == Locked(cfg, kind, view, times)
               + (if Positive(Verdict(cfg, kind, view[k], at)) then {view[k].name} else {})
            && view[k].name !in Locked(cfg, kind, view, times)
            && ToDrop(cfg, kind, view, all) == ToDrop(cfg, kind, view, times)
               + (if Outdated(Verdict(cfg, kind, view[k], at)) then [view[k].name] else [])
  {
    hide Verdict, Positive, Outdated;
    var all, k := times + [at], |times|;
    assert all[..k] == times;
    forall name | name in Locked(cfg, kind, view, all)
      ensures name in Locked(cfg, kind, view, times)
              || (Positive(Verdict(cfg, kind, view[k], at)) && name == view[k].name) {
      var i :| 0 <= i < |all| && Positive(Verdict(cfg, kind, view[i], all[i])) && view[i].name == name;
      if i < k {
        assert all[i] == times[i];
      }
    }
    forall name | name in Locked(cfg, kind, view, times) ensures name in Locked(cfg, kind, view, all) {
      var i :| 0 <= i < |times| && Positive(Verdict(cfg, kind, view[i], times[i])) && view[i].name == name;
      assert all[i] == times[i];
    }
    if Positive(Verdict(cfg, kind, view[k], at)) {
      assert all[k] == at;
    }
  }

  /** The look at the next node. */
  lemma HeadStep(cfg: Config, kind: Kind, view: seq<NodeObject>, times: seq<int>, j: Job, now: int,
                 swept: set<string>, dropped: seq<string>)
    requires DistinctNames(view) && |times| < |view| && j.stage == Head(Sync, view[|times|..])
    requires Holds(cfg, kind, view, times, j.locks, swept, dropped)
    ensures SyncState(cfg, kind, view, times + [now], LocalStep(cfg, kind, now, j).value, swept, dropped)
  {
    hide Locked, ToDrop, Finite;
    NextName(cfg, kind, view, times, now);
    var k := |times|;
    assert view[k..][0] == view[k] && view[k..][1..] == view[k + 1..];
    assert j.locks - {view[k].name} == j.locks;
  }

  lemma RestoreStep(cfg: Config, kind: Kind, view: seq<NodeObject>, times: seq<int>, j: Job, now: int,
                    swept: set<string>, dropped: seq<string>)
    requires DistinctNames(view) && |times| <= |view| && SyncState(cfg, kind, view, times, j, swept, dropped)
    requires j.stage.Busy? && j.stage.task.Restoring?
    ensures SyncState(cfg, kind, view, times, LocalStep(cfg, kind, now, j).value, swept, dropped)
  {
    hide Locked, ToDrop;
    var k := |times| - 1;
    NextName(cfg, kind, view, times[..k], times[k]);
    assert times[..k] + [times[k]] == times;
  }

  lemma DropStep(cfg: Config, kind: Kind, view: seq<NodeObject>, times: seq<int>, j: Job,
                 swept: set<string>, dropped: seq<string>)
    requires DistinctNames(view) && |times| <= |view| && SyncState(cfg, kind, view, times, j, swept, dropped)
    requires j.stage.Busy? && j.stage.task.Dropping?
    ensures SyncState(cfg, kind, view, times, j.(stage := Head(Sync, j.stage.todo)), swept, dropped + [j.stage.node.name])
  {
    hide Locked, ToDrop, Finite;
    var k := |times| - 1;
    NextName(cfg, kind, view, times[..k], times[k]);
    assert times[..k] + [times[k]] == times;
  }

  lemma SweepStep(cfg: Config, kind: Kind, view: seq<NodeObject>, times: seq<int>, j: Job, stage: Stage, now: int,
                  swept: set<string>, dropped: seq<string>)
    requires |times| <= |view| && SyncState(cfg, kind, view, times, j, swept, dropped)
    requires stage == j.stage || (j.stage == Head(Sync, []) && stage == Rest(Synced))
    ensures SyncState(cfg, kind, view, times, Job(Sweep(j.locks, now), stage), swept + ExpiredNames(j.locks, now), dropped)
  {
    hide Locked, ToDrop, Verdict;
    var gone := ExpiredNames(j.locks, now);
    assert Sweep(j.locks, now).Keys == j.locks.Keys - gone;
  }

  lemma SyncStep(cfg: Config, kind: Kind, view: seq<NodeObject>, times: seq<int>, j: Job, t: Timed, next: Job,
                 swept: set<string>, dropped: seq<string>)
    requires DistinctNames(view) && |times| <= |view| && SyncState(cfg, kind, view, times, j, swept, dropped)
    requires InSync(j.stage) && Step(cfg, kind, t.at, j, t.event) == Some(next) && InSync(next.stage)
    ensures var looks := t.event.Local? && j.stage.Head? && j.stage.todo != [];
            && (looks ==> |times| < |view| && j.stage.todo == view[|times|..])
            && SyncState(cfg, kind, view, if looks then times + [t.at] else times, next,
                         swept + SweptAt(j, t), dropped + PatchedAt(t.event))
  {
    hide Holds, LocalStep, AnswerStep, ListedStep, Verdict, Sweep, ExpiredNames;
    assert swept + {} == swept && dropped + [] == dropped;
    match t.event
    case Local => LocalSync(cfg, kind, view, times, j, t, next, swept, dropped);
    case Swept =>
      SweepStep(cfg, kind, view, times, j, j.stage, t.at, swept, dropped);
      SweptJob(cfg, kind, j, t.at);
    case _ =>
      OnlyDrops(cfg, kind, j, t.at, t.event, next);
      DropStep(cfg, kind, view, times, j, swept, dropped);
  }

  lemma SweptJob(cfg: Config, kind: Kind, j: Job, now: int)
    ensures Step(cfg, kind, now, j, Swept) == Some(Job(Sweep(j.locks, now), j.stage))
  {
  }

  lemma OnlyDrops(cfg: Config, kind: Kind, j: Job, now: int, e: Event, next: Job)
    requires InSync(j.stage) && Step(cfg, kind, now, j, e) == Some(next) && InSync(next.stage)
    requires !e.Local? && !e.Swept?
    ensures e.Patch? && e.change == Drop({cfg.Job(kind).lockAnnotation})
    ensures j.stage.Busy? && j.stage.task.Dropping? && e.name == j.stage.node.name
    ensures next == j.(stage := Head(Sync, j.stage.todo))
  {
    hide RepairCall, MarkValues;
  }

  lemma LocalSync(cfg: Config, kind: Kind, view: seq<NodeObject>, times: seq<int>, j: Job, t: Timed, next: Job,
                  swept: set<string>, dropped: seq<string>)
    requires DistinctNames(view) && |times| <= |view| && SyncState(cfg, kind, view, times, j, swept, dropped)
    requires InSync(j.stage) && t.event == Local && LocalStep(cfg, kind, t.at, j) == Some(next) && InSync(next.stage)
    ensures var looks := j.stage.Head? && j.stage.todo != [];
            && (looks ==> |times| < |view| && j.stage.todo == view[|times|..])
            && SyncState(cfg, kind, view, if looks then times + [t.at] else times, next, swept + SweptAt(j, t), dropped)
  {
    hide Holds, LoopStep, TaskStep, Verdict, Sweep, ExpiredNames;
    assert swept + {} == swept;
    if j.stage.Head? && j.stage.todo != [] {
      HeadStep(cfg, kind, view, times, j, t.at, swept, dropped);
    } else if j.stage.Head? {
      SweepStep(cfg, kind, view, times, j, Rest(Synced), t.at, swept, dropped);
    } else if j.stage.Busy? && j.stage.task.Restoring? {
      RestoreStep(cfg, kind, view, times, j, t.at, swept, dropped);
    } else {
      NoOtherStep(cfg, kind, t.at, j, next);
      assert false;
    }
  }

  lemma NoOtherStep(cfg: Config, kind: Kind, now: int, j: Job, next: Job)
    requires j.stage == Rest(Synced) || (j.stage.Busy? && j.stage.task.Dropping?)
    requires LocalStep(cfg, kind, now, j) == Some(next)
    ensures !InSync(next.stage)
  {
  }

  // ---- the whole rebuilding ----

  lemma {:induction false} SyncUpTo(cfg: Config, kind: Kind, js: seq<Job>, log: seq<Timed>, a: nat, b: nat,
                                    view: seq<NodeObject>) returns (times: seq<int>)
    requires Trail(cfg, kind, js, log) && a <= b <= |log| && DistinctNames(view)
    requires js[a] == Job(map[], Head(Sync, view))
    requires forall i :: a <= i <= b ==> InSync(js[i].stage)
    ensures |times| <= |view| && LookedAt(js, log, view, times, a, b)
    ensures SyncState(cfg, kind, view, times, js[b], SweptNames(js, log, a, b), Patched(log, a, b))
  {
    hide Step, SyncState, SweptAt, PatchedAt;
    if a == b {
      times := [];
      Begins(cfg, kind, view);
    } else {
      var before := SyncUpTo(cfg, kind, js, log, a, b - 1, view);
      assert StepAt(cfg, kind, js, log, b - 1);
      SyncStep(cfg, kind, view, before, js[b - 1], log[b - 1], js[b], SweptNames(js, log, a, b - 1), Patched(log, a, b - 1));
      if log[b - 1].event.Local? && js[b - 1].stage.Head? && js[b - 1].stage.todo != [] {
        times := before + [log[b - 1].at];
        LookedAtMore(js, log, view, before, a, b);
      } else {
        times := before;
        LookedAtLater(js, log, view, before, a, b);
      }
    }
  }

  lemma Begins(cfg: Config, kind: Kind, view: seq<NodeObject>)
    ensures SyncState(cfg, kind, view, [], Job(map[], Head(Sync, view)), {}, [])
  {
    assert view[0..] == view;
  }

  lemma LookedAtLater(js: seq<Job>, log: seq<Timed>, view: seq<NodeObject>, times: seq<int>, a: nat, b: nat)
    requires a < b <= |log| < |js| && |times| <= |view| && LookedAt(js, log, view, times, a, b - 1)
    ensures LookedAt(js, log, view, times, a, b)
  {
    forall k | 0 <= k < |times| ensures LookedAtOne(js, log, view[k..], times[k], a, b) {
      assert LookedAtOne(js, log, view[k..], times[k], a, b - 1);
    }
  }

  lemma LookedAtMore(js: seq<Job>, log: seq<Timed>, view: seq<NodeObject>, before: seq<int>, a: nat, b: nat)
    requires a < b <= |log| < |js| && |before| < |view| && LookedAt(js, log, view, before, a, b - 1)
    requires js[b - 1].stage == Head(Sync, view[|before|..]) && log[b - 1].event.Local?
    ensures LookedAt(js, log, view, before + [log[b - 1].at], a, b)
  {
    hide LookedAtOne;
    LookedAtLater(js, log, view, before, a, b);
    var times := before + [log[b - 1].at];
    forall k | 0 <= k < |times| ensures LookedAtOne(js, log, view[k..], times[k], a, b) {
      if k < |before| {
        assert LookedAtOne(js, log, view[k..], before[k], a, b);
      } else {
        LookedAtLast(js, log, view[k..], a, b);
      }
    }
  }

  lemma LookedAtLast(js: seq<Job>, log: seq<Timed>, todo: seq<NodeObject>, a: nat, b: nat)
    requires a < b <= |log| < |js| && js[b - 1].stage == Head(Sync, todo) && log[b - 1].event.Local?
    ensures LookedAtOne(js, log, todo, log[b - 1].at, a, b)
  {
    assert log[b - 1] == Timed(log[b - 1].at, Local);
  }

  // ---- staying inside ----

  /** From syncNodeLockCache the job goes on to its run, and back only through Idle. */
  lemma SyncOrRun(cfg: Config, kind: Kind, now: int, j: Job, e: Event, next: Job)
    requires Step(cfg, kind, now, j, e) == Some(next)
    ensures InSync(j.stage) ==> InSync(next.stage) || next.stage == Rest(Idle) || Budget.RunStage(next.stage)
    ensures Budget.RunStage(j.stage) ==> next.stage == Rest(Idle) || Budget.RunStage(next.stage)
  {
    hide TaskStep, AnswerStep, Parsed, Check, HealthOf, Overdue;
    if Budget.RunStage(j.stage) {
      Budget.StepProceeds(cfg, kind, now, j, e, next);
    } else if InSync(j.stage) && j.stage.Busy? {
      BusySync(cfg, kind, now, j, e, next);
    }
  }

  lemma BusySync(cfg: Config, kind: Kind, now: int, j: Job, e: Event, next: Job)
    requires Step(cfg, kind, now, j, e) == Some(next) && InSync(j.stage) && j.stage.Busy?
    ensures InSync(next.stage)
  {
    hide RepairCall, MarkValues, LockValues, Added;
  }

  lemma {:induction false} RunGoesOn(cfg: Config, kind: Kind, js: seq<Job>, log: seq<Timed>, a: nat, b: nat)
    requires Trail(cfg, kind, js, log) && a <= b <= |log|
    requires InSync(js[a].stage) || Budget.RunStage(js[a].stage)
    requires forall i :: a <= i <= b ==> js[i].stage != Rest(Idle)
    ensures InSync(js[b].stage) || Budget.RunStage(js[b].stage)
    ensures Budget.RunStage(js[a].stage) ==> Budget.RunStage(js[b].stage)
  {
    hide Step, InSync, Budget.RunStage;
    if a < b {
      RunGoesOn(cfg, kind, js, log, a, b - 1);
      assert StepAt(cfg, kind, js, log, b - 1);
      SyncOrRun(cfg, kind, log[b - 1].at, js[b - 1], log[b - 1].event, js[b]);
    }
  }

  lemma AllInSync(cfg: Config, kind: Kind, js: seq<Job>, log: seq<Timed>, a: nat, b: nat)
    requires Trail(cfg, kind, js, log) && a <= b <= |log|
    requires InSync(js[a].stage) && js[b].stage == Rest(Synced)
    requires forall i :: a <= i <= b ==> js[i].stage != Rest(Idle)
    ensures forall i :: a <= i <= b ==> InSync(js[i].stage)
  {
    hide Step, StepAt;
    forall i | a <= i <= b ensures InSync(js[i].stage) {
      RunGoesOn(cfg, kind, js, log, a, i);
      RunGoesOn(cfg, kind, js, log, i, b);
    }
  }

  // ---- the theorem ----

  /** Between a and b the cache was rebuilt: it holds exactly the listed nodes that had a positive duration when they
      were looked at, without those swept since; all its entries expire; and the removal of the annotation was attempted
      exactly for the nodes with an outdated one, in the order of the list. */
  ghost predicate Rebuilt(cfg: Config, kind: Kind, js: seq<Job>, log: seq<Timed>, a: nat, b: nat, view: seq<NodeObject>)
    requires a <= b <= |log| < |js|
  {
    && Finite(js[b].locks)
    && exists times | |times| == |view| ::
         && LookedAt(js, log, view, times, a, b)
         && js[b].locks.Keys == Locked(cfg, kind, view, times) - SweptNames(js, log, a, b)
         && Patched(log, a, b) == ToDrop(cfg, kind, view, times)
  }

  /** syncNodeLockCache starts at a with a list, whatever the cache holds by then, and is through at b. */
  lemma SyncRebuilds(cfg: Config, kind: Kind, js: seq<Job>, log: seq<Timed>, a: nat, b: nat, view: seq<NodeObject>)
    requires Trail(cfg, kind, js, log) && a < b <= |log|
    requires js[a].stage == Rest(Begin(kind)) && log[a].event == Listed(view)
    requires js[b].stage == Rest(Synced) && forall i :: a < i < b ==> js[i].stage != Rest(Idle)
    ensures Rebuilt(cfg, kind, js, log, a + 1, b, view)
  {
    hide LocalStep, LookedAt, Locked, ToDrop, Finite, SweptNames, Patched;
    assert StepAt(cfg, kind, js, log, a);
    AllInSync(cfg, kind, js, log, a + 1, b);
    var times := SyncUpTo(cfg, kind, js, log, a + 1, b, view);
  }
}

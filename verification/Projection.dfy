/** What happens to one job in a behaviour of the world is a run of that job, however the other job, the outside and the
    clock interleave: what holds of all runs of a job holds in the world. */
module Projection {
  import opened Options
  import opened Nodes
  import opened Settings
  import opened Jobs
  import opened World
  import Budget
  import SyncExact

  function EventOf(h: Happening, kind: Kind): seq<Timed> {
    if h.what.ByJob? && h.what.kind == kind then [Timed(h.at, h.what.event)] else []
  }

  /** The events of the job among the happenings from a up to b. */
  function LogOf(hs: seq<Happening>, a: nat, b: nat, kind: Kind): seq<Timed>
    requires a <= b <= |hs|
  {
    if a == b then [] else LogOf(hs, a, b - 1, kind) + EventOf(hs[b - 1], kind)
  }

  /** The states of the job in between. */
  function JobsOf(ws: seq<World>, hs: seq<Happening>, a: nat, b: nat, kind: Kind): (js: seq<Job>)
    requires a <= b <= |hs| < |ws|
    ensures js != []
  {
    if a == b then [ws[a].JobOf(kind)]
    else JobsOf(ws, hs, a, b - 1, kind)
         + if EventOf(hs[b - 1], kind) != [] then [ws[b].JobOf(kind)] else []
  }

  lemma OneStep(cfg: Config, w: World, h: Happening, next: World, kind: Kind)
    requires WorldStep(cfg, w, h) == Some(next) && !h.what.Died?
    ensures if EventOf(h, kind) != []
            then Step(cfg, kind, h.at, w.JobOf(kind), h.what.event) == Some(next.JobOf(kind))
            else next.JobOf(kind) == w.JobOf(kind)
  {
    hide Step, EventEffect, OutsideEffect;
  }

  /** As long as the process lives. */
  lemma {:induction false} JobRuns(cfg: Config, ws: seq<World>, hs: seq<Happening>, a: nat, b: nat, kind: Kind)
    requires Behaviour(cfg, ws, hs) && a <= b <= |hs|
    requires forall k :: a <= k < b ==> !hs[k].what.Died?
    ensures var js := JobsOf(ws, hs, a, b, kind);
            Trail(cfg, kind, js, LogOf(hs, a, b, kind)) && js[0] == ws[a].JobOf(kind) && js[|js| - 1] == ws[b].JobOf(kind)
  {
    hide WorldStep, Step, Starts;
    if a < b {
      JobRuns(cfg, ws, hs, a, b - 1, kind);
      assert HappensAt(cfg, ws, hs, b - 1);
      OneStep(cfg, ws[b - 1], hs[b - 1], ws[b], kind);
      var js, log := JobsOf(ws, hs, a, b - 1, kind), LogOf(hs, a, b - 1, kind);
      if EventOf(hs[b - 1], kind) != [] {
        TrailGrows(cfg, kind, js, log, EventOf(hs[b - 1], kind)[0], ws[b].JobOf(kind));
      } else {
        assert js + [] == js && log + [] == log;
      }
    }
  }

  /** In the world, too, the lock cache of a run that its guard has let in never exceeds the limit, whatever the other
      job does meanwhile. */
  lemma CacheWithinLimitInWorld(cfg: Config, ws: seq<World>, hs: seq<Happening>, a: nat, b: nat, kind: Kind)
    requires Behaviour(cfg, ws, hs) && a < b <= |hs| && cfg.Job(kind).limit > 0
    requires forall k :: a <= k < b ==> !hs[k].what.Died?
    requires ws[a].JobOf(kind).stage == Rest(Synced) && ws[b].JobOf(kind).stage != Rest(Synced)
    requires forall k :: a <= k <= b ==> ws[k].JobOf(kind).stage != Rest(Idle)
    ensures |ws[b].JobOf(kind).locks| <= cfg.Job(kind).limit
  {
    hide WorldStep, Step, Starts;
    JobRuns(cfg, ws, hs, a, b, kind);
    StagesOf(ws, hs, a, b, kind);
    var js := JobsOf(ws, hs, a, b, kind);
    Budget.CacheStaysWithinLimit(cfg, kind, js, LogOf(hs, a, b, kind), 0, |js| - 1);
  }

  /** In the world, too, a run acts on no more nodes than its budget allows; `b` may be its end. */
  lemma RunWithinBudgetInWorld(cfg: Config, ws: seq<World>, hs: seq<Happening>, a: nat, b: nat, kind: Kind)
    requires Behaviour(cfg, ws, hs) && a <= b <= |hs| && cfg.Job(kind).limit > 0
    requires forall k :: a <= k < b ==> !hs[k].what.Died?
    requires ws[a].JobOf(kind).stage == Rest(Synced)
    requires forall k :: a <= k < b ==> ws[k].JobOf(kind).stage != Rest(Idle)
    ensures var js, log := JobsOf(ws, hs, a, b, kind), LogOf(hs, a, b, kind);
            && |js| == |log| + 1
            && |Budget.Begun(js, log, 0, |log|)| <= cfg.Job(kind).limit + Budget.SweptCount(js, log, 0, |log|)
  {
    hide WorldStep, Step, Starts, Budget.Begun, Budget.SweptCount;
    JobRuns(cfg, ws, hs, a, b, kind);
    MostStages(cfg, ws, hs, a, b, kind);
    var js, log := JobsOf(ws, hs, a, b, kind), LogOf(hs, a, b, kind);
    Budget.RunStaysWithinBudget(cfg, kind, js, log, 0, |log|);
  }

  /** In the world, too, syncNodeLockCache rebuilds the cache exactly from the list it is given at a. */
  lemma SyncRebuildsInWorld(cfg: Config, ws: seq<World>, hs: seq<Happening>, a: nat, b: nat, kind: Kind,
                            view: seq<NodeObject>)
    requires Behaviour(cfg, ws, hs) && a < b <= |hs|
    requires forall k :: a <= k < b ==> !hs[k].what.Died?
    requires ws[a].JobOf(kind).stage == Rest(Begin(kind))
    requires hs[a].what.ByJob? && hs[a].what.kind == kind && hs[a].what.event == Listed(view)
    requires ws[b].JobOf(kind).stage == Rest(Synced)
    requires forall k :: a < k < b ==> ws[k].JobOf(kind).stage != Rest(Idle)
    ensures var js, log := JobsOf(ws, hs, a, b, kind), LogOf(hs, a, b, kind);
            |js| == |log| + 1 && |log| > 0 && SyncExact.Rebuilt(cfg, kind, js, log, 1, |log|, view)
  {
    hide WorldStep, Step, Starts, SyncExact.Rebuilt;
    JobRuns(cfg, ws, hs, a, b, kind);
    FirstEvent(ws, hs, a, b, kind);
    MostStages(cfg, ws, hs, a, b, kind);
    var js, log := JobsOf(ws, hs, a, b, kind), LogOf(hs, a, b, kind);
    SyncExact.SyncRebuilds(cfg, kind, js, log, 0, |log|, view);
  }

  lemma {:induction false} FirstEvent(ws: seq<World>, hs: seq<Happening>, a: nat, b: nat, kind: Kind)
    requires a < b <= |hs| < |ws| && hs[a].what.ByJob? && hs[a].what.kind == kind
    ensures LogOf(hs, a, b, kind) != [] && LogOf(hs, a, b, kind)[0] == Timed(hs[a].at, hs[a].what.event)
  {
    if a + 1 < b {
      FirstEvent(ws, hs, a, b - 1, kind);
    }
  }

  /** Between the first and the last state the job is nowhere else than in the worlds in between. */
  lemma {:induction false} MostStages(cfg: Config, ws: seq<World>, hs: seq<Happening>, a: nat, b: nat, kind: Kind)
    requires Behaviour(cfg, ws, hs) && a <= b <= |hs|
    requires forall k :: a <= k < b ==> !hs[k].what.Died?
    requires forall k :: a < k < b ==> ws[k].JobOf(kind).stage != Rest(Idle)
    ensures forall i :: 0 < i < |JobsOf(ws, hs, a, b, kind)| - 1 ==> JobsOf(ws, hs, a, b, kind)[i].stage != Rest(Idle)
  {
    hide WorldStep, Starts, Trail, HappensAt, LogOf;
    if a < b {
      MostStages(cfg, ws, hs, a, b - 1, kind);
      JobRuns(cfg, ws, hs, a, b - 1, kind);
      var before := JobsOf(ws, hs, a, b - 1, kind);
      if |before| > 1 {
        SomethingHappened(ws, hs, a, b - 1, kind);
      }
      OneMore(before, if EventOf(hs[b - 1], kind) != [] then [ws[b].JobOf(kind)] else []);
    }
  }

  lemma OneMore(before: seq<Job>, more: seq<Job>)
    requires |more| <= 1 && before != [] && (|before| > 1 ==> before[|before| - 1].stage != Rest(Idle))
    requires forall i :: 0 < i < |before| - 1 ==> before[i].stage != Rest(Idle)
    ensures forall i :: 0 < i < |before + more| - 1 ==> (before + more)[i].stage != Rest(Idle)
  {
  }

  lemma SomethingHappened(ws: seq<World>, hs: seq<Happening>, a: nat, b: nat, kind: Kind)
    requires a <= b <= |hs| < |ws| && |JobsOf(ws, hs, a, b, kind)| > 1
    ensures a < b
  {
  }

  /** The job is nowhere else than in the worlds on the way. */
  lemma {:induction false} StagesOf(ws: seq<World>, hs: seq<Happening>, a: nat, b: nat, kind: Kind)
    requires a <= b <= |hs| < |ws|
    requires forall k :: a <= k <= b ==> ws[k].JobOf(kind).stage != Rest(Idle)
    ensures forall j <- JobsOf(ws, hs, a, b, kind) :: j.stage != Rest(Idle)
  {
    if a < b {
      StagesOf(ws, hs, a, b - 1, kind);
    }
  }
}

/**
 Why LockLimit needs its hypothesis about the janitor: an entry of the lock cache is made before its lock annotation is
 stamped, so it can expire, and be swept, while the annotation is still live. Then a run that has been going on for longer
 than the lock duration repairs and locks more nodes than the limit allows. This happens for every limit, and without any
 healthy node.
 */
module LockSwept {
  import opened Options
  import opened JsonPatch
  import opened Nodes
  import opened Settings
  import opened TimedCaches
  import opened Jobs
  import opened World
  import opened Plays
  import opened Crowds
  import Ticks
  import Limit = LockLimit

  /** A cluster of broken nodes without locks; nothing is to be cleaned up. */
  ghost predicate Sickbay(cfg: Config, t: int, nodes: Cluster, broken: seq<NodeObject>) {
    && Keyed(nodes) && Current(broken, nodes) && DistinctNames(broken) && Free(cfg, Repair, broken, t)
    && forall node <- broken :: Ticks.UpForRepair(cfg, node, t)
  }

  // ---- no healthy node gives up a lock ----

  /** Nobody is healthy, and the repair job does not take anybody for it. */
  ghost predicate AllSick(w: World) {
    && (forall name <- w.nodes :: !HealthOf(w.nodes[name].conditions).ready)
    && (forall node <- Todo(w.repair.stage) :: !HealthOf(node.conditions).ready)
  }

  lemma EffectSick(cfg: Config, nodes: Cluster, e: Event, applied: bool)
    requires EventEffect(cfg, nodes, e, applied).Some?
    ensures var after := EventEffect(cfg, nodes, e, applied).value;
            after.Keys == nodes.Keys && forall name <- nodes :: after[name].conditions == nodes[name].conditions
  {
    hide Effect;
  }

  lemma TodoSick(cfg: Config, now: int, j: Job, e: Event, next: Job)
    requires Step(cfg, Repair, now, j, e) == Some(next)
    ensures forall node <- Todo(next.stage) :: node in Todo(j.stage) || (e.Listed? && node in e.view)
  {
    hide Step;
    match e
    case Listed(_) => ListedTodo(cfg, now, j, e, next);
    case Collected(_, _, _, _) => ListedTodo(cfg, now, j, e, next);
    case _ => StepMoves(cfg, Repair, now, j, e);
  }

  lemma ListedTodo(cfg: Config, now: int, j: Job, e: Event, next: Job)
    requires Step(cfg, Repair, now, j, e) == Some(next) && (e.Listed? || e.Collected?)
    ensures e.Listed? && (Todo(next.stage) == e.view || Todo(next.stage) == [])
  {
  }

  lemma StaysSick(cfg: Config, w: World, h: Happening, next: World)
    requires WorldStep(cfg, w, h) == Some(next) && AllSick(w) && Informed(w, h) && h.what.ByJob?
    ensures AllSick(next)
  {
    hide Step, EventEffect, Todo, HealthOf;
    EffectSick(cfg, w.nodes, h.what.event, h.what.applied);
    if h.what.kind.Repair? {
      TodoSick(cfg, h.at, w.repair, h.what.event, next.repair);
    }
  }

  lemma {:induction false} AlwaysSick(cfg: Config, ws: seq<World>, hs: seq<Happening>, i: nat)
    requires Behaviour(cfg, ws, hs) && Lively(ws, hs) && AllSick(ws[0]) && i <= |hs|
    ensures AllSick(ws[i])
  {
    hide WorldStep, AllSick, Informed;
    if i > 0 {
      AlwaysSick(cfg, ws, hs, i - 1);
      assert HappensAt(cfg, ws, hs, i - 1);
      StaysSick(cfg, ws[i - 1], hs[i - 1], ws[i]);
    }
  }

  lemma NothingGivenUp(cfg: Config, ws: seq<World>, hs: seq<Happening>)
    requires Behaviour(cfg, ws, hs) && Lively(ws, hs) && AllSick(ws[0])
    ensures forall k :: 0 <= k < |hs| ==> Limit.Kept(cfg, Repair, ws[k], hs[k])
  {
    hide AllSick, HappensAt, Lively, Starts, Limit.Kept;
    forall k | 0 <= k < |hs| ensures Limit.Kept(cfg, Repair, ws[k], hs[k]) {
      AlwaysSick(cfg, ws, hs, k);
      SickGivesNothing(cfg, ws[k], hs[k]);
    }
  }

  lemma SickGivesNothing(cfg: Config, w: World, h: Happening)
    requires AllSick(w)
    ensures Limit.Kept(cfg, Repair, w, h)
  {
    hide Limit.LiveLocks, HealthOf;
    if w.repair.stage.Head? && w.repair.stage.todo != [] {
      assert w.repair.stage.todo[0] in Todo(w.repair.stage);
    }
  }

  // ---- the behaviour ----

  /** The entry made at t1 expires with the lock duration. */
  lemma SweepStep(cfg: Config, dur: int, name: string, t1: int, t3: int, stage: Stage)
    requires dur > 0 && t1 + dur < t3
    ensures Step(cfg, Repair, t3, Job(WithLock(cfg, Repair, dur, map[], name, t1), stage), Swept) == Some(Job(map[], stage))
  {
    assert Sweep(WithLock(cfg, Repair, dur, map[], name, t1), t3) == map[];
  }

  lemma Later(cfg: Config, node: NodeObject, t: int, later: int)
    requires Ticks.UpForRepair(cfg, node, t) && t <= later
    ensures Ticks.UpForRepair(cfg, node, later)
  {
    hide HealthOf, RepairCall, Parsed;
  }

  /** The first node is repaired, with or without success: locked in the cache at t1, and by annotation at t2. */
  lemma FirstPhase(cfg: Config, w: World, t1: int, t2: int, nodes: Cluster, broken: seq<NodeObject>, ok: bool)
      returns (more: seq<Happening>, call: nat)
    requires Sickbay(cfg, t1, nodes, broken) && broken != [] && t1 <= t2 && cfg.repair.limit > 0
    requires w == Site(Repair, t1, nodes, map[], Rest(Idle)) && broken[0].name in nodes && nodes[broken[0].name] == broken[0]
    ensures RepairCall(cfg, broken[0]).Some? && call < |more| && more[call] == ActCall(cfg, t1, broken[0], ok)
    ensures forall k :: 0 <= k < |more| && k != call ==> Smooth(more[k])
    ensures var dur, node := LockTimeFor(cfg, ok), broken[0];
            Leads(cfg, w, more, Site(Repair, t2, nodes[node.name := Relocked(cfg, node, dur, t2)],
                                     WithLock(cfg, Repair, dur, map[], node.name, t1), Head(RepairRun, broken[1..])))
  {
    hide Leads, Step, Current, DistinctNames, BanIsOver, Ticks.UpForRepair, WithLock, LockOn, ActCall, LockTimeFor, Smooth,
         WriteCall;
    var node, rest, guard, dur := broken[0], broken[1..], 0, LockTimeFor(cfg, ok);
    assert broken == [node] + rest && node in broken;
    assert Sweep(NO_LOCKS, t1) == NO_LOCKS;
    ListSteps(cfg, t1, broken, map[]);
    Nothing(cfg, w);
    more := Do(cfg, w, [], Repair, t1, t1, nodes, map[], Rest(Idle), Listed(broken), map[], Head(Sync, broken));
    ListIsSmooth(t1, broken);
    more, guard := CleanedPhase(cfg, w, more, Repair, t1, nodes, broken, broken, map[]);
    more := Do(cfg, w, more, Repair, t1, t1, nodes, map[], Rest(Place.Cleaned), Listed(broken), map[], Head(RepairRun, broken));
    more, call := ActPhase(cfg, w, more, t1, nodes, node, rest, map[], ok);
    more := StampPhase(cfg, w, more, Repair, t1, t2, nodes, node, rest, WithLock(cfg, Repair, dur, map[], node.name, t1), dur,
                       Relocked(cfg, node, dur, t2));
  }

  lemma ListIsSmooth(t: int, view: seq<NodeObject>)
    ensures Smooth(By(Repair, t, Listed(view), false))
  {
  }

  lemma FirstWorld(cfg: Config, t: int, nodes: Cluster, broken: seq<NodeObject>)
    requires Sickbay(cfg, t, nodes, broken) && broken != []
    ensures var w := Site(Repair, t, nodes, map[], Rest(Idle)); Starts(w) && Limit.LiveLocks(cfg, Repair, w) == {} && AllSick(w)
    ensures forall node <- broken :: node.name in nodes && nodes[node.name] == node
    ensures DistinctNames(broken[1..]) && broken[0].name !in Names(broken[1..])
    ensures forall node <- broken[1..] :: node in broken && node.name != broken[0].name
  {
    hide BanIsOver, RepairCall, Parsed, HealthOf;
    FirstOfNames(broken);
    forall name | name in nodes ensures cfg.repair.lockAnnotation !in nodes[name].annotations {
      assert nodes[name] in broken;
    }
  }

  lemma EndsAbove(cfg: Config, dur: int, t1: int, t2: int, t3: int, nodes: Cluster, broken: seq<NodeObject>, end: World)
    requires cfg.DistinctAnnotations() && Sickbay(cfg, t1, nodes, broken) && broken != [] && broken[0].name in nodes
    requires t3 < Rfc3339(t2 + dur).instant && t3 < Rfc3339(t3 + cfg.repair.lockDuration).instant && end.now == t3
    requires DoneTo(cfg, RepairedAt(t3), nodes[broken[0].name := Relocked(cfg, broken[0], dur, t2)], broken[1..], end.nodes)
    ensures |Limit.LiveLocks(cfg, Repair, end)| == |broken|
  {
    hide DoneTo, Limit.LiveLocks, Limit.HasLive, Relocked, DistinctNames, Free, Ticks.UpForRepair, Keyed, Names, Current;
    var before := nodes[broken[0].name := Relocked(cfg, broken[0], dur, t2)];
    CurrentNames(broken, nodes);
    TailNames(broken);
    NamesSize(broken);
    RelockedLives(cfg, broken[0], dur, t2, t3);
    assert before.Keys == nodes.Keys && |before.Keys| == |before|;
    LivesAfter(cfg, Repair, t3, before, broken[0].name, broken[1..], end);
  }

  /** All hypotheses of LockLimit hold, except that the sweep at s need not be harmless. */
  ghost predicate OneSweep(cfg: Config, ws: seq<World>, hs: seq<Happening>, s: nat)
    requires |ws| == |hs| + 1
  {
    forall k :: 0 <= k < |hs| ==>
      && Limit.Assumed(cfg, Repair, ws[k], hs[k]) && Limit.Kept(cfg, Repair, ws[k], hs[k])
      && (k != s ==> Limit.Harmless(cfg, Repair, Limit.EntriesOf(Repair, false, ws, k), ws[k], hs[k]))
  }

  lemma SeenOneSweep(cfg: Config, ws: seq<World>, hs: seq<Happening>, s: nat)
    requires Behaviour(cfg, ws, hs) && Lively(ws, hs) && AllSick(ws[0])
    requires forall k :: 0 <= k < |hs| && k != s ==> !hs[k].what.event.Swept?
    ensures OneSweep(cfg, ws, hs, s)
  {
    hide Limit.Assumed, Limit.Harmless, Limit.Kept, AllSick, HappensAt, Starts, Lively, Limit.EntriesOf;
    NothingGivenUp(cfg, ws, hs);
    forall k | 0 <= k < |hs|
      ensures Limit.Assumed(cfg, Repair, ws[k], hs[k])
      ensures k != s ==> Limit.Harmless(cfg, Repair, Limit.EntriesOf(Repair, false, ws, k), ws[k], hs[k]) {
      LivelyAssumed(cfg, Repair, ws, hs, k);
    }
  }

  lemma AfterFirst(cfg: Config, t1: int, t3: int, nodes: Cluster, broken: seq<NodeObject>, first: NodeObject)
    requires Sickbay(cfg, t1, nodes, broken) && broken != [] && |broken| == cfg.repair.limit + 1 && t1 <= t3
    requires first.name == broken[0].name
    ensures Ready(cfg, t3, nodes[first.name := first], broken[1..], map[])
  {
    hide Ticks.UpForRepair, Limit.LiveLocks, BanIsOver;
    FirstWorld(cfg, t1, nodes, broken);
    forall other <- broken[1..] ensures Ticks.UpForRepair(cfg, other, t3) {
      Later(cfg, other, t1, t3);
    }
  }

  /** The sweep, and the other nodes. */
  lemma SweptPhase(cfg: Config, w: World, hs: seq<Happening>, dur: int, t1: int, t2: int, t3: int, nodes: Cluster,
                   broken: seq<NodeObject>) returns (more: seq<Happening>, end: World)
    requires cfg.DistinctAnnotations() && dur > 0 && t1 <= t2 <= t3 && t1 + dur < t3
    requires Sickbay(cfg, t1, nodes, broken) && |broken| == cfg.repair.limit + 1 && cfg.repair.limit > 0
    requires t3 < Rfc3339(t2 + dur).instant && t3 < Rfc3339(t3 + cfg.repair.lockDuration).instant
    requires broken[0].name in nodes && nodes[broken[0].name] == broken[0]
    requires Leads(cfg, w, hs, Site(Repair, t2, nodes[broken[0].name := Relocked(cfg, broken[0], dur, t2)],
                                    WithLock(cfg, Repair, dur, map[], broken[0].name, t1), Head(RepairRun, broken[1..])))
    ensures hs + [By(Repair, t3, Swept, false)] <= more && SmoothFrom(more, |hs| + 1)
    ensures Leads(cfg, w, more, end) && |Limit.LiveLocks(cfg, Repair, end)| == cfg.repair.limit + 1
  {
    hide Leads, Step, Limit.LiveLocks, Relocked, WithLock, Ready, DoneTo, AllActedOn, Sickbay, Smooth;
    var node, rest, after, held := broken[0], broken[1..], nodes, NO_LOCKS;
    var first := nodes[node.name := Relocked(cfg, node, dur, t2)];
    SweepStep(cfg, dur, node.name, t1, t3, Head(RepairRun, rest));
    more := Do(cfg, w, hs, Repair, t2, t3, first, WithLock(cfg, Repair, dur, map[], node.name, t1), Head(RepairRun, rest),
               Swept, map[], Head(RepairRun, rest));
    RelockName(cfg, node, dur, t2);
    AfterFirst(cfg, t1, t3, nodes, broken, Relocked(cfg, node, dur, t2));
    assert rest + [] == rest;
    more, after, held := RepairAll(cfg, w, more, t3, first, rest, [], map[]);
    end := Site(Repair, t3, after, held, Head(RepairRun, []));
    EndsAbove(cfg, dur, t1, t2, t3, nodes, broken, end);
  }

  lemma RelockName(cfg: Config, node: NodeObject, dur: int, t: int)
    ensures Relocked(cfg, node, dur, t).name == node.name
  {
  }

  /** One broken node more than the limit, and no locks. The repair of the first node succeeds if `ok`, and fails otherwise;
      it is locked in the cache at t1, its annotation is stamped at t2, and the janitor sweeps at t3, when the entry is over
      but the annotation is not. All lists are current, no other call fails, there is this one sweep, and in the end there
      is one live lock too many. */
  lemma JanitorBreaksLimit(cfg: Config, t1: int, t2: int, t3: int, nodes: Cluster, broken: seq<NodeObject>, ok: bool)
      returns (ws: seq<World>, hs: seq<Happening>, f: nat, s: nat)
    requires cfg.DistinctAnnotations() && cfg.repair.limit > 0 && LockTimeFor(cfg, ok) > 0
    requires Sickbay(cfg, t1, nodes, broken) && |broken| == cfg.repair.limit + 1
    requires t1 <= t2 <= t3 && t1 + LockTimeFor(cfg, ok) < t3
    requires t3 < Rfc3339(t2 + LockTimeFor(cfg, ok)).instant && t3 < Rfc3339(t3 + cfg.repair.lockDuration).instant
    ensures Behaviour(cfg, ws, hs) && Lively(ws, hs) && ws[0] == Site(Repair, t1, nodes, map[], Rest(Idle))
    ensures Limit.LiveLocks(cfg, Repair, ws[0]) == {} && OneSweep(cfg, ws, hs, s)
    ensures RepairCall(cfg, broken[0]).Some? && f < s < |hs| && hs[f] == ActCall(cfg, t1, broken[0], ok)
    ensures hs[s] == By(Repair, t3, Swept, false)
    ensures forall k :: 0 <= k < |hs| && k != f && k != s ==> Smooth(hs[k])
    ensures |Limit.LiveLocks(cfg, Repair, ws[|hs|])| == cfg.repair.limit + 1
  {
    hide Leads, Limit.LiveLocks, Starts, Lively, HappensAt, Relocked, WithLock, AllSick, OneSweep, Smooth, LockTimeFor,
         Sickbay, RepairCall, ActCall;
    var w, end := Site(Repair, t1, nodes, map[], Rest(Idle)), Site(Repair, t1, nodes, map[], Rest(Idle));
    FirstWorld(cfg, t1, nodes, broken);
    assert broken[0] in broken;
    hs, f := FirstPhase(cfg, w, t1, t2, nodes, broken, ok);
    s := |hs|;
    hs, end := SweptPhase(cfg, w, hs, LockTimeFor(cfg, ok), t1, t2, t3, nodes, broken);
    ws := Replayed(cfg, w, hs, end);
    forall k | 0 <= k < |hs| && k != s ensures hs[k].what.ByJob? && !hs[k].what.event.Swept? {
      NoSweep(cfg, t1, broken[0], ok, hs[k], k == f);
    }
    SeenOneSweep(cfg, ws, hs, s);
    assert hs[..|hs|] == hs;
  }

  lemma NoSweep(cfg: Config, t: int, node: NodeObject, ok: bool, h: Happening, first: bool)
    requires if first then RepairCall(cfg, node).Some? && h == ActCall(cfg, t, node, ok) else Smooth(h)
    ensures h.what.ByJob? && !h.what.event.Swept?
  {
    hide RepairCall;
  }
}

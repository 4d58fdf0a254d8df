/**
 Why LockLimit needs its hypothesis about healthy nodes for limits above one: a healthy node gives its lock up although its
 annotation is live, and then more nodes are repaired and locked than the limit allows. This happens for every limit but
 one.
 */
module LockGivenUp {
  import opened Options
  import opened JsonPatch
  import opened Nodes
  import opened Settings
  import opened TimedCaches
  import opened Jobs
  import opened World
  import opened Plays
  import opened Crowds
  import Ticks
  import Limit = LockLimit
  import opened JobLimits

  /** A cluster of a healthy node with a live lock, and of broken nodes without one; nothing is to be cleaned up. */
  ghost predicate Crowd(cfg: Config, t: int, nodes: Cluster, healthy: NodeObject, broken: seq<NodeObject>) {
    && Keyed(nodes) && Current([healthy] + broken, nodes) && DistinctNames([healthy] + broken)
    && HealthOf(healthy.conditions).ready && Limit.HasLive(cfg, Repair, healthy, t) && !BanIsOver(cfg, healthy, t)
    && Free(cfg, Repair, broken, t)
    && forall node <- broken :: Ticks.UpForRepair(cfg, node, t)
  }

  // ---- the tick up to the broken nodes ----

  lemma GiveUpStep(cfg: Config, t: int, healthy: NodeObject, broken: seq<NodeObject>, locks: Cache<bool>)
    requires HealthOf(healthy.conditions).ready && locks.Keys == {healthy.name}
    ensures LocalStep(cfg, Repair, t, Job(locks, Head(RepairRun, [healthy] + broken))) == Some(Job(map[], Head(RepairRun, broken)))
  {
    hide HealthOf;
    assert ([healthy] + broken)[1..] == broken && locks - {healthy.name} == map[];
  }

  /** A tick up to the broken nodes, with an empty cache. */
  lemma GiveUpPhase(cfg: Config, w: World, t: int, nodes: Cluster, healthy: NodeObject, broken: seq<NodeObject>)
      returns (more: seq<Happening>)
    requires cfg.reading.Remaining? && cfg.repair.limit > 1 && Crowd(cfg, t, nodes, healthy, broken)
    requires w == Site(Repair, t, nodes, map[], Rest(Idle))
    ensures SmoothFrom(more, 0) && Leads(cfg, w, more, Site(Repair, t, nodes, map[], Head(RepairRun, broken)))
  {
    hide Leads, Step, LocalStep, Current, DistinctNames, BanIsOver, HealthOf, Ticks.UpForRepair;
    var view, locks := [healthy] + broken, Restored(cfg, Repair, healthy);
    RestoreSteps(cfg, Repair, t, healthy, broken);
    GiveUpStep(cfg, t, healthy, broken, locks);
    ListSteps(cfg, t, view, map[]);
    ListSteps(cfg, t, view, locks);
    Behind(cfg, healthy, broken);
    Nothing(cfg, w);
    more := Do(cfg, w, [], Repair, t, t, nodes, map[], Rest(Idle), Listed(view), map[], Head(Sync, view));
    more := RestorePhase(cfg, w, more, Repair, t, nodes, healthy, broken);
    var guard;
    more, guard := CleanedPhase(cfg, w, more, Repair, t, nodes, view, broken, locks);
    more := Do(cfg, w, more, Repair, t, t, nodes, locks, Rest(Place.Cleaned), Listed(view), locks, Head(RepairRun, view));
    more := Decide(cfg, w, more, Repair, t, nodes, locks, Head(RepairRun, view), map[], Head(RepairRun, broken));
  }

  lemma Behind(cfg: Config, healthy: NodeObject, broken: seq<NodeObject>)
    requires DistinctNames([healthy] + broken)
    ensures healthy.name !in Names(broken) && DistinctNames(broken)
    ensures Names([healthy] + broken) == {healthy.name} + Names(broken)
  {
    TailNames([healthy] + broken);
    assert ([healthy] + broken)[1..] == broken;
  }

  // ---- more live locks than the limit ----

  lemma LivesInEnd(cfg: Config, t: int, nodes: Cluster, healthy: NodeObject, broken: seq<NodeObject>, end: World)
    requires cfg.DistinctAnnotations() && Crowd(cfg, t, nodes, healthy, broken) && end.now == t
    requires t < Rfc3339(t + cfg.repair.lockDuration).instant && DoneTo(cfg, RepairedAt(t), nodes, broken, end.nodes)
    ensures |Limit.LiveLocks(cfg, Repair, end)| == |broken| + 1
  {
    hide Current, DistinctNames, BanIsOver, Limit.HasLive, HealthOf, Ticks.UpForRepair, Names, DoneTo;
    CurrentNames([healthy] + broken, nodes);
    Behind(cfg, healthy, broken);
    NamesSize([healthy] + broken);
    HealthyStays(healthy, broken, nodes);
    assert |nodes.Keys| == |nodes|;
    LivesAfter(cfg, Repair, t, nodes, healthy.name, broken, end);
  }

  lemma HealthyStays(healthy: NodeObject, broken: seq<NodeObject>, nodes: Cluster)
    requires Current([healthy] + broken, nodes)
    ensures healthy.name in nodes && nodes[healthy.name] == healthy
    ensures forall node <- broken :: node.name in nodes && nodes[node.name] == node
  {
    assert healthy in [healthy] + broken;
    assert forall node <- broken :: node in [healthy] + broken;
  }

  lemma LivesBefore(cfg: Config, t: int, nodes: Cluster, healthy: NodeObject, broken: seq<NodeObject>)
    requires Crowd(cfg, t, nodes, healthy, broken)
    ensures var w := Site(Repair, t, nodes, map[], Rest(Idle)); Starts(w) && Limit.LiveLocks(cfg, Repair, w) == {healthy.name}
  {
    hide BanIsOver, HealthOf, Ticks.UpForRepair;
    HealthyStays(healthy, broken, nodes);
    forall name | name in nodes && name != healthy.name ensures cfg.repair.lockAnnotation !in nodes[name].annotations {
      assert nodes[name] in [healthy] + broken && nodes[name].name == name;
      assert nodes[name] in broken;
    }
  }

  lemma CrowdIsReady(cfg: Config, t: int, nodes: Cluster, healthy: NodeObject, broken: seq<NodeObject>)
    requires Crowd(cfg, t, nodes, healthy, broken) && |broken| <= cfg.repair.limit
    ensures Ready(cfg, t, nodes, broken, map[])
  {
    hide Current, BanIsOver, Limit.HasLive, HealthOf, Ticks.UpForRepair;
    HealthyStays(healthy, broken, nodes);
    Behind(cfg, healthy, broken);
  }

  /** A healthy node with a live lock, and as many broken ones without as the limit, which is two or more: one tick, with
      current lists and without any failure, leaves one live lock too many. */
  lemma HealthyNodeBreaksLimit(cfg: Config, t: int, nodes: Cluster, healthy: NodeObject, broken: seq<NodeObject>)
      returns (ws: seq<World>, hs: seq<Happening>)
    requires cfg.DistinctAnnotations() && cfg.reading.Remaining? && cfg.repair.limit > 1
    requires Crowd(cfg, t, nodes, healthy, broken) && |broken| == cfg.repair.limit
    requires t < Rfc3339(t + cfg.repair.lockDuration).instant
    ensures Behaviour(cfg, ws, hs) && Fair(ws, hs) && ws[0] == Site(Repair, t, nodes, map[], Rest(Idle))
    ensures Limit.LiveLocks(cfg, Repair, ws[0]) == {healthy.name}
    ensures |Limit.LiveLocks(cfg, Repair, ws[|hs|])| == cfg.repair.limit + 1
  {
    hide Leads, Limit.LiveLocks, Starts, Fair, HappensAt, DistinctNames, DoneTo, AllActedOn, Ready, Crowd;
    var w := Site(Repair, t, nodes, map[], Rest(Idle));
    LivesBefore(cfg, t, nodes, healthy, broken);
    CrowdIsReady(cfg, t, nodes, healthy, broken);
    var after, held;
    hs := GiveUpPhase(cfg, w, t, nodes, healthy, broken);
    assert broken + [] == broken;
    hs, after, held := RepairAll(cfg, w, hs, t, nodes, broken, [], map[]);
    var end := Site(Repair, t, after, held, Head(RepairRun, []));
    LivesInEnd(cfg, t, nodes, healthy, broken, end);
    ws := Replayed(cfg, w, hs, end);
    assert hs[..|hs|] == hs;
  }

  /** Some behaviour gets from that cluster above the limit, although all hypotheses of LockLimit but the one about
      healthy nodes hold. */
  ghost predicate CanBreak(cfg: Config, t: int, nodes: Cluster) {
    exists ws, hs :: BreaksFrom(cfg, t, nodes, ws, hs)
  }

  ghost predicate BreaksFrom(cfg: Config, t: int, nodes: Cluster, ws: seq<World>, hs: seq<Happening>) {
    && Behaviour(cfg, ws, hs) && ws[0] == Site(Repair, t, nodes, map[], Rest(Idle)) && Limit.AllAssumed(cfg, Repair, ws, hs)
    && |Limit.LiveLocks(cfg, Repair, ws[0])| <= cfg.repair.limit < |Limit.LiveLocks(cfg, Repair, ws[|hs|])|
  }

  /** Healthy nodes that give their locks up can break the limit exactly if it is not one. */
  lemma HealthyNodesBreakLimitIff(cfg: Config, t: int, nodes: Cluster, healthy: NodeObject, broken: seq<NodeObject>)
    requires cfg.DistinctAnnotations() && cfg.reading.Remaining? && cfg.repair.limit > 0
    requires Crowd(cfg, t, nodes, healthy, broken) && |broken| == cfg.repair.limit
    requires t < Rfc3339(t + cfg.repair.lockDuration).instant
    ensures CanBreak(cfg, t, nodes) <==> cfg.repair.limit != 1
  {
    hide Crowd, Limit.LiveLocks, Limit.AllAssumed, Behaviour, Fair;
    if cfg.repair.limit > 1 {
      var ws, hs := HealthyNodeBreaksLimit(cfg, t, nodes, healthy, broken);
      BehaviourLength(cfg, ws, hs);
      FairIsAssumed(cfg, ws, hs);
      assert BreaksFrom(cfg, t, nodes, ws, hs);
    } else if CanBreak(cfg, t, nodes) {
      var ws, hs :| BreaksFrom(cfg, t, nodes, ws, hs);
      RepairLocksWithinLimit(cfg, ws, hs, |hs|);
    }
  }

  lemma BehaviourLength(cfg: Config, ws: seq<World>, hs: seq<Happening>)
    requires Behaviour(cfg, ws, hs)
    ensures |ws| == |hs| + 1
  {
  }
}

/**
 The janitor and the limit of the update job: as for repairs, an entry that the run has made can be swept while its
 annotation is live, since the annotation is stamped later. This happens for every limit.
 */
module UpdateSwept {
  import opened Options
  import opened JsonPatch
  import opened Nodes
  import opened Settings
  import opened TimedCaches
  import opened Jobs
  import opened World
  import opened Plays
  import opened Crowds
  import opened UpdateCrowds
  import Ticks
  import Limit = LockLimit

  /** A cluster of candidates without locks; nothing is to be cleaned up. */
  ghost predicate Backlog(cfg: Config, t: int, nodes: Cluster, view: seq<NodeObject>) {
    && Keyed(nodes) && Current(view, nodes) && DistinctNames(view) && Plain(cfg, view) && Free(cfg, Update, view, t)
  }

  lemma NothingToDo(cfg: Config, t: int, nodes: Cluster, view: seq<NodeObject>)
    requires Backlog(cfg, t, nodes, view)
    ensures NoneOver(cfg, view, t) && (forall node <- view :: !BanIsOver(cfg, node, t))
    ensures Shows(view, nodes) && nodes.Keys == Names(view) && |nodes| == |view|
  {
    hide BanIsOver, Plain;
    CurrentNames(view, nodes);
    NamesSize(view);
    assert |nodes.Keys| == |nodes|;
  }

  lemma EntryIsOver(cfg: Config, name: string, t1: int, t3: int)
    requires cfg.update.lockDuration > 0 && t1 + cfg.update.lockDuration < t3
    ensures Sweep(WithLock(cfg, Update, cfg.update.lockDuration, map[], name, t1), t3) == map[]
  {
  }

  /** A tick up to the loop over candidates. */
  lemma StartPhase(cfg: Config, w: World, t: int, nodes: Cluster, view: seq<NodeObject>) returns (more: seq<Happening>)
    requires cfg.update.limit > 0 && Backlog(cfg, t, nodes, view) && view != []
    requires w == Site(Update, t, nodes, map[], Rest(Idle))
    ensures SmoothFrom(more, 0) && Leads(cfg, w, more, Site(Update, t, nodes, map[], Head(UpdateRun, view)))
  {
    hide Leads, Step, Current, DistinctNames, BanIsOver, NoneOver, Plain, Smooth, Free, Names;
    var guard;
    NothingToDo(cfg, t, nodes, view);
    CollectStep(cfg, t, view, map[]);
    CollectIsSmooth(t, view);
    assert Sweep(NO_LOCKS, t) == NO_LOCKS;
    more := AutoPhase(cfg, w, t, nodes, view);
    more, guard := CleanedPhase(cfg, w, more, Update, t, nodes, view, view, map[]);
    more := Do(cfg, w, more, Update, t, t, nodes, map[], Rest(Place.Cleaned), Collected(view, Names(view), 0, true),
               map[], Head(UpdateRun, view));
  }

  /** The first node is locked in the cache at t1, and by annotation at t2. */
  lemma FirstPhase(cfg: Config, w: World, hs: seq<Happening>, t1: int, t2: int, nodes: Cluster, node: NodeObject,
                   rest: seq<NodeObject>) returns (more: seq<Happening>)
    requires Leads(cfg, w, hs, Site(Update, t1, nodes, map[], Head(UpdateRun, [node] + rest))) && t1 <= t2
    requires Ticks.TakenUp(cfg, node) && cfg.update.limit > 0 && node.name in nodes && nodes[node.name] == node
    ensures Continued(hs, more)
    ensures Leads(cfg, w, more, Site(Update, t2, nodes[node.name := AfterUpdate(cfg, node, t2)],
                                     WithLock(cfg, Update, cfg.update.lockDuration, map[], node.name, t1), Head(UpdateRun, rest)))
  {
    hide Leads, Ticks.TakenUp, AfterUpdate, WithLock, LockOn, Unmarked, WriteCall, Smooth;
    var nodes1 := nodes[node.name := Unmarked(cfg, node)];
    UnmarkedLocked(cfg, node, t2);
    more := UpdateUpToLock(cfg, w, hs, t1, nodes, node, rest, map[]);
    more := StampPhase(cfg, w, more, Update, t1, t2, nodes1, node, rest,
                       WithLock(cfg, Update, cfg.update.lockDuration, map[], node.name, t1), cfg.update.lockDuration,
                       AfterUpdate(cfg, node, t2));
    assert nodes1[node.name := AfterUpdate(cfg, node, t2)] == nodes[node.name := AfterUpdate(cfg, node, t2)];
  }

  lemma AfterFirst(cfg: Config, t: int, nodes: Cluster, view: seq<NodeObject>, later: int)
    requires Backlog(cfg, t, nodes, view) && view != [] && |view| == cfg.update.limit + 1
    ensures Queued(cfg, nodes[view[0].name := AfterUpdate(cfg, view[0], later)], view[1..], map[])
    ensures Whole(nodes, view[0], view[1..]) && Ticks.TakenUp(cfg, view[0])
  {
    hide BanIsOver, Ticks.TakenUp, AfterUpdate, Names, DistinctNames, Shows, Current, Keyed, Free;
    NothingToDo(cfg, t, nodes, view);
    DoneName(cfg, UpdatedAt(later), view[0]);
    ShowsNext(view, nodes, AfterUpdate(cfg, view[0], later));
    TailNames(view);
    assert view[0] in view && forall node <- view[1..] :: node in view;
  }

  lemma FirstWorld(cfg: Config, t: int, nodes: Cluster, view: seq<NodeObject>)
    requires Backlog(cfg, t, nodes, view)
    ensures var w := Site(Update, t, nodes, map[], Rest(Idle)); Starts(w) && Limit.LiveLocks(cfg, Update, w) == {}
  {
    hide BanIsOver, Plain, DistinctNames;
    forall name | name in nodes ensures cfg.update.lockAnnotation !in nodes[name].annotations {
      assert nodes[name] in view;
    }
  }

  /** One candidate more than the limit, and no locks. The first node is updated and locked in the cache at t1, its annotation
      is stamped at t2, and the janitor sweeps at t3, when the entry is over but the annotation is not. All lists are current,
      no call fails, there is this one sweep, and in the end there is one live lock too many. */
  lemma JanitorBreaksUpdateLimit(cfg: Config, t1: int, t2: int, t3: int, nodes: Cluster, view: seq<NodeObject>)
      returns (ws: seq<World>, hs: seq<Happening>, s: nat)
    requires cfg.DistinctAnnotations() && cfg.update.limit > 0 && cfg.update.lockDuration > 0
    requires Backlog(cfg, t1, nodes, view) && |view| == cfg.update.limit + 1
    requires t1 <= t2 <= t3 && t1 + cfg.update.lockDuration < t3
    requires t3 < Rfc3339(t2 + cfg.update.lockDuration).instant && t3 < Rfc3339(t3 + cfg.update.lockDuration).instant
    ensures Behaviour(cfg, ws, hs) && Lively(ws, hs) && ws[0] == Site(Update, t1, nodes, map[], Rest(Idle))
    ensures s < |hs| && hs[s] == By(Update, t3, Swept, false) && forall k :: 0 <= k < |hs| && k != s ==> Smooth(hs[k])
    ensures Limit.LiveLocks(cfg, Update, ws[0]) == {}
    ensures |Limit.LiveLocks(cfg, Update, ws[|hs|])| == cfg.update.limit + 1
  {
    hide Leads, Limit.LiveLocks, Starts, Lively, HappensAt, AfterUpdate, WithLock, Smooth, Backlog, Ticks.TakenUp, Queued, Sweep;
    var w, end := Site(Update, t1, nodes, map[], Rest(Idle)), Site(Update, t1, nodes, map[], Rest(Idle));
    FirstWorld(cfg, t1, nodes, view);
    AfterFirst(cfg, t1, nodes, view, t2);
    EntryIsOver(cfg, view[0].name, t1, t3);
    hs := StartPhase(cfg, w, t1, nodes, view);
    assert view == [view[0]] + view[1..];
    hs := FirstPhase(cfg, w, hs, t1, t2, nodes, view[0], view[1..]);
    s := |hs|;
    hs, end := SweptPhase(cfg, w, hs, t2, t2, t3, nodes, view[0], view[1..],
                          WithLock(cfg, Update, cfg.update.lockDuration, map[], view[0].name, t1));
    ws := Replayed(cfg, w, hs, end);
    assert hs[..|hs|] == hs;
  }
}

/** The parts of a tick of either job, played in a cluster of any size while the other job sleeps. */
module Crowds {
  import opened Options
  import opened JsonPatch
  import opened Nodes
  import opened Settings
  import opened TimedCaches
  import opened Jobs
  import opened World
  import opened Plays
  import Ticks
  import Window = LockWindow
  import Limit = LockLimit

  function Site(kind: Kind, t: int, nodes: Cluster, locks: Cache<bool>, stage: Stage): World {
    match kind
    case Repair => World(t, nodes, Job(locks, stage), FRESH_JOB)
    case Update => World(t, nodes, FRESH_JOB, Job(locks, stage))
  }

  lemma Do(cfg: Config, w: World, hs: seq<Happening>, kind: Kind, start: int, t: int, nodes: Cluster, locks: Cache<bool>,
           stage: Stage, e: Event, locks1: Cache<bool>, stage1: Stage) returns (more: seq<Happening>)
    requires Leads(cfg, w, hs, Site(kind, start, nodes, locks, stage)) && start <= t
    requires Step(cfg, kind, t, Job(locks, stage), e) == Some(Job(locks1, stage1))
    requires !e.Patch? && !e.Drain? && !e.Uncordon? && (e.Listed? || e.Collected? ==> Current(e.view, nodes))
    ensures more == hs + [By(kind, t, e, false)] && Leads(cfg, w, more, Site(kind, t, nodes, locks1, stage1))
    ensures Smooth(By(kind, t, e, false)) ==> Continued(hs, more)
  {
    hide Step, Leads, Smooth, Current;
    more := hs + [By(kind, t, e, false)];
    One(cfg, w, hs, Site(kind, start, nodes, locks, stage), By(kind, t, e, false), Site(kind, t, nodes, locks1, stage1));
  }

  /** What is played goes on, and no list is taken. */
  predicate Onward(hs: seq<Happening>, more: seq<Happening>) {
    && Continued(hs, more)
    && forall k :: |hs| <= k < |more| ==> more[k].what.ByJob? && !more[k].what.event.Listed?
  }

  lemma Decide(cfg: Config, w: World, hs: seq<Happening>, kind: Kind, t: int, nodes: Cluster, locks: Cache<bool>,
               stage: Stage, locks1: Cache<bool>, stage1: Stage) returns (more: seq<Happening>)
    requires Leads(cfg, w, hs, Site(kind, t, nodes, locks, stage))
    requires LocalStep(cfg, kind, t, Job(locks, stage)) == Some(Job(locks1, stage1))
    ensures more == hs + [By(kind, t, Local, false)] && Onward(hs, more)
    ensures Leads(cfg, w, more, Site(kind, t, nodes, locks1, stage1))
  {
    hide LocalStep, Leads;
    more := Do(cfg, w, hs, kind, t, t, nodes, locks, stage, Local, locks1, stage1);
  }

  // ---- up to the loop over nodes ----

  /** Nodes without a lock, and with nothing to be cleaned up. */
  predicate Free(cfg: Config, kind: Kind, view: seq<NodeObject>, t: int) {
    forall node <- view :: cfg.Job(kind).lockAnnotation !in node.annotations && !BanIsOver(cfg, node, t)
  }

  lemma SyncStep(cfg: Config, kind: Kind, t: int, view: seq<NodeObject>, locks: Cache<bool>)
    requires view != [] && cfg.Job(kind).lockAnnotation !in view[0].annotations && view[0].name !in locks
    ensures LocalStep(cfg, kind, t, Job(locks, Head(Sync, view))) == Some(Job(locks, Head(Sync, view[1..])))
  {
    assert locks - {view[0].name} == locks;
  }

  /** syncNodeLockCache finds no locks on the first nodes. */
  lemma {:induction false} SyncAll(cfg: Config, w: World, hs: seq<Happening>, kind: Kind, t: int, nodes: Cluster,
                                   view: seq<NodeObject>, rest: seq<NodeObject>, locks: Cache<bool>)
      returns (more: seq<Happening>)
    requires Leads(cfg, w, hs, Site(kind, t, nodes, locks, Head(Sync, view + rest))) && Free(cfg, kind, view, t)
    requires locks.Keys !! Names(view)
    ensures Continued(hs, more) && Leads(cfg, w, more, Site(kind, t, nodes, locks, Head(Sync, rest)))
    decreases |view|
  {
    hide Leads, LocalStep, BanIsOver;
    more := hs;
    if view == [] {
      assert view + rest == rest;
    } else {
      assert view[0] in view && view[0].name in Names(view);
      assert (view + rest)[0] == view[0] && (view + rest)[1..] == view[1..] + rest;
      SyncStep(cfg, kind, t, view + rest, locks);
      more := Decide(cfg, w, hs, kind, t, nodes, locks, Head(Sync, view + rest), locks, Head(Sync, view[1..] + rest));
      more := SyncAll(cfg, w, more, kind, t, nodes, view[1..], rest, locks);
    }
  }

  lemma CleanStep(cfg: Config, kind: Kind, t: int, view: seq<NodeObject>, locks: Cache<bool>)
    requires view != [] && !BanIsOver(cfg, view[0], t)
    ensures LocalStep(cfg, kind, t, Job(locks, Head(Cleanup, view))) == Some(Job(locks, Head(Cleanup, view[1..])))
  {
    hide BanIsOver;
  }

  /** Cleanup finds nothing to do on the first nodes. */
  lemma {:induction false} CleanAll(cfg: Config, w: World, hs: seq<Happening>, kind: Kind, t: int, nodes: Cluster,
                                    view: seq<NodeObject>, rest: seq<NodeObject>, locks: Cache<bool>)
      returns (more: seq<Happening>)
    requires Leads(cfg, w, hs, Site(kind, t, nodes, locks, Head(Cleanup, view + rest)))
    requires forall node <- view :: !BanIsOver(cfg, node, t)
    ensures Onward(hs, more) && Leads(cfg, w, more, Site(kind, t, nodes, locks, Head(Cleanup, rest)))
    decreases |view|
  {
    hide Leads, LocalStep, BanIsOver;
    more := hs;
    if view == [] {
      assert view + rest == rest;
    } else {
      assert (view + rest)[0] == view[0] && (view + rest)[1..] == view[1..] + rest;
      CleanStep(cfg, kind, t, view + rest, locks);
      more := Decide(cfg, w, hs, kind, t, nodes, locks, Head(Cleanup, view + rest), locks, Head(Cleanup, view[1..] + rest));
      more := CleanAll(cfg, w, more, kind, t, nodes, view[1..], rest, locks);
    }
  }

  /** The cache with the lock of one node, as long as its annotation says. */
  function Restored(cfg: Config, kind: Kind, node: NodeObject): Cache<bool>
    requires cfg.Job(kind).lockAnnotation in node.annotations
    requires node.annotations[cfg.Job(kind).lockAnnotation].Stamp?
  {
    map[node.name := Item(true, At(node.annotations[cfg.Job(kind).lockAnnotation].instant))]
  }

  lemma RestoreSteps(cfg: Config, kind: Kind, t: int, node: NodeObject, rest: seq<NodeObject>)
    requires cfg.reading.Remaining? && Limit.HasLive(cfg, kind, node, t)
    ensures var left := node.annotations[cfg.Job(kind).lockAnnotation].instant - t;
            && LocalStep(cfg, kind, t, Job(map[], Head(Sync, [node] + rest))) == Some(Job(map[], Busy(Restoring(left), node, rest)))
            && LocalStep(cfg, kind, t, Job(map[], Busy(Restoring(left), node, rest))) ==
               Some(Job(Restored(cfg, kind, node), Head(Sync, rest)))
    ensures Sweep(Restored(cfg, kind, node), t) == Restored(cfg, kind, node)
    ensures |Restored(cfg, kind, node)| == 1 && Restored(cfg, kind, node).Keys == {node.name}
  {
    assert ([node] + rest)[1..] == rest;
  }

  /** The lock of the first node comes back into the cache. */
  lemma RestorePhase(cfg: Config, w: World, hs: seq<Happening>, kind: Kind, t: int, nodes: Cluster, node: NodeObject,
                     rest: seq<NodeObject>) returns (more: seq<Happening>)
    requires cfg.reading.Remaining? && Limit.HasLive(cfg, kind, node, t)
    requires Leads(cfg, w, hs, Site(kind, t, nodes, map[], Head(Sync, [node] + rest)))
    ensures Continued(hs, more) && Leads(cfg, w, more, Site(kind, t, nodes, Restored(cfg, kind, node), Head(Sync, rest)))
  {
    hide Leads, LocalStep, Restored;
    var left := node.annotations[cfg.Job(kind).lockAnnotation].instant - t;
    RestoreSteps(cfg, kind, t, node, rest);
    more := Decide(cfg, w, hs, kind, t, nodes, map[], Head(Sync, [node] + rest), map[], Busy(Restoring(left), node, rest));
    more := Decide(cfg, w, more, kind, t, nodes, map[], Busy(Restoring(left), node, rest),
                   Restored(cfg, kind, node), Head(Sync, rest));
  }

  lemma GuardSteps(cfg: Config, kind: Kind, t: int, view: seq<NodeObject>, locks: Cache<bool>)
    requires |locks| < cfg.Job(kind).limit && Sweep(locks, t) == locks && DistinctNames(view)
    ensures LocalStep(cfg, kind, t, Job(locks, Head(Sync, []))) == Some(Job(locks, Rest(Synced)))
    ensures LocalStep(cfg, kind, t, Job(locks, Rest(Synced))) == Some(Job(locks, Rest(Entered)))
    ensures Step(cfg, kind, t, Job(locks, Rest(Entered)), Listed(view)) == Some(Job(locks, Head(Cleanup, view)))
    ensures LocalStep(cfg, kind, t, Job(locks, Head(Cleanup, []))) == Some(Job(locks, Rest(Place.Cleaned)))
  {
  }

  /** The end of syncNodeLockCache, the guard, and the list of Cleanup. */
  lemma GuardPhase(cfg: Config, w: World, hs: seq<Happening>, kind: Kind, t: int, nodes: Cluster, view: seq<NodeObject>,
                   locks: Cache<bool>) returns (more: seq<Happening>, guard: nat)
    requires Leads(cfg, w, hs, Site(kind, t, nodes, locks, Head(Sync, []))) && Current(view, nodes) && DistinctNames(view)
    requires |locks| < cfg.Job(kind).limit && Sweep(locks, t) == locks
    ensures Continued(hs, more) && Leads(cfg, w, more, Site(kind, t, nodes, locks, Head(Cleanup, view)))
    ensures |hs| <= guard && |more| == guard + 2 && Leads(cfg, w, more[..guard], Site(kind, t, nodes, locks, Rest(Synced)))
    ensures Leads(cfg, w, more[..guard + 1], Site(kind, t, nodes, locks, Rest(Entered)))
  {
    hide Leads, Step, LocalStep, Current, DistinctNames;
    GuardSteps(cfg, kind, t, view, locks);
    more := Decide(cfg, w, hs, kind, t, nodes, locks, Head(Sync, []), locks, Rest(Synced));
    guard := |more|;
    var before := more;
    more := Decide(cfg, w, more, kind, t, nodes, locks, Rest(Synced), locks, Rest(Entered));
    var entered := more;
    more := Do(cfg, w, more, kind, t, t, nodes, locks, Rest(Entered), Listed(view), locks, Head(Cleanup, view));
    assert more[..guard] == before && more[..guard + 1] == entered;
  }

  /** From the nodes without locks at the end of the list to the end of Cleanup; nothing is to be cleaned up. */
  lemma CleanedPhase(cfg: Config, w: World, hs: seq<Happening>, kind: Kind, t: int, nodes: Cluster, view: seq<NodeObject>,
                     free: seq<NodeObject>, locks: Cache<bool>) returns (more: seq<Happening>, guard: nat)
    requires Leads(cfg, w, hs, Site(kind, t, nodes, locks, Head(Sync, free))) && Free(cfg, kind, free, t)
    requires locks.Keys !! Names(free) && forall node <- view :: !BanIsOver(cfg, node, t)
    requires Current(view, nodes) && DistinctNames(view) && |locks| < cfg.Job(kind).limit && Sweep(locks, t) == locks
    ensures Continued(hs, more) && Leads(cfg, w, more, Site(kind, t, nodes, locks, Rest(Place.Cleaned)))
    ensures |hs| <= guard && guard + 2 <= |more| && Onward(more[..guard + 2], more)
    ensures Leads(cfg, w, more[..guard], Site(kind, t, nodes, locks, Rest(Synced)))
    ensures Leads(cfg, w, more[..guard + 1], Site(kind, t, nodes, locks, Rest(Entered)))
  {
    hide Leads, Step, LocalStep, BanIsOver, Current, DistinctNames;
    assert free + [] == free && view + [] == view;
    GuardSteps(cfg, kind, t, view, locks);
    more := SyncAll(cfg, w, hs, kind, t, nodes, free, [], locks);
    more, guard := GuardPhase(cfg, w, more, kind, t, nodes, view, locks);
    var before, entered, guarded := more[..guard], more[..guard + 1], more;
    more := CleanAll(cfg, w, more, kind, t, nodes, view, [], locks);
    more := Decide(cfg, w, more, kind, t, nodes, locks, Head(Cleanup, []), locks, Rest(Place.Cleaned));
    assert more[..guard] == before && more[..guard + 1] == entered && more[..guard + 2] == guarded;
  }

  lemma ListSteps(cfg: Config, t: int, view: seq<NodeObject>, locks: Cache<bool>)
    requires DistinctNames(view)
    ensures Step(cfg, Repair, t, Job(locks, Rest(Idle)), Listed(view)) == Some(Job(map[], Head(Sync, view)))
    ensures Step(cfg, Repair, t, Job(locks, Rest(Place.Cleaned)), Listed(view)) == Some(Job(locks, Head(RepairRun, view)))
  {
  }

  // ---- one node is repaired and locked ----

  function LockOn(cfg: Config, kind: Kind, dur: int, t: int): Annotations {
    LockValues(cfg.Job(kind).lockAnnotation, dur, cfg.scaledownLockTime, t)
  }

  /** The node after a repair and its lock. */
  function Relocked(cfg: Config, node: NodeObject, dur: int, t: int): NodeObject {
    node.(annotations := node.annotations + LockOn(cfg, Repair, dur, t))
  }

  function WriteCall(cfg: Config, kind: Kind, dur: int, t: int, name: string): Happening {
    By(kind, t, Patch(name, Set(LockOn(cfg, kind, dur, t)), true), true)
  }

  /** How long a repair locks the node. */
  function LockTimeFor(cfg: Config, ok: bool): int {
    if ok then cfg.repair.lockDuration else cfg.repair.lockDurationError
  }

  function WithLock(cfg: Config, kind: Kind, dur: int, locks: Cache<bool>, name: string, t: int): Cache<bool> {
    Added(locks, name, true, dur, LOCK_LIFE, t)
  }

  lemma CheckSteps(cfg: Config, t: int, node: NodeObject, rest: seq<NodeObject>, locks: Cache<bool>)
    requires Ticks.UpForRepair(cfg, node, t) && node.name !in locks && |locks| < cfg.repair.limit
    ensures LocalStep(cfg, Repair, t, Job(locks, Head(RepairRun, [node] + rest))) == Some(Job(locks, Busy(Due, node, rest)))
    ensures LocalStep(cfg, Repair, t, Job(locks, Busy(Due, node, rest))) == Some(Job(locks, Busy(Unlocked, node, rest)))
    ensures LocalStep(cfg, Repair, t, Job(locks, Busy(Unlocked, node, rest))) ==
            Some(Job(locks, Busy(Checking, node, rest)))
    ensures RepairCall(cfg, node).Some?
  {
    hide HealthOf, Overdue;
    assert ([node] + rest)[1..] == rest;
  }

  lemma ActSteps(cfg: Config, t: int, node: NodeObject, rest: seq<NodeObject>, locks: Cache<bool>, ok: bool)
    requires RepairCall(cfg, node).Some?
    ensures Step(cfg, Repair, t, Job(locks, Busy(Checking, node, rest)), AzureGet(node.name, true, None)) ==
            Some(Job(locks, Busy(Acting, node, rest)))
    ensures Step(cfg, Repair, t, Job(locks, Busy(Acting, node, rest)), AzureAct(node.name, RepairCall(cfg, node).value, ok)) ==
            Some(Job(locks, Busy(Locking(LockTimeFor(cfg, ok), true), node, rest)))
    ensures LocalStep(cfg, Repair, t, Job(locks, Busy(Locking(LockTimeFor(cfg, ok), true), node, rest))) ==
            Some(Job(WithLock(cfg, Repair, LockTimeFor(cfg, ok), locks, node.name, t),
                     Busy(Stamping(LockTimeFor(cfg, ok)), node, rest)))
  {
    hide RepairCall, Added;
  }

  /** The Azure call of a repair. */
  function ActCall(cfg: Config, t: int, node: NodeObject, ok: bool): Happening
    requires RepairCall(cfg, node).Some?
  {
    By(Repair, t, AzureAct(node.name, RepairCall(cfg, node).value, ok), false)
  }

  /** The node is repaired, with or without success, by the call at `call`, and locked in the cache. */
  lemma ActPhase(cfg: Config, w: World, hs: seq<Happening>, t: int, nodes: Cluster, node: NodeObject,
                 rest: seq<NodeObject>, locks: Cache<bool>, ok: bool) returns (more: seq<Happening>, call: nat)
    requires Leads(cfg, w, hs, Site(Repair, t, nodes, locks, Head(RepairRun, [node] + rest)))
    requires Ticks.UpForRepair(cfg, node, t) && node.name !in locks && |locks| < cfg.repair.limit
    ensures hs <= more && |hs| <= call < |more| && (forall k :: |hs| <= k < |more| && k != call ==> Smooth(more[k]))
    ensures RepairCall(cfg, node).Some? && more[call] == ActCall(cfg, t, node, ok)
    ensures Leads(cfg, w, more, Site(Repair, t, nodes, WithLock(cfg, Repair, LockTimeFor(cfg, ok), locks, node.name, t),
                                     Busy(Stamping(LockTimeFor(cfg, ok)), node, rest)))
  {
    hide Leads, Step, LocalStep, Ticks.UpForRepair, WithLock, RepairCall, LockTimeFor;
    var dur := LockTimeFor(cfg, ok);
    CheckSteps(cfg, t, node, rest, locks);
    ActSteps(cfg, t, node, rest, locks, ok);
    more := Decide(cfg, w, hs, Repair, t, nodes, locks, Head(RepairRun, [node] + rest), locks, Busy(Due, node, rest));
    more := Decide(cfg, w, more, Repair, t, nodes, locks, Busy(Due, node, rest), locks, Busy(Unlocked, node, rest));
    more := Decide(cfg, w, more, Repair, t, nodes, locks, Busy(Unlocked, node, rest), locks, Busy(Checking, node, rest));
    more := Do(cfg, w, more, Repair, t, t, nodes, locks, Busy(Checking, node, rest), AzureGet(node.name, true, None),
               locks, Busy(Acting, node, rest));
    call := |more|;
    more := Do(cfg, w, more, Repair, t, t, nodes, locks, Busy(Acting, node, rest),
               AzureAct(node.name, RepairCall(cfg, node).value, ok), locks, Busy(Locking(dur, true), node, rest));
    more := Decide(cfg, w, more, Repair, t, nodes, locks, Busy(Locking(dur, true), node, rest),
                   WithLock(cfg, Repair, dur, locks, node.name, t), Busy(Stamping(dur), node, rest));
  }

  /** A patch that is taken. */
  lemma Write(cfg: Config, w: World, hs: seq<Happening>, kind: Kind, t: int, nodes: Cluster, locks: Cache<bool>, stage: Stage,
              change: Change, stage1: Stage, after: NodeObject) returns (more: seq<Happening>)
    requires Leads(cfg, w, hs, Site(kind, t, nodes, locks, stage)) && after.name in nodes
    requires Step(cfg, kind, t, Job(locks, stage), Patch(after.name, change, true)) == Some(Job(locks, stage1))
    requires Effect(nodes[after.name].annotations, change) == Applied(after.annotations)
    requires after == nodes[after.name].(annotations := after.annotations)
    ensures more == hs + [By(kind, t, Patch(after.name, change, true), true)] && Onward(hs, more)
    ensures Leads(cfg, w, more, Site(kind, t, nodes[after.name := after], locks, stage1))
  {
    hide Leads, Step, Effect;
    var h := By(kind, t, Patch(after.name, change, true), true);
    more := hs + [h];
    One(cfg, w, hs, Site(kind, t, nodes, locks, stage), h, Site(kind, t, nodes[after.name := after], locks, stage1));
  }

  /** The clock is read at `t`, and the lock annotation is written, at the end of what is played. */
  lemma StampPhase(cfg: Config, w: World, hs: seq<Happening>, kind: Kind, start: int, t: int, nodes: Cluster,
                   node: NodeObject, rest: seq<NodeObject>, locks: Cache<bool>, dur: int, after: NodeObject)
      returns (more: seq<Happening>)
    requires Leads(cfg, w, hs, Site(kind, start, nodes, locks, Busy(Stamping(dur), node, rest)))
    requires start <= t && node.name in nodes
    requires after == nodes[node.name].(annotations := nodes[node.name].annotations + LockOn(cfg, kind, dur, t))
    requires after.name == node.name
    ensures Onward(hs, more) && |more| > |hs| && more[|more| - 1] == WriteCall(cfg, kind, dur, t, node.name)
    ensures Leads(cfg, w, more, Site(kind, t, nodes[node.name := after], locks, Head(Run(kind), rest)))
  {
    hide Leads, Step, LockValues;
    var change := Set(LockOn(cfg, kind, dur, t));
    Ticks.WriteSteps(cfg, kind, dur, t, node, rest, locks);
    more := Do(cfg, w, hs, kind, start, t, nodes, locks, Busy(Stamping(dur), node, rest), Clock(node.name, t, t),
               locks, Busy(Writing(change), node, rest));
    more := Write(cfg, w, more, kind, t, nodes, locks, Busy(Writing(change), node, rest), change, Head(Run(kind), rest), after);
  }

  // ---- all nodes are ----

  /** What a job does to one node after the other. */
  datatype Deed =
    | RepairedAt(t: int)
    | UpdatedAt(t: int)
    | LockRemoved
    | CleanedUpAt(t: int)

  function AfterDeed(cfg: Config, deed: Deed, node: NodeObject): NodeObject {
    match deed
    case RepairedAt(t) => Relocked(cfg, node, cfg.repair.lockDuration, t)
    case UpdatedAt(t) => AfterUpdate(cfg, node, t)
    case LockRemoved => Ticks.Unlock(cfg, Repair, node)
    case CleanedUpAt(t) => Ticks.CleanedUp(cfg, node, t)
  }

  /** The node after an update and its lock. */
  function AfterUpdate(cfg: Config, node: NodeObject, t: int): NodeObject {
    node.(unschedulable := if cfg.drain.dryRun then node.unschedulable else false,
          annotations := node.annotations + MarkValues(cfg) - {cfg.ongoingAnnotation}
                         + LockOn(cfg, Update, cfg.update.lockDuration, t))
  }

  function Each(cfg: Config, deed: Deed, view: seq<NodeObject>): seq<NodeObject> {
    seq(|view|, i requires 0 <= i < |view| => AfterDeed(cfg, deed, view[i]))
  }

  lemma DoneName(cfg: Config, deed: Deed, node: NodeObject)
    ensures AfterDeed(cfg, deed, node).name == node.name
  {
  }

  /** The cluster with the deed done to these nodes, and all others as they were. */
  ghost predicate DoneTo(cfg: Config, deed: Deed, nodes: Cluster, view: seq<NodeObject>, after: Cluster) {
    && after.Keys == nodes.Keys
    && forall name <- nodes ::
         if name in Names(view) then after[name] == AfterDeed(cfg, deed, nodes[name]) else after[name] == nodes[name]
  }

  lemma NothingDone(cfg: Config, deed: Deed, nodes: Cluster)
    ensures DoneTo(cfg, deed, nodes, [], nodes)
  {
  }

  lemma DoneNext(cfg: Config, deed: Deed, nodes: Cluster, view: seq<NodeObject>, after: Cluster)
    requires view != [] && DistinctNames(view) && view[0].name in nodes && nodes[view[0].name] == view[0]
    requires DoneTo(cfg, deed, nodes[view[0].name := AfterDeed(cfg, deed, view[0])], view[1..], after)
    ensures DoneTo(cfg, deed, nodes, view, after)
  {
    hide AfterDeed;
    TailNames(view);
  }

  lemma SameNames(cfg: Config, deed: Deed, nodes: Cluster, view: seq<NodeObject>, after: Cluster)
    requires DoneTo(cfg, deed, nodes, view, after)
    ensures after.Keys == nodes.Keys
  {
  }

  /** These nodes are in the cluster as they are here. */
  predicate Shows(view: seq<NodeObject>, nodes: Cluster) {
    DistinctNames(view) && forall node <- view :: node.name in nodes && nodes[node.name] == node
  }

  lemma ShowsNext(view: seq<NodeObject>, nodes: Cluster, after: NodeObject)
    requires view != [] && Shows(view, nodes) && after.name == view[0].name
    ensures Shows(view[1..], nodes[view[0].name := after]) && Shows(view[1..], nodes)
    ensures view[0].name in nodes && nodes[view[0].name] == view[0] && view[0].name !in Names(view[1..])
    ensures Names(view[1..]) <= Names(view)
  {
    FirstOfNames(view);
  }

  /** The node is repaired with success, and its lock is written. */
  predicate ActedOn(cfg: Config, t: int, node: NodeObject, hs: seq<Happening>) {
    && RepairCall(cfg, node).Some? && ActCall(cfg, t, node, true) in hs
    && WriteCall(cfg, Repair, cfg.repair.lockDuration, t, node.name) in hs
  }

  ghost predicate AllActedOn(cfg: Config, t: int, view: seq<NodeObject>, hs: seq<Happening>) {
    forall node <- view :: ActedOn(cfg, t, node, hs)
  }

  lemma StillActedOn(cfg: Config, t: int, node: NodeObject, hs: seq<Happening>, more: seq<Happening>)
    requires ActedOn(cfg, t, node, hs) && hs <= more
    ensures ActedOn(cfg, t, node, more)
  {
    hide WriteCall, ActCall, RepairCall;
    forall x | x in hs ensures x in more {
      var i :| 0 <= i < |hs| && hs[i] == x;
      assert more[i] == x;
    }
  }

  /** The first node is repaired and locked. */
  lemma RepairOne(cfg: Config, w: World, hs: seq<Happening>, t: int, nodes: Cluster, node: NodeObject,
                  rest: seq<NodeObject>, locks: Cache<bool>) returns (more: seq<Happening>)
    requires Leads(cfg, w, hs, Site(Repair, t, nodes, locks, Head(RepairRun, [node] + rest)))
    requires Ticks.UpForRepair(cfg, node, t) && node.name !in locks && |locks| < cfg.repair.limit
    requires node.name in nodes && nodes[node.name] == node
    ensures Continued(hs, more) && ActedOn(cfg, t, node, more)
    ensures var dur := cfg.repair.lockDuration;
            Leads(cfg, w, more, Site(Repair, t, nodes[node.name := Relocked(cfg, node, dur, t)],
                                     WithLock(cfg, Repair, dur, locks, node.name, t), Head(RepairRun, rest)))
  {
    hide Leads, Ticks.UpForRepair, WithLock, LockOn, WriteCall, ActCall, Smooth;
    var dur, call := cfg.repair.lockDuration, 0;
    more, call := ActPhase(cfg, w, hs, t, nodes, node, rest, locks, true);
    ActsSmoothly(cfg, t, node, more[call]);
    var acted := more[call];
    more := StampPhase(cfg, w, more, Repair, t, t, nodes, node, rest, WithLock(cfg, Repair, dur, locks, node.name, t), dur,
                       Relocked(cfg, node, dur, t));
    assert more[call] == acted;
  }

  /** These nodes are up for repair, and the limit lets them all through. */
  ghost predicate Ready(cfg: Config, t: int, nodes: Cluster, broken: seq<NodeObject>, locks: Cache<bool>) {
    && Shows(broken, nodes) && (forall node <- broken :: Ticks.UpForRepair(cfg, node, t))
    && locks.Keys !! Names(broken) && |locks| + |broken| <= cfg.repair.limit
  }

  /** They are repaired and locked. */
  ghost predicate Repaired(cfg: Config, t: int, nodes: Cluster, broken: seq<NodeObject>, locks: Cache<bool>, after: Cluster,
                           held: Cache<bool>, hs: seq<Happening>) {
    && DoneTo(cfg, RepairedAt(t), nodes, broken, after) && AllActedOn(cfg, t, broken, hs)
    && held.Keys == locks.Keys + Names(broken) && |held| == |locks| + |broken|
  }

  lemma FirstReady(cfg: Config, t: int, nodes: Cluster, broken: seq<NodeObject>, locks: Cache<bool>)
    requires broken != [] && Ready(cfg, t, nodes, broken, locks)
    ensures Ticks.UpForRepair(cfg, broken[0], t) && broken[0].name !in locks && |locks| < cfg.repair.limit
    ensures broken[0].name in nodes && nodes[broken[0].name] == broken[0]
  {
    hide Ticks.UpForRepair, DistinctNames;
    assert broken[0] in broken && broken[0].name in Names(broken);
  }

  lemma ReadyNext(cfg: Config, t: int, nodes: Cluster, broken: seq<NodeObject>, locks: Cache<bool>, locks1: Cache<bool>)
    requires broken != [] && Ready(cfg, t, nodes, broken, locks)
    requires locks1.Keys == locks.Keys + {broken[0].name} && |locks1| == |locks| + 1
    ensures Ready(cfg, t, nodes[broken[0].name := Relocked(cfg, broken[0], cfg.repair.lockDuration, t)], broken[1..], locks1)
  {
    hide Ticks.UpForRepair, Relocked, Shows, Names;
    FirstDone(cfg, broken, nodes, cfg.repair.lockDuration, t);
  }

  lemma RepairFirst(cfg: Config, w: World, hs: seq<Happening>, t: int, nodes: Cluster,
                    broken: seq<NodeObject>, rest: seq<NodeObject>, locks: Cache<bool>)
      returns (more: seq<Happening>, nodes1: Cluster, locks1: Cache<bool>)
    requires broken != [] && Ready(cfg, t, nodes, broken, locks)
    requires Leads(cfg, w, hs, Site(Repair, t, nodes, locks, Head(RepairRun, broken + rest)))
    ensures Continued(hs, more) && ActedOn(cfg, t, broken[0], more)
    ensures Leads(cfg, w, more, Site(Repair, t, nodes1, locks1, Head(RepairRun, broken[1..] + rest)))
    ensures nodes1 == nodes[broken[0].name := Relocked(cfg, broken[0], cfg.repair.lockDuration, t)]
    ensures locks1.Keys == locks.Keys + {broken[0].name} && |locks1| == |locks| + 1
    ensures Ready(cfg, t, nodes1, broken[1..], locks1)
  {
    hide Leads, Ticks.UpForRepair, WithLock, Relocked, ActedOn, Ready, Smooth;
    var node, dur := broken[0], cfg.repair.lockDuration;
    FirstReady(cfg, t, nodes, broken, locks);
    LockedOne(cfg, Repair, dur, locks, node.name, t);
    ReadyNext(cfg, t, nodes, broken, locks, WithLock(cfg, Repair, dur, locks, node.name, t));
    assert broken + rest == [node] + (broken[1..] + rest);
    more := RepairOne(cfg, w, hs, t, nodes, node, broken[1..] + rest, locks);
    nodes1, locks1 := nodes[node.name := Relocked(cfg, node, dur, t)], WithLock(cfg, Repair, dur, locks, node.name, t);
  }

  lemma RepairedNext(cfg: Config, t: int, nodes: Cluster, broken: seq<NodeObject>, locks: Cache<bool>, after: Cluster,
                     held: Cache<bool>, locks1: Cache<bool>, hs: seq<Happening>, more: seq<Happening>)
    requires broken != [] && Ready(cfg, t, nodes, broken, locks) && hs <= more
    requires ActedOn(cfg, t, broken[0], hs)
    requires locks1.Keys == locks.Keys + {broken[0].name} && |locks1| == |locks| + 1
    requires Repaired(cfg, t, nodes[broken[0].name := Relocked(cfg, broken[0], cfg.repair.lockDuration, t)], broken[1..], locks1,
                      after, held, more)
    ensures Repaired(cfg, t, nodes, broken, locks, after, held, more)
  {
    hide Relocked, ActedOn, Ticks.UpForRepair, DoneTo, AllActedOn, Names;
    FirstDone(cfg, broken, nodes, cfg.repair.lockDuration, t);
    DoneNext(cfg, RepairedAt(t), nodes, broken, after);
    ActedOnNext(cfg, t, broken, hs, more);
  }

  /** One node after the other, within the limit. */
  lemma {:induction false} RepairAll(cfg: Config, w: World, hs: seq<Happening>, t: int, nodes: Cluster,
                                     broken: seq<NodeObject>, rest: seq<NodeObject>, locks: Cache<bool>)
      returns (more: seq<Happening>, after: Cluster, held: Cache<bool>)
    requires Leads(cfg, w, hs, Site(Repair, t, nodes, locks, Head(RepairRun, broken + rest)))
    requires Ready(cfg, t, nodes, broken, locks)
    ensures Continued(hs, more) && Leads(cfg, w, more, Site(Repair, t, after, held, Head(RepairRun, rest)))
    ensures Repaired(cfg, t, nodes, broken, locks, after, held, more)
    decreases |broken|
  {
    hide Leads, Ready, Repaired, Relocked, ActedOn, Smooth;
    more, after, held := hs, nodes, locks;
    if broken == [] {
      assert broken + rest == rest;
      NoneDone(cfg, t, nodes, locks, hs);
    } else {
      var nodes1, locks1;
      more, nodes1, locks1 := RepairFirst(cfg, w, hs, t, nodes, broken, rest, locks);
      var before := more;
      more, after, held := RepairAll(cfg, w, more, t, nodes1, broken[1..], rest, locks1);
      RepairedNext(cfg, t, nodes, broken, locks, after, held, locks1, before, more);
    }
  }

  lemma NoneDone(cfg: Config, t: int, nodes: Cluster, locks: Cache<bool>, hs: seq<Happening>)
    ensures Repaired(cfg, t, nodes, [], locks, nodes, locks, hs)
  {
  }

  lemma ActedOnNext(cfg: Config, t: int, view: seq<NodeObject>, hs: seq<Happening>, more: seq<Happening>)
    requires view != [] && hs <= more && ActedOn(cfg, t, view[0], hs) && AllActedOn(cfg, t, view[1..], more)
    ensures AllActedOn(cfg, t, view, more)
  {
    hide ActedOn;
    StillActedOn(cfg, t, view[0], hs, more);
    assert view == [view[0]] + view[1..];
  }

  lemma ActsSmoothly(cfg: Config, t: int, node: NodeObject, h: Happening)
    requires RepairCall(cfg, node).Some? && h == ActCall(cfg, t, node, true)
    ensures Smooth(h)
  {
    hide RepairCall;
  }

  lemma FirstDone(cfg: Config, view: seq<NodeObject>, nodes: Cluster, dur: int, t: int)
    requires view != [] && Shows(view, nodes)
    ensures Relocked(cfg, view[0], dur, t).name == view[0].name
    ensures Relocked(cfg, view[0], dur, t) == view[0].(annotations := view[0].annotations + LockOn(cfg, Repair, dur, t))
    ensures Shows(view[1..], nodes[view[0].name := Relocked(cfg, view[0], dur, t)])
    ensures view[0] in view && view[0].name in nodes && nodes[view[0].name] == view[0] && DistinctNames(view)
    ensures view[0].name in Names(view) && Names(view) == {view[0].name} + Names(view[1..])
    ensures view[0].name !in Names(view[1..]) && forall node <- view[1..] :: node in view
  {
    hide LockOn;
    ShowsNext(view, nodes, Relocked(cfg, view[0], dur, t));
    TailNames(view);
  }

  lemma FirstOfNames(view: seq<NodeObject>)
    requires DistinctNames(view) && view != []
    ensures DistinctNames(view[1..]) && Names(view[1..]) <= Names(view)
    ensures view[0].name in Names(view) && view[0].name !in Names(view[1..])
    ensures forall node <- view[1..] :: node in view && node.name != view[0].name
  {
    TailNames(view);
    forall node <- view[1..] ensures node.name != view[0].name {
      assert node.name in Names(view[1..]);
    }
  }

  lemma LockedOne(cfg: Config, kind: Kind, dur: int, locks: Cache<bool>, name: string, t: int)
    requires name !in locks
    ensures WithLock(cfg, kind, dur, locks, name, t).Keys == locks.Keys + {name}
    ensures |WithLock(cfg, kind, dur, locks, name, t)| == |locks| + 1
  {
    assert |WithLock(cfg, kind, dur, locks, name, t).Keys| == |locks.Keys| + 1;
  }

  // ---- live locks ----

  lemma LocksLive(cfg: Config, kind: Kind, node: NodeObject, dur: int, t: int, now: int)
    requires cfg.DistinctAnnotations() && now < Rfc3339(t + dur).instant
    requires LockOn(cfg, kind, dur, t).Keys <= node.annotations.Keys
    requires forall key <- LockOn(cfg, kind, dur, t) :: node.annotations[key] == LockOn(cfg, kind, dur, t)[key]
    ensures Limit.HasLive(cfg, kind, node, now)
  {
    hide LockValuesAt;
    cfg.OwnNames();
    Window.LockValueOf(cfg.Job(kind).lockAnnotation, dur, cfg.scaledownLockTime, t, t);
  }

  lemma RelockedLives(cfg: Config, node: NodeObject, dur: int, t: int, now: int)
    requires cfg.DistinctAnnotations() && now < Rfc3339(t + dur).instant
    ensures Limit.HasLive(cfg, Repair, Relocked(cfg, node, dur, t), now)
  {
    hide LockOn, Limit.HasLive;
    LocksLive(cfg, Repair, Relocked(cfg, node, dur, t), dur, t, now);
  }

  lemma UpdatedLives(cfg: Config, node: NodeObject, t: int, now: int)
    requires cfg.DistinctAnnotations() && now < Rfc3339(t + cfg.update.lockDuration).instant
    ensures Limit.HasLive(cfg, Update, AfterUpdate(cfg, node, t), now)
  {
    hide LockOn, Limit.HasLive, MarkValues;
    LocksLive(cfg, Update, AfterUpdate(cfg, node, t), cfg.update.lockDuration, t, now);
  }

  /** What a run of the job does to its nodes. */
  function Deeds(kind: Kind, t: int): Deed {
    match kind
    case Repair => RepairedAt(t)
    case Update => UpdatedAt(t)
  }

  lemma LivesAt(cfg: Config, kind: Kind, t: int, before: Cluster, first: string, rest: seq<NodeObject>, after: Cluster,
                name: string)
    requires cfg.DistinctAnnotations() && t < Rfc3339(t + cfg.Job(kind).lockDuration).instant
    requires first in before && Limit.HasLive(cfg, kind, before[first], t)
    requires DoneTo(cfg, Deeds(kind, t), before, rest, after) && name in before && (name == first || name in Names(rest))
    ensures name in after && Limit.HasLive(cfg, kind, after[name], t)
  {
    hide Limit.HasLive, Relocked, AfterUpdate, Names;
    if name in Names(rest) {
      if kind.Repair? {
        RelockedLives(cfg, before[name], cfg.repair.lockDuration, t, t);
      } else {
        UpdatedLives(cfg, before[name], t, t);
      }
    }
  }

  /** One node had a live lock, and all the others got one: all live locks. */
  lemma LivesAfter(cfg: Config, kind: Kind, t: int, before: Cluster, first: string, rest: seq<NodeObject>, end: World)
    requires cfg.DistinctAnnotations() && t < Rfc3339(t + cfg.Job(kind).lockDuration).instant && end.now == t
    requires first in before && Limit.HasLive(cfg, kind, before[first], t)
    requires before.Keys == {first} + Names(rest) && |before| == |rest| + 1
    requires DoneTo(cfg, Deeds(kind, t), before, rest, end.nodes)
    ensures |Limit.LiveLocks(cfg, kind, end)| == |rest| + 1
  {
    hide Limit.HasLive, Deeds, Names, DoneTo;
    SameNames(cfg, Deeds(kind, t), before, rest, end.nodes);
    forall name | name in before ensures name in end.nodes && Limit.HasLive(cfg, kind, end.nodes[name], t) {
      LivesAt(cfg, kind, t, before, first, rest, end.nodes, name);
    }
    assert Limit.LiveLocks(cfg, kind, end) == before.Keys;
    assert |before.Keys| == |before|;
  }

  lemma {:induction false} NamesSize(view: seq<NodeObject>)
    requires DistinctNames(view)
    ensures |Names(view)| == |view|
  {
    if view != [] {
      TailNames(view);
      NamesSize(view[1..]);
    }
  }

  /** In a current list every node has its name. */
  lemma CurrentNames(view: seq<NodeObject>, nodes: Cluster)
    requires Current(view, nodes) && Keyed(nodes)
    ensures nodes.Keys == Names(view)
  {
    forall name <- nodes ensures name in Names(view) {
      assert nodes[name].name == name;
    }
  }

  /** Unless the janitor sweeps, with current lists and nobody else at work, the hypotheses of LockLimit hold, but for the
      one about healthy nodes. */
  lemma LivelyAssumed(cfg: Config, kind: Kind, ws: seq<World>, hs: seq<Happening>, k: nat)
    requires |ws| == |hs| + 1 && Lively(ws, hs) && k < |hs|
    ensures Limit.Assumed(cfg, kind, ws[k], hs[k])
    ensures !hs[k].what.event.Swept? ==> forall entries :: Limit.Harmless(cfg, kind, entries, ws[k], hs[k])
  {
    hide Current, Limit.Needed;
    assert Informed(ws[k], hs[k]);
  }

  lemma FairIsAssumed(cfg: Config, ws: seq<World>, hs: seq<Happening>)
    requires |ws| == |hs| + 1 && Fair(ws, hs)
    ensures Limit.AllAssumed(cfg, Repair, ws, hs)
  {
    hide Limit.Assumed, Limit.Harmless, Lively;
    forall k | 0 <= k < |hs|
      ensures Limit.Assumed(cfg, Repair, ws[k], hs[k])
      ensures Limit.Harmless(cfg, Repair, Limit.EntriesOf(Repair, false, ws, k), ws[k], hs[k]) {
      LivelyAssumed(cfg, Repair, ws, hs, k);
      assert Smooth(hs[k]);
    }
  }
}

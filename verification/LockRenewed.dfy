/**
 Why LockLimit needs its hypothesis about renewed locks for limits above one: an update of a locked node extends the
 annotation, but Add leaves the entry of the cache as it is. So the janitor can sweep the entry while the annotation is live,
 and then more nodes are updated and locked than the limit allows. This happens for every limit of the update job but one,
 although no entry that the run has made is swept.
 */
module LockRenewed {
  import opened Options
  import opened JsonPatch
  import opened Nodes
  import opened Settings
  import opened TimedCaches
  import opened Jobs
  import opened World
  import opened Budget
  import opened Plays
  import opened Crowds
  import opened UpdateCrowds
  import opened JobLimits
  import Ticks
  import Limit = LockLimit

  /** A cluster of a node with a live update lock, and of nodes without one; all are candidates for an update, and nothing is
      to be cleaned up. */
  ghost predicate Outdating(cfg: Config, t: int, nodes: Cluster, locked: NodeObject, free: seq<NodeObject>) {
    && Keyed(nodes) && Current([locked] + free, nodes) && DistinctNames([locked] + free) && Plain(cfg, [locked] + free)
    && Limit.HasLive(cfg, Update, locked, t) && !BanIsOver(cfg, locked, t) && Free(cfg, Update, free, t)
  }

  function LockEnd(cfg: Config, locked: NodeObject): int
    requires cfg.update.lockAnnotation in locked.annotations
    requires locked.annotations[cfg.update.lockAnnotation].Stamp?
  {
    locked.annotations[cfg.update.lockAnnotation].instant
  }

  lemma NothingToDo(cfg: Config, t: int, nodes: Cluster, locked: NodeObject, free: seq<NodeObject>)
    requires cfg.reading.Remaining? && Outdating(cfg, t, nodes, locked, free)
    ensures NoneOver(cfg, [locked] + free, t) && forall node <- [locked] + free :: !BanIsOver(cfg, node, t)
  {
    hide BanIsOver, Plain, DistinctNames, Current, Keyed;
    forall node <- [locked] + free ensures node == locked || node in free {
    }
  }

  lemma Apart(cfg: Config, t: int, nodes: Cluster, locked: NodeObject, free: seq<NodeObject>)
    requires Outdating(cfg, t, nodes, locked, free)
    ensures locked.name !in Names(free) && Shows(free, nodes) && Ticks.TakenUp(cfg, locked)
    ensures locked.name in nodes && nodes[locked.name] == locked
    ensures nodes.Keys == {locked.name} + Names(free) && |nodes| == |free| + 1
  {
    hide BanIsOver, Ticks.TakenUp, Limit.HasLive, Free, DistinctNames, Names;
    var view := [locked] + free;
    TailNames(view);
    assert view[1..] == free && view[0] == locked && locked in view;
    CurrentNames(view, nodes);
    NamesSize(view);
    assert |nodes.Keys| == |nodes|;
    forall node <- free ensures node in view {
    }
  }

  // ---- the tick ----

  /** A tick from idle to the loop over candidates; the guard is at `guard`. */
  lemma StartPhase(cfg: Config, w: World, t: int, nodes: Cluster, locked: NodeObject, free: seq<NodeObject>)
      returns (more: seq<Happening>, guard: nat)
    requires cfg.reading.Remaining? && cfg.update.limit > 1 && Outdating(cfg, t, nodes, locked, free)
    requires w == Site(Update, t, nodes, map[], Rest(Idle))
    ensures SmoothFrom(more, 0) && guard + 2 <= |more| && Onward(more[..guard + 2], more)
    ensures Leads(cfg, w, more[..guard], Site(Update, t, nodes, Restored(cfg, Update, locked), Rest(Synced)))
    ensures Leads(cfg, w, more[..guard + 1], Site(Update, t, nodes, Restored(cfg, Update, locked), Rest(Entered)))
    ensures Leads(cfg, w, more, Site(Update, t, nodes, Restored(cfg, Update, locked), Head(UpdateRun, [locked] + free)))
  {
    hide Leads, Step, LocalStep, Current, DistinctNames, Restored, BanIsOver, Ticks.TakenUp, NoneOver, Plain, Smooth;
    var view, locks := [locked] + free, Restored(cfg, Update, locked);
    Apart(cfg, t, nodes, locked, free);
    NothingToDo(cfg, t, nodes, locked, free);
    RestoreSteps(cfg, Update, t, locked, free);
    CollectStep(cfg, t, view, locks);
    CollectIsSmooth(t, view);
    more := AutoPhase(cfg, w, t, nodes, view);
    more := RestorePhase(cfg, w, more, Update, t, nodes, locked, free);
    more, guard := CleanedPhase(cfg, w, more, Update, t, nodes, view, free, locks);
    var before, entered, guarded := more[..guard], more[..guard + 1], more[..guard + 2];
    more := Do(cfg, w, more, Update, t, t, nodes, locks, Rest(Place.Cleaned), Collected(view, Names(view), 0, true),
               locks, Head(UpdateRun, view));
    assert more[..guard] == before && more[..guard + 1] == entered && more[..guard + 2] == guarded;
  }

  /** The locked node is updated; its entry stays as it is. */
  lemma RenewPhase(cfg: Config, w: World, hs: seq<Happening>, t: int, nodes: Cluster, locked: NodeObject, free: seq<NodeObject>)
      returns (more: seq<Happening>)
    requires cfg.reading.Remaining? && cfg.update.limit > 1 && Outdating(cfg, t, nodes, locked, free)
    requires Leads(cfg, w, hs, Site(Update, t, nodes, Restored(cfg, Update, locked), Head(UpdateRun, [locked] + free)))
    ensures Onward(hs, more)
    ensures Leads(cfg, w, more, Site(Update, t, nodes[locked.name := AfterUpdate(cfg, locked, t)], Restored(cfg, Update, locked),
                                     Head(UpdateRun, free)))
  {
    hide Leads, Current, DistinctNames, BanIsOver, Ticks.TakenUp, NoneOver, Plain, AfterUpdate;
    Apart(cfg, t, nodes, locked, free);
    RestoreSteps(cfg, Update, t, locked, free);
    assert locked in [locked] + free;
    more := UpdateOne(cfg, w, hs, t, nodes, locked, free, Restored(cfg, Update, locked));
    assert WithLock(cfg, Update, cfg.update.lockDuration, Restored(cfg, Update, locked), locked.name, t)
           == Restored(cfg, Update, locked);
  }

  lemma EntryIsOver(cfg: Config, locked: NodeObject, t: int, later: int)
    requires Limit.HasLive(cfg, Update, locked, t) && LockEnd(cfg, locked) < later
    ensures Sweep(Restored(cfg, Update, locked), later) == map[]
  {
  }

  lemma AfterRenewal(cfg: Config, t: int, nodes: Cluster, locked: NodeObject, free: seq<NodeObject>)
    requires cfg.reading.Remaining? && Outdating(cfg, t, nodes, locked, free) && |free| <= cfg.update.limit
    ensures Queued(cfg, nodes[locked.name := AfterUpdate(cfg, locked, t)], free, map[]) && Whole(nodes, locked, free)
  {
    hide AfterUpdate, BanIsOver, Limit.HasLive, Ticks.TakenUp, DistinctNames;
    Apart(cfg, t, nodes, locked, free);
    forall node <- free ensures Ticks.TakenUp(cfg, node) {
      assert node in [locked] + free;
    }
    forall node <- free ensures node.name in Names(free) {
    }
  }

  // ---- the locks that the run makes ----

  /** From the guard on, the entry of the node stays as it is. */
  ghost predicate Unchanged(w: World, name: string, until: int) {
    var j := w.update;
    j.stage == Rest(Idle)
    || ((RunStage(j.stage) || j.stage == Rest(Synced)) && name in j.locks && j.locks[name].expiry == At(until))
  }

  lemma StepUnchanged(cfg: Config, w: World, h: Happening, next: World, name: string, until: int)
    requires Orderly(cfg, w) && WorldStep(cfg, w, h) == Some(next) && Unchanged(w, name, until) && h.at <= until
    requires h.what.ByJob? && !h.what.event.Swept? && (h.what.event.Listed? ==> w.update.stage != Rest(Idle))
    ensures Unchanged(next, name, until) && name !in Limit.NewEntry(Update, false, w, next)
  {
    hide Step, EventEffect, Tidy, Proper, Keyed, RunStage, Limit.KeepsItems;
    Limit.IdleIsNoRun();
    if h.what.kind.Update? {
      var e := h.what.event;
      if RunStage(w.update.stage) {
        Limit.ItemsStay(cfg, Update, h.at, w.update, e, next.update);
        StepProceeds(cfg, Update, h.at, w.update, e, next.update);
        NothingRemoved(cfg, h.at, w.update, e, next.update, name);
      } else {
        RestSteps(cfg, h.at, w.update, e, next.update);
      }
    }
  }

  lemma NothingRemoved(cfg: Config, at: int, j: Job, e: Event, next: Job, name: string)
    requires Proper(cfg, Update, j.stage) && !e.Swept? && Limit.KeepsItems(j, Limit.Removes(j, e, at), next, at)
    requires name in j.locks && !Expired(j.locks[name].expiry, at)
    ensures next.stage == Rest(Idle) || (name in next.locks && next.locks[name] == j.locks[name])
  {
    hide IsLockChange, HealthOf;
  }

  lemma RestSteps(cfg: Config, at: int, j: Job, e: Event, next: Job)
    requires Step(cfg, Update, at, j, e) == Some(next) && !e.Swept?
    requires j.stage == Rest(Synced) || (j.stage == Rest(Idle) && !e.Listed?)
    ensures j.stage == Rest(Synced) && next.locks == j.locks && (RunStage(next.stage) || next.stage == Rest(Idle))
    ensures next.stage.Rest?
  {
  }

  /** The update job has the lock back at `r`, and up to k nothing is swept, and no list is taken but that of Cleanup: the run
      has not made the entry of the node. */
  lemma {:induction false} NotMade(cfg: Config, ws: seq<World>, hs: seq<Happening>, r: nat, k: nat, name: string, until: int)
    requires Behaviour(cfg, ws, hs) && r <= k <= |hs| && ws[r].update.stage == Rest(Synced)
    requires Unchanged(ws[r], name, until) && ws[k].now <= until
    requires forall i :: r <= i < k ==> hs[i].what.ByJob? && !hs[i].what.event.Swept?
    requires forall i :: r + 2 <= i < k ==> !hs[i].what.event.Listed?
    requires r + 1 <= |hs| ==> ws[r + 1].update.stage != Rest(Idle)
    ensures Unchanged(ws[k], name, until) && (k > r ==> name !in Limit.EntriesOf(Update, false, ws, k))
    decreases k
  {
    hide WorldStep, Unchanged, RunStage, Limit.NewEntry;
    if k > r {
      ClockRuns(cfg, ws, hs, k - 1, k);
      NotMade(cfg, ws, hs, r, k - 1, name, until);
      AlwaysOrderly(cfg, ws, hs, k - 1);
      assert HappensAt(cfg, ws, hs, k - 1);
      Instant(cfg, ws[k - 1], hs[k - 1], ws[k]);
      StepUnchanged(cfg, ws[k - 1], hs[k - 1], ws[k], name, until);
      if k == r + 1 {
        NoRun(ws[r].update.stage);
      }
    }
  }

  lemma NoRun(stage: Stage)
    requires stage == Rest(Synced)
    ensures !RunStage(stage)
  {
  }

  lemma Instant(cfg: Config, w: World, h: Happening, next: World)
    requires WorldStep(cfg, w, h) == Some(next)
    ensures next.now == h.at
  {
    hide Step, EventEffect, OutsideEffect;
  }

  // ---- more live locks than the limit ----

  lemma LivesBefore(cfg: Config, t: int, nodes: Cluster, locked: NodeObject, free: seq<NodeObject>)
    requires Outdating(cfg, t, nodes, locked, free)
    ensures var w := Site(Update, t, nodes, map[], Rest(Idle)); Starts(w) && Limit.LiveLocks(cfg, Update, w) == {locked.name}
  {
    hide BanIsOver, Plain;
    Apart(cfg, t, nodes, locked, free);
    forall name | name in nodes && name != locked.name ensures cfg.update.lockAnnotation !in nodes[name].annotations {
      assert nodes[name] in [locked] + free && nodes[name].name == name;
      assert nodes[name] in free;
    }
  }

  /** The guard is at r, and the sweep at s. */
  lemma SweepIsAssumed(cfg: Config, ws: seq<World>, hs: seq<Happening>, r: nat, s: nat, t: int, nodes: Cluster,
                       after: Cluster, locked: NodeObject, todo: seq<NodeObject>)
    requires Behaviour(cfg, ws, hs) && Lively(ws, hs) && r + 2 <= s < |hs| && Limit.HasLive(cfg, Update, locked, t)
    requires ws[r] == Site(Update, t, nodes, Restored(cfg, Update, locked), Rest(Synced))
    requires ws[s] == Site(Update, t, after, Restored(cfg, Update, locked), Head(UpdateRun, todo))
    requires ws[r + 1].update.stage != Rest(Idle)
    requires forall k :: 0 <= k < |hs| && k != s ==> Smooth(hs[k])
    requires forall k :: r + 2 <= k < s ==> hs[k].what.ByJob? && !hs[k].what.event.Listed?
    ensures Limit.AllAssumed(cfg, Update, ws, hs)
  {
    hide Limit.Assumed, Limit.Harmless, Limit.EntriesOf, HappensAt, Starts, Lively, Unchanged;
    AtTheGuard(cfg, t, nodes, locked);
    NotMade(cfg, ws, hs, r, s, locked.name, LockEnd(cfg, locked));
    forall k | 0 <= k < |hs|
      ensures Limit.Assumed(cfg, Update, ws[k], hs[k])
      ensures Limit.Harmless(cfg, Update, Limit.EntriesOf(Update, false, ws, k), ws[k], hs[k]) {
      LivelyAssumed(cfg, Update, ws, hs, k);
      if k == s {
        OnlyTheLocked(cfg, ws[s], hs[s], locked, Limit.EntriesOf(Update, false, ws, s));
      }
    }
  }

  lemma AtTheGuard(cfg: Config, t: int, nodes: Cluster, locked: NodeObject)
    requires Limit.HasLive(cfg, Update, locked, t)
    ensures Unchanged(Site(Update, t, nodes, Restored(cfg, Update, locked), Rest(Synced)), locked.name, LockEnd(cfg, locked))
  {
  }

  lemma OnlyTheLocked(cfg: Config, w: World, h: Happening, locked: NodeObject, entries: set<string>)
    requires locked.name !in entries && cfg.update.lockAnnotation in locked.annotations
    requires locked.annotations[cfg.update.lockAnnotation].Stamp? && w.update.locks == Restored(cfg, Update, locked)
    ensures Limit.Harmless(cfg, Update, entries, w, h)
  {
    hide Limit.Needed;
  }

  lemma QuietUpTo(first: seq<Happening>, second: seq<Happening>, hs: seq<Happening>, from: nat)
    requires from <= |first| && Onward(first[..from], first) && Onward(first, second) && second <= hs
    ensures forall k :: from <= k < |second| ==> hs[k].what.ByJob? && !hs[k].what.event.Listed?
  {
    hide Smooth;
  }

  /** A node with a live lock, as many without as the limit, which is two or more, and all of them outdated. At t, the locked
      node is updated; the janitor sweeps later, when the entry is over but the new annotation is not; and then the others
      are updated. All lists are current, no call fails, the run has made no entry that is swept, and in the end there is one
      live lock too many. */
  lemma RenewedLockBreaksLimit(cfg: Config, t: int, later: int, nodes: Cluster, locked: NodeObject, free: seq<NodeObject>)
      returns (ws: seq<World>, hs: seq<Happening>, s: nat)
    requires cfg.DistinctAnnotations() && cfg.reading.Remaining? && cfg.update.limit > 1
    requires Outdating(cfg, t, nodes, locked, free) && |free| == cfg.update.limit
    requires LockEnd(cfg, locked) < later < Rfc3339(t + cfg.update.lockDuration).instant
    requires later < Rfc3339(later + cfg.update.lockDuration).instant
    ensures Behaviour(cfg, ws, hs) && Lively(ws, hs) && ws[0] == Site(Update, t, nodes, map[], Rest(Idle))
    ensures s < |hs| && hs[s] == By(Update, later, Swept, false) && forall k :: 0 <= k < |hs| && k != s ==> Smooth(hs[k])
    ensures Limit.AllAssumed(cfg, Update, ws, hs) && Limit.LiveLocks(cfg, Update, ws[0]) == {locked.name}
    ensures |Limit.LiveLocks(cfg, Update, ws[|hs|])| == cfg.update.limit + 1
  {
    hide Leads, Limit.LiveLocks, Starts, Lively, HappensAt, AfterUpdate, Restored, Smooth, Limit.AllAssumed, Plain, Current,
         DistinctNames, Free, BanIsOver, Queued, Sweep, Whole;
    var w, end, r := Site(Update, t, nodes, map[], Rest(Idle)), Site(Update, t, nodes, map[], Rest(Idle)), 0;
    LivesBefore(cfg, t, nodes, locked, free);
    hs, r := StartPhase(cfg, w, t, nodes, locked, free);
    var guard, entered, started := hs[..r], hs[..r + 1], hs;
    hs := RenewPhase(cfg, w, hs, t, nodes, locked, free);
    s := |hs|;
    var renewed := hs;
    EntryIsOver(cfg, locked, t, later);
    AfterRenewal(cfg, t, nodes, locked, free);
    hs, end := SweptPhase(cfg, w, hs, t, t, later, nodes, locked, free, Restored(cfg, Update, locked));
    ws := Replayed(cfg, w, hs, end);
    assert hs[..r] == guard && hs[..r + 1] == entered && hs[..s] == renewed && hs[..|hs|] == hs;
    QuietUpTo(started, renewed, hs, r + 2);
    SweepIsAssumed(cfg, ws, hs, r, s, t, nodes, nodes[locked.name := AfterUpdate(cfg, locked, t)], locked, free);
  }

  /** Some behaviour gets from that cluster above the limit, although no sweep harms an entry that a run has made. */
  ghost predicate CanBreak(cfg: Config, t: int, nodes: Cluster) {
    exists ws, hs :: BreaksFrom(cfg, t, nodes, ws, hs)
  }

  ghost predicate BreaksFrom(cfg: Config, t: int, nodes: Cluster, ws: seq<World>, hs: seq<Happening>) {
    && Behaviour(cfg, ws, hs) && ws[0] == Site(Update, t, nodes, map[], Rest(Idle)) && Limit.AllAssumed(cfg, Update, ws, hs)
    && |Limit.LiveLocks(cfg, Update, ws[0])| <= cfg.update.limit < |Limit.LiveLocks(cfg, Update, ws[|hs|])|
  }

  /** Renewed locks can break the limit of the update job exactly if it is not one. */
  lemma RenewedLocksBreakLimitIff(cfg: Config, t: int, later: int, nodes: Cluster, locked: NodeObject, free: seq<NodeObject>)
    requires cfg.DistinctAnnotations() && cfg.reading.Remaining? && cfg.update.limit > 0
    requires Outdating(cfg, t, nodes, locked, free) && |free| == cfg.update.limit
    requires LockEnd(cfg, locked) < later < Rfc3339(t + cfg.update.lockDuration).instant
    requires later < Rfc3339(later + cfg.update.lockDuration).instant
    ensures CanBreak(cfg, t, nodes) <==> cfg.update.limit != 1
  {
    hide Plain, Free, BanIsOver, Current, Limit.LiveLocks, Limit.AllAssumed, HappensAt, Starts, Lively, Smooth, DistinctNames;
    if cfg.update.limit > 1 {
      var ws, hs, s := RenewedLockBreaksLimit(cfg, t, later, nodes, locked, free);
      assert BreaksFrom(cfg, t, nodes, ws, hs);
    } else if CanBreak(cfg, t, nodes) {
      var ws, hs :| BreaksFrom(cfg, t, nodes, ws, hs);
      UpdateLocksWithinLimit(cfg, ws, hs, |hs|);
    }
  }
}

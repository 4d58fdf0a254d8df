/** The parts of a tick of the update job, played in a cluster of any size while the repair job sleeps. */
module UpdateCrowds {
  import opened Options
  import opened JsonPatch
  import opened Nodes
  import opened Settings
  import opened TimedCaches
  import opened Provisioning
  import opened Jobs
  import opened World
  import opened Plays
  import opened Crowds
  import Ticks
  import Limit = LockLimit

  // ---- one node is updated and locked ----

  /** Drained, outside of a dry run. */
  function Closed(cfg: Config, node: NodeObject): NodeObject {
    if cfg.drain.enable && !cfg.drain.dryRun then Ticks.WithMark(cfg, node).(unschedulable := true) else Ticks.WithMark(cfg, node)
  }

  /** Schedulable again. */
  function Opened(cfg: Config, node: NodeObject): NodeObject {
    if cfg.drain.dryRun then Closed(cfg, node) else Closed(cfg, node).(unschedulable := false)
  }

  function Unmarked(cfg: Config, node: NodeObject): NodeObject {
    var back := Opened(cfg, node);
    back.(annotations := back.annotations - {cfg.ongoingAnnotation})
  }

  lemma UnmarkedLocked(cfg: Config, node: NodeObject, t: int)
    ensures AfterUpdate(cfg, node, t) ==
            Unmarked(cfg, node).(annotations := Unmarked(cfg, node).annotations + LockOn(cfg, Update, cfg.update.lockDuration, t))
    ensures Unmarked(cfg, node).name == node.name
  {
    hide MarkValues, LockOn;
  }

  lemma MarkSteps(cfg: Config, t: int, node: NodeObject, rest: seq<NodeObject>, locks: Cache<bool>)
    requires Ticks.TakenUp(cfg, node) && |locks| < cfg.update.limit
    ensures LocalStep(cfg, Update, t, Job(locks, Head(UpdateRun, [node] + rest))) == Some(Job(locks, Busy(Marking, node, rest)))
    ensures Step(cfg, Update, t, Job(locks, Busy(Marking, node, rest)), Patch(node.name, Set(MarkValues(cfg)), true)) ==
            Some(Job(locks, Busy(Inspecting, node, rest)))
    ensures Step(cfg, Update, t, Job(locks, Busy(Inspecting, node, rest)), AzureGet(node.name, true, None)) ==
            Some(Job(locks, Busy(Ticks.DrainOrUpdate(cfg), node, rest)))
  {
    hide Parsed, MarkValues;
    assert ([node] + rest)[1..] == rest;
  }

  lemma MarkPhase(cfg: Config, w: World, hs: seq<Happening>, t: int, nodes: Cluster, node: NodeObject,
                  rest: seq<NodeObject>, locks: Cache<bool>) returns (more: seq<Happening>)
    requires Leads(cfg, w, hs, Site(Update, t, nodes, locks, Head(UpdateRun, [node] + rest)))
    requires Ticks.TakenUp(cfg, node) && |locks| < cfg.update.limit && node.name in nodes && nodes[node.name] == node
    ensures Onward(hs, more)
    ensures Leads(cfg, w, more, Site(Update, t, nodes[node.name := Ticks.WithMark(cfg, node)], locks,
                                     Busy(Ticks.DrainOrUpdate(cfg), node, rest)))
  {
    hide Leads, Step, LocalStep, Ticks.TakenUp, MarkValues;
    MarkSteps(cfg, t, node, rest, locks);
    more := Decide(cfg, w, hs, Update, t, nodes, locks, Head(UpdateRun, [node] + rest), locks, Busy(Marking, node, rest));
    more := Write(cfg, w, more, Update, t, nodes, locks, Busy(Marking, node, rest), Set(MarkValues(cfg)),
                  Busy(Inspecting, node, rest), Ticks.WithMark(cfg, node));
    more := Do(cfg, w, more, Update, t, t, nodes[node.name := Ticks.WithMark(cfg, node)], locks, Busy(Inspecting, node, rest),
               AzureGet(node.name, true, None), locks, Busy(Ticks.DrainOrUpdate(cfg), node, rest));
  }

  /** A successful drain or uncordon. */
  lemma Close(cfg: Config, w: World, hs: seq<Happening>, t: int, nodes: Cluster, locks: Cache<bool>, stage: Stage,
              e: Event, on: bool, stage1: Stage, after: NodeObject) returns (more: seq<Happening>)
    requires Leads(cfg, w, hs, Site(Update, t, nodes, locks, stage))
    requires (e.Drain? && on) || (e.Uncordon? && !on)
    requires e.ok && e.name in nodes && Step(cfg, Update, t, Job(locks, stage), e) == Some(Job(locks, stage1))
    requires after == if cfg.drain.dryRun then nodes[e.name] else nodes[e.name].(unschedulable := on)
    ensures Onward(hs, more) && Leads(cfg, w, more, Site(Update, t, nodes[e.name := after], locks, stage1))
  {
    hide Leads, Step;
    var h := By(Update, t, e, !cfg.drain.dryRun);
    assert cfg.drain.dryRun ==> nodes[e.name := after] == nodes;
    more := hs + [h];
    One(cfg, w, hs, Site(Update, t, nodes, locks, stage), h, Site(Update, t, nodes[e.name := after], locks, stage1));
  }

  lemma DrainSteps(cfg: Config, t: int, node: NodeObject, rest: seq<NodeObject>, locks: Cache<bool>)
    ensures Step(cfg, Update, t, Job(locks, Busy(Draining(false), node, rest)), Drain(node.name, cfg.drain.disableEviction, true)) ==
            Some(Job(locks, Busy(Updating, node, rest)))
    ensures Step(cfg, Update, t, Job(locks, Busy(Uncordoning, node, rest)), Uncordon(node.name, true)) ==
            Some(Job(locks, Busy(Unmarking, node, rest)))
  {
  }

  lemma AzureSteps(cfg: Config, t: int, node: NodeObject, rest: seq<NodeObject>, locks: Cache<bool>)
    ensures Step(cfg, Update, t, Job(locks, Busy(Updating, node, rest)), AzureAct(node.name, UpdateInstances, true)) ==
            Some(Job(locks, Busy(if DoReimage(cfg) then Redeploying else Uncordoning, node, rest)))
    ensures Step(cfg, Update, t, Job(locks, Busy(Redeploying, node, rest)), AzureAct(node.name, Redeploy, true)) ==
            Some(Job(locks, Busy(Uncordoning, node, rest)))
  {
    hide DoReimage;
  }

  /** Drain, update and redeploy. */
  lemma AzurePhase(cfg: Config, w: World, hs: seq<Happening>, t: int, nodes: Cluster, node: NodeObject,
                   rest: seq<NodeObject>, locks: Cache<bool>) returns (more: seq<Happening>)
    requires node.name in nodes && nodes[node.name] == Ticks.WithMark(cfg, node)
    requires Leads(cfg, w, hs, Site(Update, t, nodes, locks, Busy(Ticks.DrainOrUpdate(cfg), node, rest)))
    ensures Onward(hs, more)
    ensures Leads(cfg, w, more, Site(Update, t, nodes[node.name := Closed(cfg, node)], locks, Busy(Uncordoning, node, rest)))
  {
    hide Leads, Step, DoReimage, Ticks.WithMark;
    AzureSteps(cfg, t, node, rest, locks);
    DrainSteps(cfg, t, node, rest, locks);
    var nodes1 := nodes[node.name := Closed(cfg, node)];
    more := hs;
    if cfg.drain.enable {
      more := Close(cfg, w, more, t, nodes, locks, Busy(Draining(false), node, rest),
                    Drain(node.name, cfg.drain.disableEviction, true), true, Busy(Updating, node, rest), Closed(cfg, node));
    } else {
      assert nodes1 == nodes;
    }
    more := Do(cfg, w, more, Update, t, t, nodes1, locks, Busy(Updating, node, rest), AzureAct(node.name, UpdateInstances, true),
               locks, Busy(if DoReimage(cfg) then Redeploying else Uncordoning, node, rest));
    if DoReimage(cfg) {
      more := Do(cfg, w, more, Update, t, t, nodes1, locks, Busy(Redeploying, node, rest), AzureAct(node.name, Redeploy, true),
                 locks, Busy(Uncordoning, node, rest));
    }
  }

  lemma UnmarkSteps(cfg: Config, t: int, node: NodeObject, rest: seq<NodeObject>, locks: Cache<bool>)
    ensures Step(cfg, Update, t, Job(locks, Busy(Unmarking, node, rest)), Patch(node.name, Drop({cfg.ongoingAnnotation}), true)) ==
            Some(Job(locks, Busy(Locking(cfg.update.lockDuration, true), node, rest)))
    ensures LocalStep(cfg, Update, t, Job(locks, Busy(Locking(cfg.update.lockDuration, true), node, rest))) ==
            Some(Job(WithLock(cfg, Update, cfg.update.lockDuration, locks, node.name, t),
                     Busy(Stamping(cfg.update.lockDuration), node, rest)))
  {
    hide Added;
  }

  lemma UnmarkEffect(cfg: Config, node: NodeObject)
    ensures Effect(Opened(cfg, node).annotations, Drop({cfg.ongoingAnnotation})) == Applied(Unmarked(cfg, node).annotations)
    ensures Opened(cfg, node).name == node.name == Unmarked(cfg, node).name == Closed(cfg, node).name
    ensures Unmarked(cfg, node) == Opened(cfg, node).(annotations := Unmarked(cfg, node).annotations)
  {
  }

  /** Uncordon, unmark, and the lock in the cache. */
  lemma OpenPhase(cfg: Config, w: World, hs: seq<Happening>, t: int, nodes: Cluster, node: NodeObject,
                  rest: seq<NodeObject>, locks: Cache<bool>) returns (more: seq<Happening>)
    requires node.name in nodes && nodes[node.name] == Closed(cfg, node)
    requires Leads(cfg, w, hs, Site(Update, t, nodes, locks, Busy(Uncordoning, node, rest)))
    ensures Onward(hs, more)
    ensures Leads(cfg, w, more, Site(Update, t, nodes[node.name := Unmarked(cfg, node)],
                                     WithLock(cfg, Update, cfg.update.lockDuration, locks, node.name, t),
                                     Busy(Stamping(cfg.update.lockDuration), node, rest)))
  {
    hide Leads, Step, LocalStep, Effect, Closed, Unmarked, WithLock, DoReimage;
    DrainSteps(cfg, t, node, rest, locks);
    UnmarkSteps(cfg, t, node, rest, locks);
    UnmarkEffect(cfg, node);
    var back, unmarked := nodes[node.name := Opened(cfg, node)], nodes[node.name := Unmarked(cfg, node)];
    more := Close(cfg, w, hs, t, nodes, locks, Busy(Uncordoning, node, rest), Uncordon(node.name, true), false,
                  Busy(Unmarking, node, rest), Opened(cfg, node));
    more := Write(cfg, w, more, Update, t, back, locks, Busy(Unmarking, node, rest), Drop({cfg.ongoingAnnotation}),
                  Busy(Locking(cfg.update.lockDuration, true), node, rest), Unmarked(cfg, node));
    assert back[node.name := Unmarked(cfg, node)] == unmarked;
    more := Decide(cfg, w, more, Update, t, unmarked, locks, Busy(Locking(cfg.update.lockDuration, true), node, rest),
                   WithLock(cfg, Update, cfg.update.lockDuration, locks, node.name, t),
                   Busy(Stamping(cfg.update.lockDuration), node, rest));
  }

  /** The first node is updated and locked in the cache. */
  lemma UpdateUpToLock(cfg: Config, w: World, hs: seq<Happening>, t: int, nodes: Cluster, node: NodeObject,
                       rest: seq<NodeObject>, locks: Cache<bool>) returns (more: seq<Happening>)
    requires Leads(cfg, w, hs, Site(Update, t, nodes, locks, Head(UpdateRun, [node] + rest)))
    requires Ticks.TakenUp(cfg, node) && |locks| < cfg.update.limit && node.name in nodes && nodes[node.name] == node
    ensures Onward(hs, more)
    ensures Leads(cfg, w, more, Site(Update, t, nodes[node.name := Unmarked(cfg, node)],
                                     WithLock(cfg, Update, cfg.update.lockDuration, locks, node.name, t),
                                     Busy(Stamping(cfg.update.lockDuration), node, rest)))
  {
    hide Leads, Ticks.TakenUp, Ticks.WithMark, Closed, Opened, Unmarked, WithLock, Smooth;
    var nodes1, nodes2 := nodes[node.name := Ticks.WithMark(cfg, node)], nodes[node.name := Closed(cfg, node)];
    more := MarkPhase(cfg, w, hs, t, nodes, node, rest, locks);
    more := AzurePhase(cfg, w, more, t, nodes1, node, rest, locks);
    assert nodes1[node.name := Closed(cfg, node)] == nodes2;
    more := OpenPhase(cfg, w, more, t, nodes2, node, rest, locks);
    assert nodes2[node.name := Unmarked(cfg, node)] == nodes[node.name := Unmarked(cfg, node)];
  }

  /** The first node is updated and locked. */
  lemma UpdateOne(cfg: Config, w: World, hs: seq<Happening>, t: int, nodes: Cluster, node: NodeObject,
                  rest: seq<NodeObject>, locks: Cache<bool>) returns (more: seq<Happening>)
    requires Leads(cfg, w, hs, Site(Update, t, nodes, locks, Head(UpdateRun, [node] + rest)))
    requires Ticks.TakenUp(cfg, node) && |locks| < cfg.update.limit && node.name in nodes && nodes[node.name] == node
    ensures Onward(hs, more)
    ensures Leads(cfg, w, more, Site(Update, t, nodes[node.name := AfterUpdate(cfg, node, t)],
                                     WithLock(cfg, Update, cfg.update.lockDuration, locks, node.name, t), Head(UpdateRun, rest)))
  {
    hide Leads, Ticks.TakenUp, Unmarked, WithLock, LockOn, AfterUpdate, WriteCall, Smooth;
    var locks1, dur := WithLock(cfg, Update, cfg.update.lockDuration, locks, node.name, t), cfg.update.lockDuration;
    var nodes1 := nodes[node.name := Unmarked(cfg, node)];
    UnmarkedLocked(cfg, node, t);
    more := UpdateUpToLock(cfg, w, hs, t, nodes, node, rest, locks);
    more := StampPhase(cfg, w, more, Update, t, t, nodes1, node, rest, locks1, dur, AfterUpdate(cfg, node, t));
    assert nodes1[node.name := AfterUpdate(cfg, node, t)] == nodes[node.name := AfterUpdate(cfg, node, t)];
  }

  // ---- all nodes are ----

  /** These nodes are candidates, and the limit lets them all through. */
  ghost predicate Queued(cfg: Config, nodes: Cluster, view: seq<NodeObject>, locks: Cache<bool>) {
    && Shows(view, nodes) && (forall node <- view :: Ticks.TakenUp(cfg, node))
    && locks.Keys !! Names(view) && |locks| + |view| <= cfg.update.limit
  }

  lemma FirstQueued(cfg: Config, t: int, nodes: Cluster, view: seq<NodeObject>, locks: Cache<bool>)
    requires view != [] && Queued(cfg, nodes, view, locks)
    ensures Ticks.TakenUp(cfg, view[0]) && view[0].name !in locks && |locks| < cfg.update.limit
    ensures view[0].name in nodes && nodes[view[0].name] == view[0] && DistinctNames(view)
  {
    hide Ticks.TakenUp, DistinctNames;
    assert view[0] in view && view[0].name in Names(view);
  }

  lemma QueuedNext(cfg: Config, t: int, nodes: Cluster, view: seq<NodeObject>, locks: Cache<bool>, locks1: Cache<bool>)
    requires view != [] && Queued(cfg, nodes, view, locks)
    requires locks1.Keys == locks.Keys + {view[0].name} && |locks1| == |locks| + 1
    ensures Queued(cfg, nodes[view[0].name := AfterUpdate(cfg, view[0], t)], view[1..], locks1)
  {
    hide Ticks.TakenUp, AfterUpdate, DistinctNames;
    DoneName(cfg, UpdatedAt(t), view[0]);
    ShowsNext(view, nodes, AfterUpdate(cfg, view[0], t));
    FirstOfNames(view);
  }

  /** One node after the other, within the limit. */
  lemma {:induction false} UpdateAll(cfg: Config, w: World, hs: seq<Happening>, t: int, nodes: Cluster,
                                     view: seq<NodeObject>, locks: Cache<bool>)
      returns (more: seq<Happening>, after: Cluster, held: Cache<bool>)
    requires Leads(cfg, w, hs, Site(Update, t, nodes, locks, Head(UpdateRun, view))) && Queued(cfg, nodes, view, locks)
    ensures Continued(hs, more) && Leads(cfg, w, more, Site(Update, t, after, held, Head(UpdateRun, [])))
    ensures DoneTo(cfg, UpdatedAt(t), nodes, view, after)
    decreases |view|
  {
    hide Leads, Queued, AfterUpdate, DoneTo, WithLock, Smooth, DistinctNames, Ticks.TakenUp;
    more, after, held := hs, nodes, locks;
    if view == [] {
      NothingDone(cfg, UpdatedAt(t), nodes);
    } else {
      var node := view[0];
      var locks1 := WithLock(cfg, Update, cfg.update.lockDuration, locks, node.name, t);
      FirstQueued(cfg, t, nodes, view, locks);
      LockedOne(cfg, Update, cfg.update.lockDuration, locks, node.name, t);
      QueuedNext(cfg, t, nodes, view, locks, locks1);
      assert view == [node] + view[1..];
      more := UpdateOne(cfg, w, hs, t, nodes, node, view[1..], locks);
      more, after, held := UpdateAll(cfg, w, more, t, nodes[node.name := AfterUpdate(cfg, node, t)], view[1..], locks1);
      DoneNext(cfg, UpdatedAt(t), nodes, view, after);
    }
  }

  // ---- the way to the run ----

  /** Neither excluded nor ongoing. */
  predicate Plain(cfg: Config, view: seq<NodeObject>) {
    forall node <- view :: Ticks.TakenUp(cfg, node) && !Ongoing(cfg, node)
  }

  lemma {:induction false} AllCandidates(cfg: Config, view: seq<NodeObject>, outdated: set<string>)
    requires Plain(cfg, view) && Names(view) <= outdated
    ensures FirstOngoing(cfg, view) == None && Updatable(cfg, view, outdated) == view
  {
    hide Parsed;
    if view != [] {
      assert view[0] in view && view[0].name in Names(view);
      assert Names(view[1..]) <= Names(view);
      AllCandidates(cfg, view[1..], outdated);
      assert view == [view[0]] + view[1..];
    }
  }

  lemma CollectStep(cfg: Config, t: int, view: seq<NodeObject>, locks: Cache<bool>)
    requires Plain(cfg, view) && DistinctNames(view) && view != []
    ensures Step(cfg, Update, t, Job(locks, Rest(Place.Cleaned)), Collected(view, Names(view), 0, true)) ==
            Some(Job(locks, Head(UpdateRun, view)))
  {
    hide FirstOngoing, Updatable, Parsed, Excluded, Ongoing, Names;
    AllCandidates(cfg, view, Names(view));
    assert view[0] in view;
  }

  /** No lock to be uncordoned: none at all, or one that is live. */
  predicate NoneOver(cfg: Config, view: seq<NodeObject>, t: int) {
    forall node <- view :: !Outdated(Check(cfg, node, cfg.update.lockAnnotation, t))
  }

  lemma AutoStep(cfg: Config, t: int, view: seq<NodeObject>, locks: Cache<bool>)
    requires view != [] && !Outdated(Check(cfg, view[0], cfg.update.lockAnnotation, t))
    ensures LocalStep(cfg, Update, t, Job(locks, Head(AutoUncordon, view))) == Some(Job(locks, Head(AutoUncordon, view[1..])))
  {
    hide Check;
  }

  /** autoUncordonExpiredNodes finds nothing to do. */
  lemma {:induction false} AutoAll(cfg: Config, w: World, hs: seq<Happening>, t: int, nodes: Cluster, view: seq<NodeObject>,
                                   locks: Cache<bool>) returns (more: seq<Happening>)
    requires Leads(cfg, w, hs, Site(Update, t, nodes, locks, Head(AutoUncordon, view))) && NoneOver(cfg, view, t)
    ensures Continued(hs, more) && Leads(cfg, w, more, Site(Update, t, nodes, locks, Head(AutoUncordon, [])))
    decreases |view|
  {
    hide Leads, LocalStep, Check;
    more := hs;
    if view != [] {
      AutoStep(cfg, t, view, locks);
      more := Decide(cfg, w, hs, Update, t, nodes, locks, Head(AutoUncordon, view), locks, Head(AutoUncordon, view[1..]));
      more := AutoAll(cfg, w, more, t, nodes, view[1..], locks);
    }
  }

  lemma AutoSteps(cfg: Config, t: int, view: seq<NodeObject>)
    requires DistinctNames(view)
    ensures Step(cfg, Update, t, FRESH_JOB, Listed(view)) == Some(Job(map[], Head(AutoUncordon, view)))
    ensures LocalStep(cfg, Update, t, Job(map[], Head(AutoUncordon, []))) == Some(Job(map[], Rest(AutoDone)))
    ensures Step(cfg, Update, t, Job(map[], Rest(AutoDone)), Listed(view)) == Some(Job(map[], Head(Sync, view)))
  {
  }

  /** A tick up to the rebuilding of the cache. */
  lemma AutoPhase(cfg: Config, w: World, t: int, nodes: Cluster, view: seq<NodeObject>) returns (more: seq<Happening>)
    requires w == Site(Update, t, nodes, map[], Rest(Idle)) && Current(view, nodes) && DistinctNames(view)
    requires NoneOver(cfg, view, t)
    ensures SmoothFrom(more, 0) && Leads(cfg, w, more, Site(Update, t, nodes, map[], Head(Sync, view)))
  {
    hide Leads, Step, LocalStep, Current, DistinctNames, NoneOver;
    AutoSteps(cfg, t, view);
    Nothing(cfg, w);
    more := Do(cfg, w, [], Update, t, t, nodes, map[], Rest(Idle), Listed(view), map[], Head(AutoUncordon, view));
    more := AutoAll(cfg, w, more, t, nodes, view, map[]);
    more := Decide(cfg, w, more, Update, t, nodes, map[], Head(AutoUncordon, []), map[], Rest(AutoDone));
    more := Do(cfg, w, more, Update, t, t, nodes, map[], Rest(AutoDone), Listed(view), map[], Head(Sync, view));
  }

  lemma CollectIsSmooth(t: int, view: seq<NodeObject>)
    ensures Smooth(By(Update, t, Collected(view, Names(view), 0, true), false))
  {
  }

  // ---- one node is updated, and after a sweep the others ----

  /** The nodes of the cluster, the first one apart. */
  ghost predicate Whole(nodes: Cluster, node: NodeObject, rest: seq<NodeObject>) {
    && nodes.Keys == {node.name} + Names(rest) && |nodes| == |rest| + 1
    && node.name in nodes && nodes[node.name] == node
  }

  /** The first node was updated at t. The sweep leaves nothing in the cache, and the others are updated later. */
  lemma SweptPhase(cfg: Config, w: World, hs: seq<Happening>, start: int, t: int, later: int, nodes: Cluster,
                   node: NodeObject, rest: seq<NodeObject>, locks: Cache<bool>) returns (more: seq<Happening>, end: World)
    requires cfg.DistinctAnnotations() && Whole(nodes, node, rest) && start <= later && Sweep(locks, later) == map[]
    requires Queued(cfg, nodes[node.name := AfterUpdate(cfg, node, t)], rest, map[])
    requires later < Rfc3339(t + cfg.update.lockDuration).instant
    requires later < Rfc3339(later + cfg.update.lockDuration).instant
    requires Leads(cfg, w, hs, Site(Update, start, nodes[node.name := AfterUpdate(cfg, node, t)], locks, Head(UpdateRun, rest)))
    ensures hs + [By(Update, later, Swept, false)] <= more && SmoothFrom(more, |hs| + 1)
    ensures Leads(cfg, w, more, end) && |Limit.LiveLocks(cfg, Update, end)| == |rest| + 1
  {
    hide Leads, Limit.LiveLocks, AfterUpdate, Queued, DoneTo, Smooth, LocalStep, ListedStep, AnswerStep, CollectedStep, Sweep;
    var first, after, held := nodes[node.name := AfterUpdate(cfg, node, t)], nodes, NO_LOCKS;
    more := Do(cfg, w, hs, Update, start, later, first, locks, Head(UpdateRun, rest), Swept, map[], Head(UpdateRun, rest));
    more, after, held := UpdateAll(cfg, w, more, later, first, rest, map[]);
    end := Site(Update, later, after, held, Head(UpdateRun, []));
    UpdatedLives(cfg, node, t, later);
    LivesAfter(cfg, Update, later, first, node.name, rest, end);
  }
}

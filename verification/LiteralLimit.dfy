/**
 The limit over time with the check as written: every tick takes live locks for outdated and takes them off, so it may
 repair as many other nodes as the limit says.
 */
module LiteralLimit {
  import opened Options
  import opened JsonPatch
  import opened Nodes
  import opened Settings
  import opened TimedCaches
  import opened SetSizes
  import opened Jobs
  import opened World
  import opened Plays
  import opened Crowds
  import opened TakenLocks
  import Ticks
  import Window = LockWindow
  import Limit = LockLimit
  import opened LockSwept

  // ---- clusters of two groups ----

  /** The nodes of the cluster are those of the two lists, once each. */
  ghost predicate Parts(nodes: Cluster, a: seq<NodeObject>, b: seq<NodeObject>) {
    && Keyed(nodes) && Shows(a, nodes) && Shows(b, nodes)
    && Names(a) !! Names(b) && nodes.Keys == Names(a) + Names(b)
  }

  lemma PartsCurrent(nodes: Cluster, a: seq<NodeObject>, b: seq<NodeObject>)
    requires Parts(nodes, a, b)
    ensures Current(a + b, nodes) && DistinctNames(a + b) && Parts(nodes, b, a)
  {
    forall i, j | 0 <= i < j < |a + b| ensures (a + b)[i].name != (a + b)[j].name {
      if i < |a| <= j {
        assert a[i] in a && b[j - |a|] in b;
        assert a[i].name in Names(a) && b[j - |a|].name in Names(b);
      }
    }
    forall name <- nodes ensures nodes[name] in a + b {
      if name in Names(a) {
        var node :| node in a && node.name == name;
      } else {
        var node :| node in b && node.name == name;
      }
    }
    forall node <- a + b ensures node in a || node in b {
    }
  }

  lemma EachNames(cfg: Config, deed: Deed, a: seq<NodeObject>)
    ensures Names(Each(cfg, deed, a)) == Names(a)
    ensures DistinctNames(a) ==> DistinctNames(Each(cfg, deed, a))
  {
    hide AfterDeed;
    var after := Each(cfg, deed, a);
    forall i | 0 <= i < |a| ensures after[i].name == a[i].name {
      DoneName(cfg, deed, a[i]);
    }
    forall node <- a ensures node.name in Names(after) {
      var i :| 0 <= i < |a| && a[i] == node;
      assert after[i] in after;
    }
    forall node <- after ensures node.name in Names(a) {
      var i :| 0 <= i < |a| && after[i] == node;
      assert a[i] in a;
    }
  }

  lemma PartsNext(cfg: Config, deed: Deed, nodes: Cluster, a: seq<NodeObject>, b: seq<NodeObject>, after: Cluster)
    requires Parts(nodes, a, b) && DoneTo(cfg, deed, nodes, a, after)
    ensures Parts(after, Each(cfg, deed, a), b)
  {
    hide AfterDeed, DistinctNames;
    EachNames(cfg, deed, a);
    forall name <- after ensures after[name].name == name {
      DoneName(cfg, deed, nodes[name]);
    }
    forall node <- Each(cfg, deed, a) ensures node.name in after && after[node.name] == node {
      var i :| 0 <= i < |a| && AfterDeed(cfg, deed, a[i]) == node;
      DoneName(cfg, deed, a[i]);
      assert a[i] in a && a[i].name in Names(a);
    }
    forall node <- b ensures node.name in after && after[node.name] == node {
      assert node.name in Names(b);
    }
  }

  // ---- at the limit ----

  lemma PassSteps(cfg: Config, t: int, todo: seq<NodeObject>, locks: Cache<bool>)
    requires todo != [] && Ticks.UpForRepair(cfg, todo[0], t) && todo[0].name !in locks
    requires 0 < cfg.repair.limit <= |locks|
    ensures var node, rest := todo[0], todo[1..];
            && LocalStep(cfg, Repair, t, Job(locks, Head(RepairRun, todo))) == Some(Job(locks, Busy(Due, node, rest)))
            && LocalStep(cfg, Repair, t, Job(locks, Busy(Due, node, rest))) == Some(Job(locks, Busy(Unlocked, node, rest)))
            && LocalStep(cfg, Repair, t, Job(locks, Busy(Unlocked, node, rest))) == Some(Job(locks, Head(RepairRun, rest)))
  {
    hide HealthOf, Overdue, Parsed;
  }

  /** The limit is reached. */
  lemma {:induction false} PassAll(cfg: Config, w: World, hs: seq<Happening>, t: int, nodes: Cluster, todo: seq<NodeObject>,
                                   locks: Cache<bool>) returns (more: seq<Happening>)
    requires Leads(cfg, w, hs, Site(Repair, t, nodes, locks, Head(RepairRun, todo)))
    requires forall node <- todo :: Ticks.UpForRepair(cfg, node, t) && node.name !in locks
    requires 0 < cfg.repair.limit <= |locks|
    ensures Continued(hs, more) && Leads(cfg, w, more, Site(Repair, t, nodes, locks, Head(RepairRun, [])))
    decreases |todo|
  {
    hide Leads, LocalStep, Ticks.UpForRepair;
    more := hs;
    if todo != [] {
      var node, rest := todo[0], todo[1..];
      PassSteps(cfg, t, todo, locks);
      more := Decide(cfg, w, more, Repair, t, nodes, locks, Head(RepairRun, todo), locks, Busy(Due, node, rest));
      more := Decide(cfg, w, more, Repair, t, nodes, locks, Busy(Due, node, rest), locks, Busy(Unlocked, node, rest));
      more := Decide(cfg, w, more, Repair, t, nodes, locks, Busy(Unlocked, node, rest), locks, Head(RepairRun, rest));
      more := PassAll(cfg, w, more, t, nodes, rest, locks);
    }
  }

  // ---- the first tick ----

  /** Two groups of broken nodes without locks; nothing is to be cleaned up. */
  ghost predicate Wards(cfg: Config, t: int, nodes: Cluster, first: seq<NodeObject>, second: seq<NodeObject>) {
    && Parts(nodes, first, second) && Free(cfg, Repair, first + second, t)
    && forall node <- first + second :: Ticks.UpForRepair(cfg, node, t)
  }

  lemma WardsReady(cfg: Config, t: int, nodes: Cluster, first: seq<NodeObject>, second: seq<NodeObject>)
    requires Wards(cfg, t, nodes, first, second) && |first| <= cfg.repair.limit
    ensures Ready(cfg, t, nodes, first, map[]) && (forall node <- second :: node.name in Names(second))
    ensures forall node <- second :: Ticks.UpForRepair(cfg, node, t)
  {
    hide Ticks.UpForRepair, BanIsOver, DistinctNames, Keyed;
    assert forall node <- first :: node in first + second;
    assert forall node <- second :: node in first + second;
  }

  /** The first tick up to the loop over nodes. */
  lemma FirstSync(cfg: Config, w: World, t: int, nodes: Cluster, first: seq<NodeObject>, second: seq<NodeObject>)
      returns (more: seq<Happening>)
    requires Wards(cfg, t, nodes, first, second) && cfg.repair.limit > 0 && w == Site(Repair, t, nodes, map[], Rest(Idle))
    ensures SmoothFrom(more, 0) && Leads(cfg, w, more, Site(Repair, t, nodes, map[], Head(RepairRun, first + second)))
  {
    hide Leads, Step, LocalStep, Parts, Current, DistinctNames, Free, Ticks.UpForRepair, Smooth, BanIsOver;
    var view, guard := first + second, 0;
    PartsCurrent(nodes, first, second);
    ListSteps(cfg, t, view, map[]);
    FreeBans(cfg, t, view);
    ListIsSmooth(t, view);
    assert Sweep(NO_LOCKS, t) == NO_LOCKS;
    Nothing(cfg, w);
    more := Do(cfg, w, [], Repair, t, t, nodes, map[], Rest(Idle), Listed(view), map[], Head(Sync, view));
    more, guard := CleanedPhase(cfg, w, more, Repair, t, nodes, view, view, map[]);
    more := Do(cfg, w, more, Repair, t, t, nodes, map[], Rest(Place.Cleaned), Listed(view), map[], Head(RepairRun, view));
  }

  /** The first tick repairs the first group, and then the limit is reached. */
  lemma FirstTick(cfg: Config, w: World, t: int, nodes: Cluster, first: seq<NodeObject>, second: seq<NodeObject>)
      returns (more: seq<Happening>, after: Cluster, held: Cache<bool>)
    requires Wards(cfg, t, nodes, first, second) && |first| == cfg.repair.limit > 0
    requires w == Site(Repair, t, nodes, map[], Rest(Idle))
    ensures SmoothFrom(more, 0) && Leads(cfg, w, more, Site(Repair, t, after, held, Rest(Idle)))
    ensures DoneTo(cfg, RepairedAt(t), nodes, first, after) && AllActedOn(cfg, t, first, more)
  {
    hide Leads, LocalStep, Parts, Free, Ready, DoneTo, AllActedOn, Ticks.UpForRepair, Smooth, Names;
    WardsReady(cfg, t, nodes, first, second);
    more := FirstSync(cfg, w, t, nodes, first, second);
    more, after, held := RepairAll(cfg, w, more, t, nodes, first, second, map[]);
    var repaired := more;
    EndStep(cfg, t, held);
    OthersFree(nodes, first, second, held.Keys);
    more := PassAll(cfg, w, more, t, after, second, held);
    more := Decide(cfg, w, more, Repair, t, after, held, Head(RepairRun, []), held, Rest(Idle));
    StillAllActedOn(cfg, t, first, repaired, more);
  }

  lemma EndStep(cfg: Config, t: int, locks: Cache<bool>)
    ensures LocalStep(cfg, Repair, t, Job(locks, Head(RepairRun, []))) == Some(Job(locks, Rest(Idle)))
  {
  }

  lemma OthersFree(nodes: Cluster, first: seq<NodeObject>, second: seq<NodeObject>, keys: set<string>)
    requires Parts(nodes, first, second) && keys == Names(first)
    ensures forall node <- second :: node.name !in keys
  {
    hide Keyed, DistinctNames;
    forall node <- second ensures node.name !in keys {
      assert node.name in Names(second);
    }
  }

  lemma FreeBans(cfg: Config, t: int, view: seq<NodeObject>)
    requires Free(cfg, Repair, view, t)
    ensures forall node <- view :: !BanIsOver(cfg, node, t)
  {
    hide BanIsOver;
  }

  lemma StillAllActedOn(cfg: Config, t: int, view: seq<NodeObject>, hs: seq<Happening>, more: seq<Happening>)
    requires AllActedOn(cfg, t, view, hs) && hs <= more
    ensures AllActedOn(cfg, t, view, more)
  {
    hide ActedOn;
    forall node <- view ensures ActedOn(cfg, t, node, more) {
      StillActedOn(cfg, t, node, hs, more);
    }
  }

  // ---- the second tick ----

  /** The lock is taken for outdated. */
  predicate LockIsOver(cfg: Config, node: NodeObject, t: int) {
    Outdated(Check(cfg, node, cfg.repair.lockAnnotation, t)) && cfg.repair.lockAnnotation in node.annotations
  }

  lemma DropSteps(cfg: Config, t: int, todo: seq<NodeObject>, locks: Cache<bool>)
    requires todo != [] && LockIsOver(cfg, todo[0], t)
    ensures var node, rest, change := todo[0], todo[1..], Drop({cfg.repair.lockAnnotation});
            && LocalStep(cfg, Repair, t, Job(locks, Head(Sync, todo))) == Some(Job(locks, Busy(Dropping, node, rest)))
            && Step(cfg, Repair, t, Job(locks, Busy(Dropping, node, rest)), Patch(node.name, change, true)) ==
               Some(Job(locks, Head(Sync, rest)))
            && Effect(node.annotations, change) == Applied(AfterDeed(cfg, LockRemoved, node).annotations)
            && AfterDeed(cfg, LockRemoved, node) == node.(annotations := AfterDeed(cfg, LockRemoved, node).annotations)
  {
  }

  /** syncNodeLockCache takes all these locks off. */
  lemma {:induction false} DropAll(cfg: Config, w: World, hs: seq<Happening>, t: int, nodes: Cluster, todo: seq<NodeObject>,
                                   locks: Cache<bool>) returns (more: seq<Happening>, after: Cluster)
    requires Leads(cfg, w, hs, Site(Repair, t, nodes, locks, Head(Sync, todo))) && Shows(todo, nodes)
    requires forall node <- todo :: LockIsOver(cfg, node, t)
    ensures Continued(hs, more) && Leads(cfg, w, more, Site(Repair, t, after, locks, Head(Sync, [])))
    ensures DoneTo(cfg, LockRemoved, nodes, todo, after)
    decreases |todo|
  {
    hide Leads, Step, LocalStep, LockIsOver, Effect, AfterDeed, Shows, DoneTo, DistinctNames, Smooth;
    more, after := hs, nodes;
    if todo == [] {
      NothingDone(cfg, LockRemoved, nodes);
    } else {
      var node, rest := todo[0], todo[1..];
      var done := AfterDeed(cfg, LockRemoved, node);
      DropSteps(cfg, t, todo, locks);
      NextDone(cfg, LockRemoved, todo, nodes);
      more := Decide(cfg, w, more, Repair, t, nodes, locks, Head(Sync, todo), locks, Busy(Dropping, node, rest));
      more := Write(cfg, w, more, Repair, t, nodes, locks, Busy(Dropping, node, rest), Drop({cfg.repair.lockAnnotation}),
                    Head(Sync, rest), done);
      more, after := DropAll(cfg, w, more, t, nodes[node.name := done], rest, locks);
      DoneNext(cfg, LockRemoved, nodes, todo, after);
    }
  }

  lemma NextDone(cfg: Config, deed: Deed, view: seq<NodeObject>, nodes: Cluster)
    requires view != [] && Shows(view, nodes)
    ensures AfterDeed(cfg, deed, view[0]).name == view[0].name && DistinctNames(view)
    ensures view[0].name in nodes && nodes[view[0].name] == view[0]
    ensures Shows(view[1..], nodes[view[0].name := AfterDeed(cfg, deed, view[0])]) && Shows(view[1..], nodes)
  {
    hide AfterDeed;
    DoneName(cfg, deed, view[0]);
    ShowsNext(view, nodes, AfterDeed(cfg, deed, view[0]));
  }

  lemma LiftSteps(cfg: Config, t: int, todo: seq<NodeObject>, locks: Cache<bool>)
    requires todo != [] && (BanIsOver(cfg, todo[0], t) ==> Ticks.Paired(todo[0]))
    ensures var node, rest, change := todo[0], todo[1..], Drop({SCALE_DOWN_EXPIRE, SCALE_DOWN_DISABLED});
            && LocalStep(cfg, Repair, t, Job(locks, Head(Cleanup, todo))) ==
               Some(Job(locks, if BanIsOver(cfg, node, t) then Busy(CleanDropping, node, rest) else Head(Cleanup, rest)))
            && Step(cfg, Repair, t, Job(locks, Busy(CleanDropping, node, rest)), Patch(node.name, change, true)) ==
               Some(Job(locks, Head(Cleanup, rest)))
            && (BanIsOver(cfg, node, t) ==>
                  Effect(node.annotations, change) == Applied(AfterDeed(cfg, CleanedUpAt(t), node).annotations))
            && (!BanIsOver(cfg, node, t) ==> AfterDeed(cfg, CleanedUpAt(t), node) == node)
            && AfterDeed(cfg, CleanedUpAt(t), node) == node.(annotations := AfterDeed(cfg, CleanedUpAt(t), node).annotations)
  {
  }

  /** Cleanup lifts the bans that are over. */
  lemma {:induction false} LiftAll(cfg: Config, w: World, hs: seq<Happening>, t: int, nodes: Cluster, todo: seq<NodeObject>,
                                   locks: Cache<bool>) returns (more: seq<Happening>, after: Cluster)
    requires Leads(cfg, w, hs, Site(Repair, t, nodes, locks, Head(Cleanup, todo))) && Shows(todo, nodes)
    requires forall node <- todo :: BanIsOver(cfg, node, t) ==> Ticks.Paired(node)
    ensures Continued(hs, more) && Leads(cfg, w, more, Site(Repair, t, after, locks, Head(Cleanup, [])))
    ensures DoneTo(cfg, CleanedUpAt(t), nodes, todo, after)
    decreases |todo|
  {
    hide Leads, Step, LocalStep, BanIsOver, Ticks.Paired, Effect, AfterDeed, Shows, DoneTo, DistinctNames, Smooth;
    more, after := hs, nodes;
    if todo == [] {
      NothingDone(cfg, CleanedUpAt(t), nodes);
    } else {
      var node, rest := todo[0], todo[1..];
      var done := AfterDeed(cfg, CleanedUpAt(t), node);
      LiftSteps(cfg, t, todo, locks);
      NextDone(cfg, CleanedUpAt(t), todo, nodes);
      if BanIsOver(cfg, node, t) {
        more := Decide(cfg, w, more, Repair, t, nodes, locks, Head(Cleanup, todo), locks, Busy(CleanDropping, node, rest));
        more := Write(cfg, w, more, Repair, t, nodes, locks, Busy(CleanDropping, node, rest),
                      Drop({SCALE_DOWN_EXPIRE, SCALE_DOWN_DISABLED}), Head(Cleanup, rest), done);
      } else {
        more := Decide(cfg, w, more, Repair, t, nodes, locks, Head(Cleanup, todo), locks, Head(Cleanup, rest));
        assert nodes[node.name := done] == nodes;
      }
      more, after := LiftAll(cfg, w, more, t, nodes[node.name := done], rest, locks);
      DoneNext(cfg, CleanedUpAt(t), nodes, todo, after);
    }
  }

  /** As the second tick finds the two groups: the locks of the first are taken for outdated, and the second is as before. */
  ghost predicate Relapsed(cfg: Config, t: int, nodes: Cluster, first: seq<NodeObject>, second: seq<NodeObject>) {
    && Parts(nodes, second, first) && Free(cfg, Repair, second, t)
    && (forall node <- first :: LockIsOver(cfg, node, t))
    && (forall node <- first :: Ticks.Paired(AfterDeed(cfg, LockRemoved, node)))
    && forall node <- second :: Ticks.UpForRepair(cfg, node, t)
  }

  lemma PartsStay(cfg: Config, deed: Deed, nodes: Cluster, second: seq<NodeObject>, first: seq<NodeObject>, after: Cluster)
    requires Parts(nodes, second, first) && DoneTo(cfg, deed, nodes, first, after)
    ensures Parts(after, second, Each(cfg, deed, first))
    ensures Current(second + Each(cfg, deed, first), after) && DistinctNames(second + Each(cfg, deed, first))
    ensures Shows(Each(cfg, deed, first), after) && Shows(second, after) && Shows(first, nodes)
  {
    hide DoneTo;
    PartsCurrent(nodes, second, first);
    PartsNext(cfg, deed, nodes, first, second, after);
    PartsCurrent(after, Each(cfg, deed, first), second);
    PartsCurrent(after, second, Each(cfg, deed, first));
  }

  lemma PairedEach(cfg: Config, t: int, nodes: Cluster, first: seq<NodeObject>, second: seq<NodeObject>)
    requires Relapsed(cfg, t, nodes, first, second)
    ensures forall node <- Each(cfg, LockRemoved, first) :: Ticks.Paired(node)
  {
    hide Ticks.Paired, AfterDeed, LockIsOver, Ticks.UpForRepair, Parts, Free;
    forall node <- Each(cfg, LockRemoved, first) ensures Ticks.Paired(node) {
      var i :| 0 <= i < |first| && AfterDeed(cfg, LockRemoved, first[i]) == node;
      assert first[i] in first;
    }
  }

  /** The second tick up to Cleanup: the locks are taken off. */
  lemma SecondSync(cfg: Config, w: World, hs: seq<Happening>, start: int, t: int, nodes: Cluster, first: seq<NodeObject>,
                   second: seq<NodeObject>, held: Cache<bool>) returns (more: seq<Happening>, after: Cluster)
    requires Relapsed(cfg, t, nodes, first, second) && cfg.repair.limit > 0 && start <= t
    requires Leads(cfg, w, hs, Site(Repair, start, nodes, held, Rest(Idle)))
    ensures Continued(hs, more) && DoneTo(cfg, LockRemoved, nodes, first, after)
    ensures Leads(cfg, w, more, Site(Repair, t, after, map[], Head(Cleanup, second + Each(cfg, LockRemoved, first))))
  {
    hide Leads, Step, LocalStep, Parts, Current, DistinctNames, Shows, DoneTo, LockIsOver, Ticks.Paired, Ticks.UpForRepair, AfterDeed,
         Smooth, Free;
    var guard;
    PartsCurrent(nodes, second, first);
    ListSteps(cfg, t, second + first, held);
    ListIsSmooth(t, second + first);
    assert Sweep(NO_LOCKS, t) == NO_LOCKS;
    more := Do(cfg, w, hs, Repair, start, t, nodes, held, Rest(Idle), Listed(second + first), map[], Head(Sync, second + first));
    more := SyncAll(cfg, w, more, Repair, t, nodes, second, first, map[]);
    PartsShow(nodes, second, first);
    more, after := DropAll(cfg, w, more, t, nodes, first, map[]);
    PartsStay(cfg, LockRemoved, nodes, second, first, after);
    more, guard := GuardPhase(cfg, w, more, Repair, t, after, second + Each(cfg, LockRemoved, first), map[]);
  }

  lemma PartsShow(nodes: Cluster, a: seq<NodeObject>, b: seq<NodeObject>)
    requires Parts(nodes, a, b)
    ensures Shows(a, nodes) && Shows(b, nodes)
  {
  }

  /** The second tick: it repairs the second group. */
  lemma SecondTick(cfg: Config, w: World, hs: seq<Happening>, start: int, t: int, nodes: Cluster, first: seq<NodeObject>,
                   second: seq<NodeObject>, held: Cache<bool>) returns (more: seq<Happening>, end: World)
    requires Relapsed(cfg, t, nodes, first, second) && |second| <= cfg.repair.limit && cfg.repair.limit > 0 && start <= t
    requires Leads(cfg, w, hs, Site(Repair, start, nodes, held, Rest(Idle)))
    ensures Continued(hs, more) && Leads(cfg, w, more, end) && AllActedOn(cfg, t, second, more) && end.now == t
  {
    hide Leads, Step, LocalStep, Parts, Current, DistinctNames, Shows, DoneTo, LockIsOver, Ticks.Paired, Ticks.UpForRepair, AfterDeed,
         Smooth, Free, Ready, AllActedOn, BanIsOver;
    var freed, lifted, after, locks := Each(cfg, LockRemoved, first), nodes, nodes, held;
    more, after := SecondSync(cfg, w, hs, start, t, nodes, first, second, held);
    PartsStay(cfg, LockRemoved, nodes, second, first, after);
    PairedEach(cfg, t, nodes, first, second);
    FreeBans(cfg, t, second);
    more := CleanAll(cfg, w, more, Repair, t, after, second, freed, map[]);
    more, lifted := LiftAll(cfg, w, more, t, after, freed, map[]);
    PartsStay(cfg, CleanedUpAt(t), after, second, freed, lifted);
    var view := second + Each(cfg, CleanedUpAt(t), freed);
    ListSteps(cfg, t, view, map[]);
    CleanedStep(cfg, t);
    more := Decide(cfg, w, more, Repair, t, lifted, map[], Head(Cleanup, []), map[], Rest(Place.Cleaned));
    more := Do(cfg, w, more, Repair, t, t, lifted, map[], Rest(Place.Cleaned), Listed(view), map[], Head(RepairRun, view));
    ListIsSmooth(t, view);
    SecondReady(cfg, t, lifted, second);
    more, after, locks := RepairAll(cfg, w, more, t, lifted, second, Each(cfg, CleanedUpAt(t), freed), map[]);
    end := Site(Repair, t, after, locks, Head(RepairRun, Each(cfg, CleanedUpAt(t), freed)));
  }

  lemma CleanedStep(cfg: Config, t: int)
    ensures LocalStep(cfg, Repair, t, Job(map[], Head(Cleanup, []))) == Some(Job(map[], Rest(Place.Cleaned)))
  {
  }

  lemma SecondReady(cfg: Config, t: int, nodes: Cluster, second: seq<NodeObject>)
    requires Shows(second, nodes) && |second| <= cfg.repair.limit
    requires forall node <- second :: Ticks.UpForRepair(cfg, node, t)
    ensures Ready(cfg, t, nodes, second, map[])
  {
    hide Ticks.UpForRepair, DistinctNames;
  }

  // ---- both ticks ----

  lemma RelapsedNode(cfg: Config, node: NodeObject, t1: int, t2: int)
    requires cfg.DistinctAnnotations() && cfg.reading.Since? && Ticks.Paired(node)
    requires t2 <= Rfc3339(t1 + cfg.repair.lockDuration).instant
    ensures LockIsOver(cfg, AfterDeed(cfg, RepairedAt(t1), node), t2)
    ensures Ticks.Paired(AfterDeed(cfg, LockRemoved, AfterDeed(cfg, RepairedAt(t1), node)))
  {
    cfg.OwnNames();
    Window.LockValueOf(cfg.repair.lockAnnotation, cfg.repair.lockDuration, cfg.scaledownLockTime, t1, t1);
    LockValueKeys(cfg.repair.lockAnnotation, cfg.repair.lockDuration, cfg.scaledownLockTime, t1, t1);
    hide LockValuesAt;
  }

  lemma Relapse(cfg: Config, t1: int, t2: int, nodes: Cluster, first: seq<NodeObject>, second: seq<NodeObject>, after: Cluster)
    requires cfg.DistinctAnnotations() && cfg.reading.Since? && Wards(cfg, t1, nodes, first, second)
    requires t1 <= t2 <= Rfc3339(t1 + cfg.repair.lockDuration).instant
    requires (forall node <- first :: Ticks.Paired(node)) && forall node <- second :: !BanIsOver(cfg, node, t2)
    requires DoneTo(cfg, RepairedAt(t1), nodes, first, after)
    ensures Relapsed(cfg, t2, after, Each(cfg, RepairedAt(t1), first), second)
  {
    hide DoneTo, AfterDeed, BanIsOver, Ticks.UpForRepair, LockIsOver, Ticks.Paired, DistinctNames, Parts;
    var relocked := Each(cfg, RepairedAt(t1), first);
    PartsNext(cfg, RepairedAt(t1), nodes, first, second, after);
    PartsCurrent(after, relocked, second);
    forall node <- relocked
      ensures LockIsOver(cfg, node, t2) && Ticks.Paired(AfterDeed(cfg, LockRemoved, node)) {
      var i :| 0 <= i < |first| && AfterDeed(cfg, RepairedAt(t1), first[i]) == node;
      assert first[i] in first;
      RelapsedNode(cfg, first[i], t1, t2);
    }
    forall node <- second ensures node in first + second && Ticks.UpForRepair(cfg, node, t2) {
      Later(cfg, node, t1, t2);
    }
  }

  lemma WardsStart(cfg: Config, t: int, nodes: Cluster, first: seq<NodeObject>, second: seq<NodeObject>)
    requires Wards(cfg, t, nodes, first, second)
    ensures var w := Site(Repair, t, nodes, map[], Rest(Idle));
            Starts(w) && Limit.LiveLocks(cfg, Repair, w) == {} && AllSick(w)
    ensures |Names(first) + Names(second)| == |first| + |second|
  {
    hide BanIsOver, RepairCall, Parsed, HealthOf, DistinctNames;
    PartsCurrent(nodes, first, second);
    NamesSize(first);
    NamesSize(second);
    forall name | name in nodes ensures cfg.repair.lockAnnotation !in nodes[name].annotations {
      assert nodes[name] in first + second;
    }
  }

  lemma WriteTakes(cfg: Config, t: int, name: string, now: int)
    requires cfg.DistinctAnnotations() && now < Rfc3339(t + cfg.repair.lockDuration).instant
    ensures var h := WriteCall(cfg, Repair, cfg.repair.lockDuration, t, name); TakesLock(cfg, h, now) && LockedName(h) == name
  {
    cfg.OwnNames();
    Window.LockValueOf(cfg.repair.lockAnnotation, cfg.repair.lockDuration, cfg.scaledownLockTime, t, t);
    hide LockValuesAt;
  }

  lemma AllTaken(cfg: Config, t: int, view: seq<NodeObject>, hs: seq<Happening>, now: int)
    requires cfg.DistinctAnnotations() && now < Rfc3339(t + cfg.repair.lockDuration).instant && AllActedOn(cfg, t, view, hs)
    ensures Names(view) <= Taken(cfg, hs, now)
  {
    hide WriteCall, ActCall, RepairCall, TakesLock, LockedName;
    forall node <- view ensures node.name in Taken(cfg, hs, now) {
      assert ActedOn(cfg, t, node, hs);
      var h := WriteCall(cfg, Repair, cfg.repair.lockDuration, t, node.name);
      var k :| 0 <= k < |hs| && hs[k] == h;
      WriteTakes(cfg, t, node.name, now);
      IsTaken(cfg, hs, k, now);
    }
  }

  lemma NobodyElse(cfg: Config, ws: seq<World>, hs: seq<Happening>)
    requires |ws| == |hs| + 1 && Lively(ws, hs)
    ensures SparedUpTo(cfg, ws, hs, |hs|)
  {
    hide Taken, Informed;
  }

  /** As written, with two groups of broken nodes without locks, the first as large as the limit: a tick repairs and locks the
      first, and the next tick, at any time before these locks are over, the second. All lists are current, nothing fails,
      and all hypotheses of TakenLocks hold but for the reading. */
  lemma TicksBreakLimit(cfg: Config, t1: int, t2: int, nodes: Cluster, first: seq<NodeObject>, second: seq<NodeObject>)
      returns (ws: seq<World>, hs: seq<Happening>)
    requires cfg.DistinctAnnotations() && cfg.reading.Since? && Wards(cfg, t1, nodes, first, second)
    requires |first| == cfg.repair.limit > 0 && 0 < |second| <= cfg.repair.limit
    requires (forall node <- first :: Ticks.Paired(node)) && forall node <- second :: !BanIsOver(cfg, node, t2)
    requires t1 <= t2 < Rfc3339(t1 + cfg.repair.lockDuration).instant && t2 < Rfc3339(t2 + cfg.repair.lockDuration).instant
    ensures Behaviour(cfg, ws, hs) && Fair(ws, hs) && ws[0] == Site(Repair, t1, nodes, map[], Rest(Idle))
    ensures AllActedOn(cfg, t1, first, hs) && AllActedOn(cfg, t2, second, hs)
    ensures Limit.LiveLocks(cfg, Repair, ws[0]) == {} && SparedUpTo(cfg, ws, hs, |hs|)
    ensures Limit.AllAssumed(cfg, Repair, ws, hs) && Limit.AllKept(cfg, Repair, ws, hs)
    ensures |Taken(cfg, hs, ws[|hs|].now)| >= |first| + |second| > cfg.repair.limit
  {
    hide Leads, HappensAt, Starts, Fair, Limit.LiveLocks, Limit.AllAssumed, Limit.Kept, SparedUpTo, AllActedOn, Wards, Taken,
         DoneTo, Relapsed, Ticks.Paired, BanIsOver, AllSick;
    var w, after, held := Site(Repair, t1, nodes, map[], Rest(Idle)), nodes, NO_LOCKS;
    var end := w;
    WardsStart(cfg, t1, nodes, first, second);
    hs, after, held := FirstTick(cfg, w, t1, nodes, first, second);
    var before := hs;
    Relapse(cfg, t1, t2, nodes, first, second, after);
    hs, end := SecondTick(cfg, w, hs, t1, t2, after, Each(cfg, RepairedAt(t1), first), second, held);
    StillAllActedOn(cfg, t1, first, before, hs);
    AllTaken(cfg, t1, first, hs, t2);
    AllTaken(cfg, t2, second, hs, t2);
    SubsetSize(Names(first) + Names(second), Taken(cfg, hs, t2));
    ws := Replayed(cfg, w, hs, end);
    assert hs[..|hs|] == hs;
    FairWorlds(cfg, ws, hs);
  }

  lemma FairWorlds(cfg: Config, ws: seq<World>, hs: seq<Happening>)
    requires Behaviour(cfg, ws, hs) && Fair(ws, hs) && AllSick(ws[0])
    ensures SparedUpTo(cfg, ws, hs, |hs|) && Limit.AllAssumed(cfg, Repair, ws, hs) && Limit.AllKept(cfg, Repair, ws, hs)
  {
    hide Lively, Limit.Kept, HappensAt, Starts, Limit.AllAssumed, SparedUpTo, AllSick;
    NobodyElse(cfg, ws, hs);
    FairIsAssumed(cfg, ws, hs);
    NothingGivenUp(cfg, ws, hs);
  }
}

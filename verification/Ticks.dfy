/** The parts of a tick of either job, played in a cluster of one node with an empty lock cache. */
module Ticks {
  import opened Options
  import opened JsonPatch
  import opened Nodes
  import opened Settings
  import opened TimedCaches
  import opened Provisioning
  import opened Jobs
  import opened World
  import opened Plays

  /** Everything from there on is done by one job. */
  predicate OnlyBy(kind: Kind, hs: seq<Happening>, from: nat) {
    forall k :: from <= k < |hs| ==> hs[k].what.ByJob? && hs[k].what.kind == kind
  }

  function Resting(place: Place): Job {
    Job(NO_LOCKS, Rest(place))
  }

  // ---- the locks ----

  function Unlock(cfg: Config, kind: Kind, node: NodeObject): NodeObject {
    node.(annotations := node.annotations - {cfg.Job(kind).lockAnnotation})
  }

  /** The node has no lock of the job, or one that syncNodeLockCache takes off. */
  predicate NoneOrOutdated(cfg: Config, kind: Kind, node: NodeObject, now: int) {
    var check := Check(cfg, node, cfg.Job(kind).lockAnnotation, now);
    check.NoAnnotation? || Outdated(check)
  }

  lemma SyncSteps(cfg: Config, kind: Kind, t: int, node: NodeObject)
    requires NoneOrOutdated(cfg, kind, node, t)
    ensures var lock := cfg.Job(kind).lockAnnotation;
            LocalStep(cfg, kind, t, Job(NO_LOCKS, Head(Sync, [node]))) ==
            Some(Job(NO_LOCKS, if lock in node.annotations then Busy(Dropping, node, []) else Head(Sync, [])))
    ensures LocalStep(cfg, kind, t, Job(NO_LOCKS, Head(Sync, []))) == Some(Resting(Synced))
    ensures cfg.Job(kind).lockAnnotation !in node.annotations ==> Unlock(cfg, kind, node) == node
  {
    assert NO_LOCKS - {node.name} == NO_LOCKS;
    assert Sweep(NO_LOCKS, t) == NO_LOCKS;
    assert [node][1..] == [];
  }

  lemma DropStep(cfg: Config, kind: Kind, t: int, node: NodeObject)
    ensures Step(cfg, kind, t, Job(NO_LOCKS, Busy(Dropping, node, [])),
                 Patch(node.name, Drop({cfg.Job(kind).lockAnnotation}), true)) == Some(Job(NO_LOCKS, Head(Sync, [])))
  {
  }

  /** syncNodeLockCache */
  lemma SyncPhase(cfg: Config, w: World, hs: seq<Happening>, kind: Kind, start: int, t: int, node: NodeObject,
                  locks: Cache<bool>, other: Job) returns (more: seq<Happening>)
    requires Leads(cfg, w, hs, Scene(start, node, kind, Job(locks, Rest(Begin(kind))), other)) && start <= t
    requires NoneOrOutdated(cfg, kind, node, t)
    ensures OnlyBy(kind, more, |hs|)
    ensures Continued(hs, more) && Leads(cfg, w, more, Scene(t, Unlock(cfg, kind, node), kind, Resting(Synced), other))
  {
    hide Leads, LocalStep, Scene, Check;
    var lock := cfg.Job(kind).lockAnnotation;
    SyncSteps(cfg, kind, t, node);
    more := Call(cfg, w, hs, kind, start, t, node, Job(locks, Rest(Begin(kind))), other, Listed([node]),
                 Job(NO_LOCKS, Head(Sync, [node])));
    if lock in node.annotations {
      more := Inside(cfg, w, more, kind, t, t, node, Job(NO_LOCKS, Head(Sync, [node])), other,
                     Job(NO_LOCKS, Busy(Dropping, node, [])));
      DropStep(cfg, kind, t, node);
      more := Send(cfg, w, more, kind, t, node, Job(NO_LOCKS, Busy(Dropping, node, [])), other, Drop({lock}),
                   Job(NO_LOCKS, Head(Sync, [])), Unlock(cfg, kind, node));
    } else {
      more := Inside(cfg, w, more, kind, t, t, node, Job(NO_LOCKS, Head(Sync, [node])), other,
                     Job(NO_LOCKS, Head(Sync, [])));
    }
    more := Inside(cfg, w, more, kind, t, t, Unlock(cfg, kind, node), Job(NO_LOCKS, Head(Sync, [])), other, Resting(Synced));
  }

  // ---- Cleanup ----

  /** A scale-down ban with an expiry can be removed. */
  predicate Paired(node: NodeObject) {
    SCALE_DOWN_EXPIRE in node.annotations ==> SCALE_DOWN_DISABLED in node.annotations
  }

  function CleanedUp(cfg: Config, node: NodeObject, now: int): NodeObject {
    if BanIsOver(cfg, node, now) then node.(annotations := node.annotations - {SCALE_DOWN_EXPIRE, SCALE_DOWN_DISABLED})
    else node
  }

  lemma CleanSteps(cfg: Config, kind: Kind, t: int, node: NodeObject)
    ensures LocalStep(cfg, kind, t, Resting(Synced)) == Some(Resting(Entered))
    ensures LocalStep(cfg, kind, t, Job(NO_LOCKS, Head(Cleanup, [node]))) ==
            Some(Job(NO_LOCKS, if BanIsOver(cfg, node, t) then Busy(CleanDropping, node, []) else Head(Cleanup, [])))
    ensures LocalStep(cfg, kind, t, Job(NO_LOCKS, Head(Cleanup, []))) == Some(Resting(Place.Cleaned))
  {
    hide BanIsOver;
    assert [node][1..] == [];
  }

  lemma CleanDropStep(cfg: Config, kind: Kind, t: int, node: NodeObject)
    requires Paired(node) && BanIsOver(cfg, node, t)
    ensures var change := Drop({SCALE_DOWN_EXPIRE, SCALE_DOWN_DISABLED});
            && Step(cfg, kind, t, Job(NO_LOCKS, Busy(CleanDropping, node, [])), Patch(node.name, change, true)) ==
               Some(Job(NO_LOCKS, Head(Cleanup, [])))
            && Effect(node.annotations, change) == Applied(CleanedUp(cfg, node, t).annotations)
  {
  }

  /** The guard, and Cleanup up to its patch of a node whose ban is over. */
  lemma LookPhase(cfg: Config, w: World, hs: seq<Happening>, kind: Kind, t: int, node: NodeObject, other: Job)
      returns (more: seq<Happening>)
    requires Leads(cfg, w, hs, Scene(t, node, kind, Resting(Synced), other))
    ensures OnlyBy(kind, more, |hs|) && Continued(hs, more)
    ensures Leads(cfg, w, more, Scene(t, node, kind, Job(NO_LOCKS, if BanIsOver(cfg, node, t) then Busy(CleanDropping, node, [])
                                                                   else Head(Cleanup, [])), other))
  {
    hide Leads, LocalStep, Scene, BanIsOver;
    var looked := Job(NO_LOCKS, if BanIsOver(cfg, node, t) then Busy(CleanDropping, node, []) else Head(Cleanup, []));
    CleanSteps(cfg, kind, t, node);
    more := Inside(cfg, w, hs, kind, t, t, node, Resting(Synced), other, Resting(Entered));
    more := Call(cfg, w, more, kind, t, t, node, Resting(Entered), other, Listed([node]), Job(NO_LOCKS, Head(Cleanup, [node])));
    more := Inside(cfg, w, more, kind, t, t, node, Job(NO_LOCKS, Head(Cleanup, [node])), other, looked);
  }

  /** The guard, and Cleanup. */
  lemma CleanPhase(cfg: Config, w: World, hs: seq<Happening>, kind: Kind, t: int, node: NodeObject, other: Job)
      returns (more: seq<Happening>)
    requires Leads(cfg, w, hs, Scene(t, node, kind, Resting(Synced), other)) && (BanIsOver(cfg, node, t) ==> Paired(node))
    ensures OnlyBy(kind, more, |hs|)
    ensures Continued(hs, more) && Leads(cfg, w, more, Scene(t, CleanedUp(cfg, node, t), kind, Resting(Place.Cleaned), other))
  {
    hide Leads, LocalStep, Scene, BanIsOver, Paired;
    CleanSteps(cfg, kind, t, node);
    more := LookPhase(cfg, w, hs, kind, t, node, other);
    if BanIsOver(cfg, node, t) {
      CleanDropStep(cfg, kind, t, node);
      more := Send(cfg, w, more, kind, t, node, Job(NO_LOCKS, Busy(CleanDropping, node, [])), other,
                   Drop({SCALE_DOWN_EXPIRE, SCALE_DOWN_DISABLED}), Job(NO_LOCKS, Head(Cleanup, [])), CleanedUp(cfg, node, t));
    }
    more := Inside(cfg, w, more, kind, t, t, CleanedUp(cfg, node, t), Job(NO_LOCKS, Head(Cleanup, [])), other, Resting(Place.Cleaned));
  }

  // ---- repairRun ----

  /** A node that is up for repair at `now`, apart from locks. */
  predicate UpForRepair(cfg: Config, node: NodeObject, now: int) {
    && !cfg.dryRun && cfg.self != Some(node.name)
    && !HealthOf(node.conditions).ready && Overdue(cfg, node, now) && !node.unschedulable
    && Parsed(node).Info? && RepairCall(cfg, node).Some?
  }

  lemma RepairSteps(cfg: Config, t: int, node: NodeObject)
    requires UpForRepair(cfg, node, t)
    ensures LocalStep(cfg, Repair, t, Job(NO_LOCKS, Head(RepairRun, [node]))) == Some(Job(NO_LOCKS, Busy(Due, node, [])))
    ensures LocalStep(cfg, Repair, t, Job(NO_LOCKS, Busy(Due, node, []))) == Some(Job(NO_LOCKS, Busy(Unlocked, node, [])))
    ensures LocalStep(cfg, Repair, t, Job(NO_LOCKS, Busy(Unlocked, node, []))) ==
            Some(Job(NO_LOCKS, Busy(Checking, node, [])))
  {
    hide HealthOf, Overdue;
    assert [node][1..] == [];
  }

  /** repairRun takes its list, at position |hs|, and gets to its Azure call. */
  lemma RepairPhase(cfg: Config, w: World, hs: seq<Happening>, t: int, node: NodeObject, other: Job)
      returns (more: seq<Happening>)
    requires Leads(cfg, w, hs, Scene(t, node, Repair, Resting(Place.Cleaned), other)) && UpForRepair(cfg, node, t)
    ensures hs + [By(Repair, t, Listed([node]), false)] <= more && Continued(hs, more)
    ensures Leads(cfg, w, more, Scene(t, node, Repair, Job(NO_LOCKS, Busy(Acting, node, [])), other))
    ensures forall k :: |hs| < k < |more| ==>
              more[k].what.ByJob? && more[k].what.kind == Repair && (more[k].what.event.Local? || more[k].what.event.AzureGet?)
  {
    hide Leads, LocalStep, Scene, UpForRepair;
    RepairSteps(cfg, t, node);
    var due, unlocked := Job(NO_LOCKS, Busy(Due, node, [])), Job(NO_LOCKS, Busy(Unlocked, node, []));
    var checking := Job(NO_LOCKS, Busy(Checking, node, []));
    var listed := Job(NO_LOCKS, Head(RepairRun, [node]));
    more := Call(cfg, w, hs, Repair, t, t, node, Resting(Place.Cleaned), other, Listed([node]), listed);
    more := Inside(cfg, w, more, Repair, t, t, node, listed, other, due);
    more := Inside(cfg, w, more, Repair, t, t, node, due, other, unlocked);
    more := Inside(cfg, w, more, Repair, t, t, node, unlocked, other, checking);
    more := Call(cfg, w, more, Repair, t, t, node, checking, other, AzureGet(node.name, true, None),
                 Job(NO_LOCKS, Busy(Acting, node, [])));
  }

  // ---- the lock, and a whole tick of the repair job ----

  /** The node as it is after a tick that repaired it at `t`. */
  function Relock(cfg: Config, node: NodeObject, t: int): NodeObject {
    var found := CleanedUp(cfg, Unlock(cfg, Repair, node), t);
    found.(annotations := found.annotations + LockOf(cfg, t))
  }

  function LockOf(cfg: Config, t: int): Annotations {
    LockValues(cfg.repair.lockAnnotation, cfg.repair.lockDuration, cfg.scaledownLockTime, t)
  }

  function Locked(cfg: Config, name: string, t: int): Cache<bool> {
    Added(NO_LOCKS, name, true, cfg.repair.lockDuration, LOCK_LIFE, t)
  }

  /** The Azure call of a repair. */
  function AzureCallOn(cfg: Config, t: int, node: NodeObject): Happening
    requires RepairCall(cfg, node).Some?
  {
    By(Repair, t, AzureAct(node.name, RepairCall(cfg, node).value, true), false)
  }

  lemma ActStep(cfg: Config, t: int, node: NodeObject)
    requires RepairCall(cfg, node).Some?
    ensures Step(cfg, Repair, t, Job(NO_LOCKS, Busy(Acting, node, [])), AzureCallOn(cfg, t, node).what.event) ==
            Some(Job(NO_LOCKS, Busy(Locking(cfg.repair.lockDuration, true), node, [])))
  {
    hide RepairCall;
  }

  lemma LockSteps(cfg: Config, t: int, node: NodeObject)
    ensures var dur, locks := cfg.repair.lockDuration, Locked(cfg, node.name, t);
            && LocalStep(cfg, Repair, t, Job(NO_LOCKS, Busy(Locking(dur, true), node, []))) ==
               Some(Job(locks, Busy(Stamping(dur), node, [])))
            && LocalStep(cfg, Repair, t, Job(locks, Head(RepairRun, []))) == Some(Job(locks, Rest(Idle)))
  {
    hide Added;
  }

  /** The clock is read, and the lock is written. */
  lemma WriteSteps(cfg: Config, kind: Kind, dur: int, t: int, node: NodeObject, rest: seq<NodeObject>, locks: Cache<bool>)
    ensures var change := Set(LockValues(cfg.Job(kind).lockAnnotation, dur, cfg.scaledownLockTime, t));
            && Step(cfg, kind, t, Job(locks, Busy(Stamping(dur), node, rest)), Clock(node.name, t, t)) ==
               Some(Job(locks, Busy(Writing(change), node, rest)))
            && Step(cfg, kind, t, Job(locks, Busy(Writing(change), node, rest)), Patch(node.name, change, true)) ==
               Some(Job(locks, Head(Run(kind), rest)))
  {
    hide LockValuesAt;
  }

  /** The repair call, at position |hs|, and the lock that follows it. */
  lemma LockPhase(cfg: Config, w: World, hs: seq<Happening>, t: int, node: NodeObject, other: Job)
      returns (more: seq<Happening>)
    requires Leads(cfg, w, hs, Scene(t, node, Repair, Job(NO_LOCKS, Busy(Acting, node, [])), other))
    requires RepairCall(cfg, node).Some?
    ensures hs + [AzureCallOn(cfg, t, node)] <= more && Continued(hs, more)
    ensures Leads(cfg, w, more, Scene(t, node.(annotations := node.annotations + LockOf(cfg, t)), Repair,
                                      Job(Locked(cfg, node.name, t), Rest(Idle)), other))
  {
    hide Leads, Step, LocalStep, Scene, RepairCall, Added, LockValues;
    var dur, locks, change := cfg.repair.lockDuration, Locked(cfg, node.name, t), Set(LockOf(cfg, t));
    var after := node.(annotations := node.annotations + LockOf(cfg, t));
    ActStep(cfg, t, node);
    LockSteps(cfg, t, node);
    WriteSteps(cfg, Repair, dur, t, node, [], locks);
    var locking, stamping := Job(NO_LOCKS, Busy(Locking(dur, true), node, [])), Job(locks, Busy(Stamping(dur), node, []));
    var writing, done := Job(locks, Busy(Writing(change), node, [])), Job(locks, Head(RepairRun, []));
    more := Call(cfg, w, hs, Repair, t, t, node, Job(NO_LOCKS, Busy(Acting, node, [])), other,
                 AzureCallOn(cfg, t, node).what.event, locking);
    more := Inside(cfg, w, more, Repair, t, t, node, locking, other, stamping);
    more := Call(cfg, w, more, Repair, t, t, node, stamping, other, Clock(node.name, t, t), writing);
    more := Send(cfg, w, more, Repair, t, node, writing, other, change, done, after);
    more := Inside(cfg, w, more, Repair, t, t, after, done, other, Job(locks, Rest(Idle)));
  }

  lemma StillBroken(cfg: Config, node: NodeObject, t: int, later: int)
    requires UpForRepair(cfg, node, t) && t <= later && cfg.DistinctAnnotations() && Paired(node)
    ensures var free := Unlock(cfg, Repair, node);
            Paired(free) && UpForRepair(cfg, free, t) && UpForRepair(cfg, CleanedUp(cfg, free, t), t)
    ensures UpForRepair(cfg, Relock(cfg, node, t), later) && Paired(Relock(cfg, node, t))
    ensures RepairCall(cfg, CleanedUp(cfg, Unlock(cfg, Repair, node), t)) == RepairCall(cfg, node)
    ensures RepairCall(cfg, Relock(cfg, node, t)) == RepairCall(cfg, node)
  {
    cfg.OwnNames();
  }

  /** One tick repairs the node, at position `call`: it has no lock, or one that is taken for outdated. */
  lemma TickPhase(cfg: Config, w: World, hs: seq<Happening>, start: int, t: int, node: NodeObject, locks: Cache<bool>,
                  other: Job) returns (more: seq<Happening>, call: nat)
    requires Leads(cfg, w, hs, Scene(start, node, Repair, Job(locks, Rest(Idle)), other)) && start <= t
    requires UpForRepair(cfg, node, t) && NoneOrOutdated(cfg, Repair, node, t) && Paired(node) && cfg.DistinctAnnotations()
    ensures Continued(hs, more) && |hs| <= call < |more| && RepairCall(cfg, node).Some?
    ensures more[call] == AzureCallOn(cfg, t, node)
    ensures Leads(cfg, w, more, Scene(t, Relock(cfg, node, t), Repair, Job(Locked(cfg, node.name, t), Rest(Idle)), other))
  {
    hide Leads, Scene, CleanedUp, NoneOrOutdated, Paired, LockOf, Locked, RepairCall, HealthOf, Overdue, Parsed;
    StillBroken(cfg, node, t, t);
    var free := Unlock(cfg, Repair, node);
    var found := CleanedUp(cfg, free, t);
    CleanedName(cfg, free, t);
    more := SyncPhase(cfg, w, hs, Repair, start, t, node, locks, other);
    more := CleanPhase(cfg, w, more, Repair, t, free, other);
    more := RepairPhase(cfg, w, more, t, found, other);
    call := |more|;
    more := LockPhase(cfg, w, more, t, found, other);
  }

  lemma CleanedName(cfg: Config, node: NodeObject, t: int)
    ensures CleanedUp(cfg, node, t).name == node.name
  {
  }

  lemma RelockName(cfg: Config, node: NodeObject, t: int)
    ensures Relock(cfg, node, t).name == node.name
  {
  }

  // ---- the update job up to the Azure update ----

  /** A node the update job takes up, apart from its limit; its snapshot may be older than the cluster. */
  predicate TakenUp(cfg: Config, node: NodeObject) {
    && !cfg.dryRun && cfg.self != Some(node.name) && cfg.failedThreshold > 0
    && Parsed(node).Info? && !Excluded(cfg, node)
  }

  lemma AutoSteps(cfg: Config, t: int, node: NodeObject)
    requires cfg.update.lockAnnotation !in node.annotations
    ensures LocalStep(cfg, Update, t, Job(NO_LOCKS, Head(AutoUncordon, [node]))) ==
            Some(Job(NO_LOCKS, Head(AutoUncordon, [])))
    ensures LocalStep(cfg, Update, t, Job(NO_LOCKS, Head(AutoUncordon, []))) == Some(Resting(AutoDone))
  {
    assert [node][1..] == [];
  }

  /** autoUncordonExpiredNodes finds no lock. */
  lemma AutoPhase(cfg: Config, w: World, hs: seq<Happening>, start: int, t: int, node: NodeObject, other: Job)
      returns (more: seq<Happening>)
    requires Leads(cfg, w, hs, Scene(start, node, Update, Resting(Idle), other)) && start <= t
    requires cfg.update.lockAnnotation !in node.annotations
    ensures OnlyBy(Update, more, |hs|)
    ensures Continued(hs, more) && Leads(cfg, w, more, Scene(t, node, Update, Resting(AutoDone), other))
  {
    hide Leads, LocalStep, Scene;
    AutoSteps(cfg, t, node);
    more := Call(cfg, w, hs, Update, start, t, node, Resting(Idle), other, Listed([node]),
                 Job(NO_LOCKS, Head(AutoUncordon, [node])));
    more := Inside(cfg, w, more, Update, t, t, node, Job(NO_LOCKS, Head(AutoUncordon, [node])), other,
                   Job(NO_LOCKS, Head(AutoUncordon, [])));
    more := Inside(cfg, w, more, Update, t, t, node, Job(NO_LOCKS, Head(AutoUncordon, [])), other, Resting(AutoDone));
  }

  function WithMark(cfg: Config, node: NodeObject): NodeObject {
    node.(annotations := node.annotations + MarkValues(cfg))
  }

  lemma CandidateAlone(cfg: Config, node: NodeObject)
    requires TakenUp(cfg, node)
    ensures Candidates(cfg, [node], {node.name}) == [node]
    ensures CollectedStep(cfg, [node], {node.name}, 0, true) == Head(UpdateRun, [node])
  {
    hide Parsed;
    assert [node][1..] == [];
    assert FirstOngoing(cfg, []) == None && Updatable(cfg, [], {node.name}) == [];
    assert [node] + [] == [node];
  }

  lemma MarkSteps(cfg: Config, t: int, node: NodeObject)
    requires TakenUp(cfg, node)
    ensures LocalStep(cfg, Update, t, Job(NO_LOCKS, Head(UpdateRun, [node]))) ==
            Some(Job(NO_LOCKS, Busy(Marking, node, [])))
    ensures Step(cfg, Update, t, Job(NO_LOCKS, Busy(Marking, node, [])), Patch(node.name, Set(MarkValues(cfg)), true)) ==
            Some(Job(NO_LOCKS, Busy(Inspecting, node, [])))
  {
    hide Parsed, MarkValues;
    assert [node][1..] == [];
  }

  function DrainOrUpdate(cfg: Config): Task {
    if cfg.drain.enable then Draining(false) else Updating
  }

  /** updateRun collects the node, marks it (at position `mark`) and finds it in an accepted state. */
  lemma MarkPhase(cfg: Config, w: World, hs: seq<Happening>, t: int, node: NodeObject, other: Job, state: Option<string>)
      returns (more: seq<Happening>, mark: nat)
    requires Leads(cfg, w, hs, Scene(t, node, Update, Resting(Place.Cleaned), other)) && TakenUp(cfg, node)
    requires Accepts(cfg, state)
    ensures Continued(hs, more) && |hs| <= mark && |more| == mark + 2
    ensures more[mark] == By(Update, t, Patch(node.name, Set(MarkValues(cfg)), true), true)
    ensures more[mark + 1] == By(Update, t, AzureGet(node.name, true, state), false)
    ensures Leads(cfg, w, more[..mark], Scene(t, node, Update, Job(NO_LOCKS, Busy(Marking, node, [])), other))
    ensures Leads(cfg, w, more[..mark + 1],
                  Scene(t, WithMark(cfg, node), Update, Job(NO_LOCKS, Busy(Inspecting, node, [])), other))
    ensures OnlyBy(Update, more, |hs|)
    ensures Leads(cfg, w, more,
                  Scene(t, WithMark(cfg, node), Update, Job(NO_LOCKS, Busy(DrainOrUpdate(cfg), node, [])), other))
  {
    hide Leads, LocalStep, Scene, TakenUp, MarkValues, CollectedStep, Accepts;
    CandidateAlone(cfg, node);
    MarkSteps(cfg, t, node);
    var marking, inspecting := Job(NO_LOCKS, Busy(Marking, node, [])), Job(NO_LOCKS, Busy(Inspecting, node, []));
    more := Call(cfg, w, hs, Update, t, t, node, Resting(Place.Cleaned), other, Collected([node], {node.name}, 0, true),
                 Job(NO_LOCKS, Head(UpdateRun, [node])));
    more := Inside(cfg, w, more, Update, t, t, node, Job(NO_LOCKS, Head(UpdateRun, [node])), other, marking);
    mark := |more|;
    var before := more;
    more := Send(cfg, w, more, Update, t, node, marking, other, Set(MarkValues(cfg)), inspecting, WithMark(cfg, node));
    var marked := more;
    more := Call(cfg, w, more, Update, t, t, WithMark(cfg, node), inspecting, other, AzureGet(node.name, true, state),
                 Job(NO_LOCKS, Busy(DrainOrUpdate(cfg), node, [])));
    assert more[..mark] == before && more[..mark + 1] == marked;
  }

  /** The node as it is when the update job is about to call Azure. */
  function Flying(cfg: Config, node: NodeObject): NodeObject {
    if cfg.drain.enable then Cordon(cfg, WithMark(cfg, node)) else WithMark(cfg, node)
  }

  lemma FlyingName(cfg: Config, node: NodeObject)
    ensures Flying(cfg, node).name == node.name
    ensures cfg.drain.enable && !cfg.drain.dryRun ==> Flying(cfg, node).unschedulable
  {
  }

  lemma DrainedStep(cfg: Config, t: int, node: NodeObject)
    ensures Step(cfg, Update, t, Job(NO_LOCKS, Busy(Draining(false), node, [])),
                 Drain(node.name, cfg.drain.disableEviction, true)) == Some(InFlight(node))
  {
  }

  function InFlight(node: NodeObject): Job {
    Job(NO_LOCKS, Busy(Updating, node, []))
  }

  /** The update run up to its Azure call; the instance is in an accepted `state`. */
  lemma FlightPhase(cfg: Config, w: World, hs: seq<Happening>, t: int, node: NodeObject, other: Job, state: Option<string>)
      returns (more: seq<Happening>, mark: nat)
    requires Leads(cfg, w, hs, Scene(t, node, Update, Resting(Place.Cleaned), other)) && TakenUp(cfg, node)
    requires Accepts(cfg, state)
    ensures OnlyBy(Update, more, |hs|) && |more| == mark + 2 + if cfg.drain.enable then 1 else 0
    ensures cfg.drain.enable ==>
              more[|more| - 1] == By(Update, t, Drain(node.name, cfg.drain.disableEviction, true), !cfg.drain.dryRun)
    ensures Continued(hs, more) && |hs| <= mark
    ensures more[mark] == By(Update, t, Patch(node.name, Set(MarkValues(cfg)), true), true)
    ensures more[mark + 1] == By(Update, t, AzureGet(node.name, true, state), false)
    ensures Leads(cfg, w, more[..mark], Scene(t, node, Update, Job(NO_LOCKS, Busy(Marking, node, [])), other))
    ensures Leads(cfg, w, more[..mark + 1],
                  Scene(t, WithMark(cfg, node), Update, Job(NO_LOCKS, Busy(Inspecting, node, [])), other))
    ensures Leads(cfg, w, more[..mark + 2],
                  Scene(t, WithMark(cfg, node), Update, Job(NO_LOCKS, Busy(DrainOrUpdate(cfg), node, [])), other))
    ensures Leads(cfg, w, more, Scene(t, Flying(cfg, node), Update, InFlight(node), other))
  {
    hide Leads, Step, Scene, TakenUp, MarkValues, Cordon, Accepts;
    more, mark := MarkPhase(cfg, w, hs, t, node, other, state);
    var before, marked, looked := more[..mark], more[..mark + 1], more;
    assert more[..mark + 2] == looked;
    if cfg.drain.enable {
      DrainedStep(cfg, t, node);
      more := DrainIt(cfg, w, more, t, WithMark(cfg, node), Job(NO_LOCKS, Busy(Draining(false), node, [])), other,
                      cfg.drain.disableEviction, InFlight(node));
      assert more[..mark] == before && more[..mark + 1] == marked && more[..mark + 2] == looked;
    }
  }

  /** The update job from idle to the end of its Cleanup, on a node without locks and with nothing to clean up. */
  lemma ApproachPhase(cfg: Config, w: World, hs: seq<Happening>, start: int, t: int, node: NodeObject, other: Job)
      returns (more: seq<Happening>)
    requires Leads(cfg, w, hs, Scene(start, node, Update, Resting(Idle), other)) && start <= t
    requires cfg.update.lockAnnotation !in node.annotations && !BanIsOver(cfg, node, t)
    ensures OnlyBy(Update, more, |hs|)
    ensures Continued(hs, more) && Leads(cfg, w, more, Scene(t, node, Update, Resting(Place.Cleaned), other))
  {
    hide Leads, Scene, BanIsOver;
    NothingToUnlock(cfg, Update, node, t);
    more := AutoPhase(cfg, w, hs, start, t, node, other);
    more := SyncPhase(cfg, w, more, Update, t, t, node, NO_LOCKS, other);
    more := CleanPhase(cfg, w, more, Update, t, node, other);
  }

  lemma NothingToUnlock(cfg: Config, kind: Kind, node: NodeObject, t: int)
    requires cfg.Job(kind).lockAnnotation !in node.annotations
    ensures NoneOrOutdated(cfg, kind, node, t) && Unlock(cfg, kind, node) == node
  {
  }

  lemma UpdatedStep(cfg: Config, t: int, node: NodeObject)
    ensures Step(cfg, Update, t, InFlight(node), AzureAct(node.name, UpdateInstances, true)) ==
            Some(Job(NO_LOCKS, Busy(if DoReimage(cfg) then Redeploying else Uncordoning, node, [])))
  {
  }

  function UpdateCallOn(t: int, name: string): Happening {
    By(Update, t, AzureAct(name, UpdateInstances, true), false)
  }

  /** The Azure call of the update, at position |hs|; `node` is what the update job works with. */
  lemma UpdateCallPhase(cfg: Config, w: World, hs: seq<Happening>, t: int, now: NodeObject, node: NodeObject, other: Job)
      returns (more: seq<Happening>)
    requires Leads(cfg, w, hs, Scene(t, now, Update, InFlight(node), other))
    ensures more == hs + [UpdateCallOn(t, node.name)] && Continued(hs, more)
    ensures Leads(cfg, w, more,
                  Scene(t, now, Update, Job(NO_LOCKS, Busy(if DoReimage(cfg) then Redeploying else Uncordoning, node, [])), other))
  {
    hide Leads, Scene, DoReimage;
    UpdatedStep(cfg, t, node);
    more := Call(cfg, w, hs, Update, t, t, now, InFlight(node), other, AzureAct(node.name, UpdateInstances, true),
                 Job(NO_LOCKS, Busy(if DoReimage(cfg) then Redeploying else Uncordoning, node, [])));
  }
}

/**
 The program itself: the loops and calls of autopilot/main.go, task.repair.go, task.update.go, lib.azure.go and
 lib.k8s.go, working on a lock cache in place. The record of a runner is a run of the step machine of Jobs, every
 method only adds to it, and the calls in it are those the outside has answered; so what is proved of the machine holds
 of the program. Answers from outside, the passing of time and the janitor's sweeps are arbitrary.
 */
module JobRunner {
  import opened Options
  import opened JsonPatch
  import opened Nodes
  import opened Settings
  import opened TimedCaches
  import opened Provisioning
  import opened ProviderId
  import opened Jobs
  import World
  import Budget
  import SyncExact
  import Protocol = UpdateProtocol
  import RepairProtocol
  import Text

  /** What is on record so far: the places, the events, and the answers of the outside. */
  datatype Past = Past(js: seq<Job>, log: seq<Timed>, answers: seq<Event>)
  {
    /** A later record begins like this one. */
    ghost predicate Grows(later: Past) {
      js <= later.js && log <= later.log
    }

    /** In between these calls were answered, and no others. */
    ghost predicate Asks(calls: seq<Event>, later: Past) {
      Grows(later) && later.answers == answers + calls
    }

    lemma Chain(calls: seq<Event>, mid: Past, more: seq<Event>, later: Past)
      requires Asks(calls, mid) && mid.Asks(more, later)
      ensures Asks(calls + more, later)
    {
    }

    lemma AsksNothing()
      ensures Asks([], this)
    {
    }

    /** Whatever comes after a later record comes after this one. */
    lemma Onward()
      ensures Grows(this)
      ensures forall p: Past, q: Past {:trigger Grows(p), p.Grows(q)} :: Grows(p) && p.Grows(q) ==> Grows(q)
      ensures forall p: Past, calls, q: Past {:trigger p.Asks(calls, q)} :: p.Asks(calls, q) ==> p.Grows(q)
      ensures forall p: Past {:trigger Grows(p)} :: Grows(p) ==> |log| <= |p.log|
    {
    }

    /** Nothing was asked before `mid`. */
    lemma Later(mid: Past, calls: seq<Event>, later: Past, k: nat)
      requires Grows(mid) && answers == mid.answers && mid.Asks(calls, later) && k + 1 < |mid.js| && k < |mid.log|
      ensures Asks(calls, later) && k + 1 < |later.js| && k < |later.log|
      ensures later.js[k] == mid.js[k] && later.js[k + 1] == mid.js[k + 1] && later.log[k] == mid.log[k]
    {
    }
  }

  /** Everything outside the process. It answers as it likes, and remembers what it was asked and has answered. */
  class Surroundings {
    ghost var answers: seq<Event>

    constructor ()
      ensures answers == []
    {
      answers := [];
    }

    method NodeList() returns (view: seq<NodeObject>)
      modifies this
      ensures DistinctNames(view) && answers == old(answers) + [Listed(view)]
    {
      assert DistinctNames([]);
      view :| DistinctNames(view);
      answers := answers + [Listed(view)];
    }

    /** The nodes with their Azure instances: which of them are outdated, how many have failed, or no answer. */
    method NodeListWithAzure()
        returns (view: seq<NodeObject>, outdated: set<string>, failed: nat, reachable: bool)
      modifies this
      ensures DistinctNames(view) && answers == old(answers) + [Collected(view, outdated, failed, reachable)]
    {
      assert DistinctNames([]);
      view :| DistinctNames(view);
      outdated, reachable := *, *;
      failed :| true;
      answers := answers + [Collected(view, outdated, failed, reachable)];
    }

    method SendPatch(name: string, ops: seq<Op>, ghost change: Change) returns (ok: bool)
      requires Implements(ops, change)
      modifies this
      ensures answers == old(answers) + [Patch(name, change, ok)]
    {
      ok := *;
      answers := answers + [Patch(name, change, ok)];
    }

    method KubectlDrain(name: string, disableEviction: bool) returns (ok: bool)
      modifies this
      ensures answers == old(answers) + [Drain(name, disableEviction, ok)]
    {
      ok := *;
      answers := answers + [Drain(name, disableEviction, ok)];
    }

    method KubectlUncordon(name: string) returns (ok: bool)
      modifies this
      ensures answers == old(answers) + [Uncordon(name, ok)]
    {
      ok := *;
      answers := answers + [Uncordon(name, ok)];
    }

    method AzureInstance(name: string) returns (ok: bool, state: Option<string>)
      modifies this
      ensures answers == old(answers) + [AzureGet(name, ok, state)]
    {
      ok, state := *, *;
      answers := answers + [AzureGet(name, ok, state)];
    }

    method AzureAction(name: string, call: AzureCall) returns (ok: bool)
      modifies this
      ensures answers == old(answers) + [AzureAct(name, call, ok)]
    {
      ok := *;
      answers := answers + [AzureAct(name, call, ok)];
    }
  }

  class Runner {
    const cfg: Config
    const kind: Kind
    const locks: TimedCache<bool>
    const outside: Surroundings
    var now: int
    ghost var js: seq<Job>
    ghost var log: seq<Timed>
    ghost var from: nat   // since then the job was not idle, except at that point, and now perhaps

    constructor (cfg: Config, kind: Kind, now: int)
      ensures this.cfg == cfg && this.kind == kind && Valid() && fresh(locks) && fresh(outside)
      ensures js == [World.FRESH_JOB] && log == [] && outside.answers == []
      ensures locks.items == map[] && locks.defaultLife == 15 * 60 * 1_000_000_000 && Place() == Rest(Idle)
    {
      this.cfg, this.kind, this.now := cfg, kind, now;
      this.locks := new TimedCache(LOCK_LIFE);
      this.outside := new Surroundings();
      js, log, from := [World.FRESH_JOB], [], 0;
    }

    /** The events so far are a run of the machine, and time has not run backwards. */
    ghost predicate Recorded()
      reads this
    {
      && |js| == |log| + 1 && Trail(cfg, kind, js, log)
      && (log != [] ==> log[|log| - 1].at <= now)
      && (forall i, j :: 0 <= i < j < |log| ==> log[i].at <= log[j].at)
      && from <= |log| && forall i :: from < i < |log| ==> js[i].stage != Rest(Idle)
    }

    /** The record ends with the present lock cache, and its calls are exactly those the outside has answered. */
    ghost predicate Valid()
      reads this, locks, outside
    {
      && js != [] && Recorded() && locks.defaultLife == LOCK_LIFE && js[|js| - 1].locks == locks.items
      && Calls(log) == outside.answers
    }

    ghost function Place(): Stage
      reads this
    {
      if js == [] then Rest(Idle) else js[|js| - 1].stage
    }

    ghost function Record(): Past
      reads this, outside
    {
      Past(js, log, outside.answers)
    }

    /** Enter an event and the step it causes into the record. An answer must have been given. */
    ghost method Enter(e: Event, stage: Stage)
      requires js != [] && Recorded() && locks.defaultLife == LOCK_LIFE && (Place() == Rest(Idle) ==> from == |log|)
      requires outside.answers == Calls(log) + CallOf(e)
      requires Step(cfg, kind, now, js[|js| - 1], e) == Some(Job(locks.items, stage))
      modifies `js, `log
      ensures Valid() && old(Record()).Grows(Record()) && Place() == stage
      ensures js == old(js) + [Job(locks.items, stage)] && log == old(log) + [Timed(now, e)]
    {
      hide Step, Trail, Calls;
      TrailGrows(cfg, kind, js, log, Timed(now, e), Job(locks.items, stage));
      CallsNext(log, Timed(now, e));
      js, log := js + [Job(locks.items, stage)], log + [Timed(now, e)];
    }

    /** A decision or an access to the cache. */
    ghost method Decide(stage: Stage)
      requires js != [] && Recorded() && locks.defaultLife == LOCK_LIFE && (Place() == Rest(Idle) ==> from == |log|)
      requires outside.answers == Calls(log)
      requires LocalStep(cfg, kind, now, js[|js| - 1]) == Some(Job(locks.items, stage))
      modifies `js, `log
      ensures Valid() && old(Record()).Grows(Record()) && Place() == stage
    {
      hide LocalStep, Recorded, Calls;
      assert outside.answers == Calls(log) + [];
      Enter(Local, stage);
    }

    /** Time passes. */
    method Wait()
      requires Valid()
      modifies `now
      ensures Valid() && old(now) <= now
    {
      var d: nat :| true;
      now := now + d;
    }

    /** Time passes, and the janitor sweeps as often as it likes. */
    method Yield()
      requires Valid() && Place() != Rest(Idle)
      modifies `now, `js, `log, locks
      ensures Valid() && old(Record()).Grows(Record()) && Place() == old(Place()) && old(now) <= now
    {
      hide Recorded, Calls;
      var sweeps: nat :| true;
      Wait();
      for i := 0 to sweeps
        invariant Valid() && old(Record()).Grows(Record()) && Place() == old(Place()) && old(now) <= now
      {
        locks.DeleteExpired(now);
        assert outside.answers == Calls(log) + [];
        Enter(Swept, Place());
        Wait();
      }
    }

    /** The job is idle between two ticks; the janitor is not. */
    method Sleep()
      requires Valid() && Place() == Rest(Idle)
      modifies `now, `js, `log, `from, locks
      ensures Valid() && old(Record()).Grows(Record()) && Place() == Rest(Idle) && from == |log| && old(now) <= now
    {
      hide Recorded, Calls;
      var sweeps: nat :| true;
      Wait();
      Depart();
      for i := 0 to sweeps
        invariant Valid() && old(Record()).Grows(Record()) && Place() == Rest(Idle) && from == |log| && old(now) <= now
      {
        locks.DeleteExpired(now);
        assert outside.answers == Calls(log) + [];
        Enter(Swept, Place());
        Wait();
        Depart();
      }
    }

    /** A new section of the record begins here. */
    ghost method Depart()
      requires Valid()
      modifies `from
      ensures Valid() && from == |log|
    {
      from := |log|;
    }

    // ---- calls to the outside ----

    /** The list of the loop that comes next. */
    method ListNodes() returns (nodeList: seq<NodeObject>)
      requires Valid()
      requires || Place() == Rest(Entered) || (kind.Repair? && Place() == Rest(Cleaned))
               || (kind.Update? && Place() == Rest(Idle) && from == |log|)
      modifies `js, `log, outside
      ensures Valid() && old(Record()).Asks([Listed(nodeList)], Record()) && DistinctNames(nodeList)
      ensures Place() == Head(match old(Place()).place
                              case Idle => AutoUncordon
                              case Cleaned => Loop.RepairRun
                              case _ => Loop.Cleanup, nodeList)
    {
      hide Recorded, Calls, DistinctNames;
      nodeList := outside.NodeList();
      Enter(Listed(nodeList), Head(match Place().place
                                    case Idle => AutoUncordon
                                    case Cleaned => Loop.RepairRun
                                    case _ => Loop.Cleanup, nodeList));
    }

    /** NodeListWithAzure, updateCollectCandidates and NodeCountByProvisionState */
    method CollectCandidates()
        returns (failed: nat, reachable: bool, candidateList: seq<NodeObject>, ghost view: seq<NodeObject>,
                 ghost outdated: set<string>)
      requires Valid() && kind.Update? && Place() == Rest(Cleaned)
      modifies `js, `log, outside
      ensures Valid() && old(Record()).Asks([Collected(view, outdated, failed, reachable)], Record())
      ensures DistinctNames(view) && candidateList == Candidates(cfg, view, outdated)
      ensures Place() == if !reachable || failed >= cfg.failedThreshold || cfg.dryRun then Rest(Idle)
                         else Head(Loop.UpdateRun, candidateList)
    {
      hide Recorded, Calls, DistinctNames, Candidates;
      var nodes, behind;
      nodes, behind, failed, reachable := outside.NodeListWithAzure();
      view, outdated := nodes, behind;
      candidateList := Candidates(cfg, nodes, behind);
      Enter(Collected(view, outdated, failed, reachable), CollectedStep(cfg, view, outdated, failed, reachable));
    }

    /** The list syncNodeLockCache is called with, and the flush it begins with. */
    method ListAndFlush() returns (nodeList: seq<NodeObject>)
      requires Valid() && Place() == Rest(Begin(kind)) && from == |log|
      modifies `js, `log, locks, outside
      ensures Valid() && DistinctNames(nodeList) && old(Record()).Asks([Listed(nodeList)], Record())
      ensures js == old(js) + [Job(map[], Head(Sync, nodeList))] && log == old(log) + [Timed(now, Listed(nodeList))]
    {
      hide Recorded, Calls, DistinctNames;
      nodeList := outside.NodeList();
      locks.Flush();
      Enter(Listed(nodeList), Head(Sync, nodeList));
    }

    method PatchSetApply(node: NodeObject, ops: seq<Op>, ghost change: Change) returns (ok: bool)
      requires Valid() && Place().Busy? && Place().node == node && PatchFor(cfg, kind, Place().task) == Some(change)
      requires Implements(ops, change)
      modifies `now, `js, `log, locks, outside
      ensures old(now) <= now
      ensures Valid() && old(Record()).Asks([Patch(node.name, change, ok)], Record())
      ensures Place() == PatchStep(cfg, kind, old(Place()).task, node, old(Place()).todo, ok)
    {
      hide Recorded, PatchStep, Calls, Implements;
      Yield();
      ok := outside.SendPatch(node.name, ops, change);
      Enter(Patch(node.name, change, ok), PatchStep(cfg, kind, Place().task, node, Place().todo, ok));
    }

    method NodeDrain(node: NodeObject, disableEviction: bool) returns (ok: bool)
      requires Valid() && Place().Busy? && Place().node == node && Place().task.Draining?
      requires disableEviction == (Place().task.again || cfg.drain.disableEviction)
      modifies `now, `js, `log, locks, outside
      ensures Valid() && old(Record()).Asks([Drain(node.name, disableEviction, ok)], Record())
      ensures Place() == DrainStep(cfg, old(Place()).task.again, node, old(Place()).todo, ok)
    {
      hide Recorded, DrainStep, Calls;
      Yield();
      ok := outside.KubectlDrain(node.name, disableEviction);
      Enter(Drain(node.name, disableEviction, ok), DrainStep(cfg, Place().task.again, node, Place().todo, ok));
    }

    method NodeUncordon(node: NodeObject) returns (ok: bool)
      requires Valid() && Place().Busy? && Place().node == node
      requires Place().task.AutoUncordoning? || Place().task.Uncordoning?
      modifies `now, `js, `log, locks, outside
      ensures Valid() && old(Record()).Asks([Uncordon(node.name, ok)], Record())
      ensures Some(Place()) == UncordonStep(cfg, old(Place()).task, node, old(Place()).todo, ok)
    {
      hide Recorded, Calls;
      Yield();
      ok := outside.KubectlUncordon(node.name);
      Enter(Uncordon(node.name, ok), UncordonStep(cfg, Place().task, node, Place().todo, ok).value);
    }

    method AzureInstance(node: NodeObject) returns (ok: bool, state: Option<string>)
      requires Valid() && Place().Busy? && Place().node == node
      requires Place().task.Checking? || Place().task.Inspecting?
      modifies `now, `js, `log, locks, outside
      ensures Valid() && old(Record()).Asks([AzureGet(node.name, ok, state)], Record())
      ensures Some(Place()) == AzureGetStep(cfg, old(Place()).task, node, old(Place()).todo, ok && Accepts(cfg, state))
    {
      hide Recorded, Accepts, Calls;
      Yield();
      ok, state := outside.AzureInstance(node.name);
      Enter(AzureGet(node.name, ok, state),
             AzureGetStep(cfg, Place().task, node, Place().todo, ok && Accepts(cfg, state)).value);
    }

    method AzureAction(node: NodeObject, call: AzureCall) returns (ok: bool)
      requires Valid() && Place().Busy? && Place().node == node && AzureCallFor(cfg, Place().task, node) == Some(call)
      modifies `now, `js, `log, locks, outside
      ensures Valid() && old(Record()).Asks([AzureAct(node.name, call, ok)], Record())
      ensures Place() == AzureActStep(cfg, old(Place()).task, node, old(Place()).todo, ok)
    {
      hide Recorded, AzureActStep, AzureCallFor, Calls;
      Yield();
      ok := outside.AzureAction(node.name, call);
      Enter(AzureAct(node.name, call, ok), AzureActStep(cfg, Place().task, node, Place().todo, ok));
    }

    // ---- k8s/node.go ----

    /** AnnotationLockRemove, and AnnotationRemove with one name. */
    method RemoveAnnotation(node: NodeObject, name: string) returns (ok: bool)
      requires Valid() && Place().Busy? && Place().node == node && PatchFor(cfg, kind, Place().task) == Some(Drop({name}))
      modifies `now, `js, `log, locks, outside
      ensures Valid() && old(Record()).Asks([Patch(node.name, Drop({name}), ok)], Record())
      ensures Place() == PatchStep(cfg, kind, old(Place()).task, node, old(Place()).todo, ok)
    {
      hide Valid, PatchStep, PatchFor, Implements;
      var ops := BuildRemove([name]);
      assert NameSet([name]) == {name};
      ok := PatchSetApply(node, ops, Drop({name}));
    }

    /** AnnotationLockSet, with the two times it reads. */
    method AnnotationLockSet(node: NodeObject, name: string, dur: int) returns (ok: bool, ghost first: int, ghost second: int)
      requires Valid() && Place().Busy? && Place().node == node && Place().task == Stamping(dur)
      requires name == cfg.Job(kind).lockAnnotation
      modifies `now, `js, `log, locks, outside
      ensures Valid() && old(now) <= first <= second <= now
      ensures var change := Set(LockValuesAt(name, dur, cfg.scaledownLockTime, first, second));
              old(Record()).Asks([Patch(node.name, change, ok)], Record())
      ensures Place() == Head(Run(kind), old(Place()).todo)
    {
      hide Recorded, LockValuesAt, Implements, Calls;
      Yield();
      var reading, later := ReadClock(node, dur);
      first, second := reading, later;
      var ops := BuildLockSet(name, dur, cfg.scaledownLockTime, reading, later);
      ok := PatchSetApply(node, ops, Set(LockValuesAt(name, dur, cfg.scaledownLockTime, first, second)));
    }

    /** time.Now(), twice */
    method ReadClock(node: NodeObject, dur: int) returns (first: int, second: int)
      requires Valid() && Place().Busy? && Place().node == node && Place().task == Stamping(dur)
      modifies `now, `js, `log
      ensures Valid() && old(Record()).Asks([], Record()) && old(now) == first <= second == now
      ensures var values := LockValuesAt(cfg.Job(kind).lockAnnotation, dur, cfg.scaledownLockTime, first, second);
              Place() == Busy(Writing(Set(values)), node, old(Place()).todo)
    {
      hide Recorded, LockValuesAt, Calls;
      first := now;
      second :| second >= first;
      assert outside.answers == Calls(log) + [];
      ghost var values := LockValuesAt(cfg.Job(kind).lockAnnotation, dur, cfg.scaledownLockTime, first, second);
      Enter(Clock(node.name, first, second), Busy(Writing(Set(values)), node, Place().todo));
      WaitUntil(second);
    }

    method WaitUntil(t: int)
      requires Valid() && now <= t
      modifies `now
      ensures Valid() && now == t
    {
      now := t;
    }

    // ---- autopilot/lib.k8s.go ----

    /** k8sDrainNode: one retry without eviction, and a failure may be ignored. */
    method K8sDrainNode(node: NodeObject) returns (ok: bool, ghost drains: seq<Event>)
      requires Valid() && Place().Busy? && Place().node == node
      requires Place().task == if cfg.drain.enable then Draining(false) else Updating
      modifies `now, `js, `log, locks, outside
      ensures Valid() && old(Record()).Asks(drains, Record()) && About(cfg, node.name, drains)
      ensures ok <==> Protocol.AcceptedDrains(cfg, node.name, drains)
      ensures !ok ==> drains == [Protocol.FirstDrain(cfg, node.name, false)]
                                + if cfg.drain.retryWithoutEviction then [Drain(node.name, true, false)] else []
      ensures Place() == if ok then Busy(Updating, node, old(Place()).todo) else Failed(cfg, node)
    {
      hide Valid, Past.Asks, Protocol.AcceptedDrains;
      ghost var before := Record();
      drains := [];
      if !cfg.drain.enable {
        Protocol.NoDrains(cfg, node.name);
        before.AsksNothing();
        return true, [];
      }
      ok := NodeDrain(node, cfg.drain.disableEviction);
      ghost var first := ok;
      drains := [Protocol.FirstDrain(cfg, node.name, first)];
      if !ok && cfg.drain.retryWithoutEviction {
        ghost var mid := Record();
        ok := NodeDrain(node, true);
        before.Chain(drains, mid, [Drain(node.name, true, ok)], Record());
        drains := drains + [Drain(node.name, true, ok)];
      }
      Protocol.DrainsAccepted(cfg, node.name, first, ok, drains);
      if !ok && cfg.drain.ignoreFailure {
        ok := true;
      }
    }

    // ---- autopilot/lib.azure.go ----

    /** The instance exists, in an accepted provisioning state. */
    method InspectInstance(node: NodeObject) returns (ok: bool, ghost get: Event)
      requires Valid() && Place().Busy? && Place().node == node
      requires Place().task.Checking? || Place().task.Inspecting?
      modifies `now, `js, `log, locks, outside
      ensures Valid() && old(Record()).Asks([get], Record())
      ensures get.AzureGet? && get.name == node.name && (ok <==> get.ok && Accepts(cfg, get.state))
      ensures Some(Place()) == AzureGetStep(cfg, old(Place()).task, node, old(Place()).todo, ok)
    {
      hide Recorded, Accepts, Calls, Past.Asks;
      var found, state := AzureInstance(node);
      get := AzureGet(node.name, found, state);
      if !found {
        return false, get;
      }
      ok := CheckVmProvisionState(cfg, state);
    }

    /** azureVmssInstanceRepair and azureVmRepair */
    method AzureRepair(node: NodeObject, info: NodeInfo) returns (ok: bool, ghost calls: seq<Event>)
      requires Valid() && Place().Busy? && Place().node == node && Place().task == Checking
      requires Parsed(node) == Info(info)
      modifies `now, `js, `log, locks, outside
      ensures Valid() && old(Record()).Asks(calls, Record())
      ensures RepairCalls(cfg, node.name, info.machine.Vmss?, calls, ok) && About(cfg, node.name, calls)
      ensures Place() == Busy(Locking(if ok then cfg.repair.lockDuration else cfg.repair.lockDurationError, true),
                              node, old(Place()).todo)
    {
      hide Valid, Accepts, Parsed, Past.Asks, RepairCalls, About;
      ghost var before := Record();
      ghost var get;
      ok, get := InspectInstance(node);
      calls := [get];
      AboutOne(cfg, node.name, get);
      if !ok {
        NotRepaired(cfg, node.name, info.machine.Vmss?, get);
        return;
      }
      ghost var mid := Record();
      var action := if info.machine.Vmss? then cfg.repairVmssAction else cfg.repairVmAction;
      var valid := action == "restart" || action == "redeploy"
                   || (info.machine.Vmss? && (action == "reimage" || action == "delete"));
      if !valid {
        NotRepaired(cfg, node.name, info.machine.Vmss?, get);
        ActionOf(cfg, node, info);
        InvalidAction(node);
        before.Chain(calls, mid, [], Record());
        assert calls + [] == calls;
        return false, calls;
      }
      mid := Record();
      ActionOf(cfg, node, info);
      ok := AzureAction(node, RepairAction(action));
      before.Chain(calls, mid, [AzureAct(node.name, RepairAction(action), ok)], Record());
      calls := calls + [AzureAct(node.name, RepairAction(action), ok)];
      Repaired(cfg, node.name, info.machine.Vmss?, get, action, ok);
    }

    method InvalidAction(node: NodeObject)
      requires Valid() && Place().Busy? && Place().node == node && Place().task == Acting && RepairCall(cfg, node).None?
      modifies `now, `js, `log, locks
      ensures Valid() && old(Record()).Asks([], Record())
      ensures Place() == Busy(Locking(cfg.repair.lockDurationError, true), node, old(Place()).todo)
    {
      hide Recorded, Calls, RepairCall;
      Yield();
      Decide(Busy(Locking(cfg.repair.lockDurationError, true), node, Place().todo));
    }

    /** azureVmssInstanceUpdate, after the node was marked */
    method AzureVmssInstanceUpdate(node: NodeObject, doReimage: bool) returns (ok: bool, ghost calls: seq<Event>)
      requires Valid() && Place().Busy? && Place().node == node && Place().task == Inspecting
      requires doReimage <==> cfg.updateAction == "update+reimage"
      modifies `now, `js, `log, locks, outside
      ensures Valid() && old(Record()).Asks(calls, Record()) && About(cfg, node.name, calls)
      ensures ok <==> Protocol.AzureDone(cfg, node.name, [Protocol.Marked(cfg, node.name)] + calls)
      ensures calls != [] && !Protocol.Last(calls).Patch?
      ensures ok ==> Protocol.Last(calls) ==
                     AzureAct(node.name, if cfg.updateAction == "update+reimage" then Redeploy else UpdateInstances, true)
      ensures Place() == if ok then Busy(Uncordoning, node, old(Place()).todo) else Failed(cfg, node)
    {
      hide Valid, Past.Asks, Accepts, Protocol.Marked;
      hide Protocol.AzureDone, Protocol.Updated, Protocol.AcceptedDrains, Protocol.IsActs, About;
      ghost var before := Record();
      ghost var get;
      ok, get := InspectInstance(node);
      calls := [get];
      AboutOne(cfg, node.name, get);
      if !ok {
        Protocol.NotDone(cfg, node.name, calls);
        return;
      }
      ghost var mid := Record();
      ghost var drains;
      ok, drains := K8sDrainNode(node);
      before.Chain(calls, mid, drains, Record());
      AboutBoth(cfg, node.name, calls, drains);
      calls := calls + drains;
      if !ok {
        Protocol.NotDone(cfg, node.name, calls);
        return;
      }
      mid := Record();
      ghost var acts;
      ok, acts := UpdateInstance(node, doReimage);
      before.Chain(calls, mid, acts, Record());
      AboutBoth(cfg, node.name, calls, acts);
      calls := calls + acts;
      Protocol.ActsDone(cfg, node.name, get, drains, acts, ok);
      LastAct(cfg, node.name, acts, ok);
    }

    /** The Azure calls of azureVmssInstanceUpdate */
    method UpdateInstance(node: NodeObject, doReimage: bool) returns (ok: bool, ghost acts: seq<Event>)
      requires Valid() && Place().Busy? && Place().node == node && Place().task == Updating
      requires doReimage <==> cfg.updateAction == "update+reimage"
      modifies `now, `js, `log, locks, outside
      ensures Valid() && old(Record()).Asks(acts, Record()) && About(cfg, node.name, acts)
      ensures Protocol.IsActs(cfg, node.name, acts, ok)
      ensures Place() == if ok then Busy(Uncordoning, node, old(Place()).todo) else Failed(cfg, node)
    {
      hide Valid, Past.Asks;
      ghost var before := Record();
      ok := AzureAction(node, UpdateInstances);
      acts := [AzureAct(node.name, UpdateInstances, ok)];
      if ok && doReimage {
        ghost var mid := Record();
        ok := AzureAction(node, Redeploy);
        before.Chain(acts, mid, [AzureAct(node.name, Redeploy, ok)], Record());
        acts := acts + [AzureAct(node.name, Redeploy, ok)];
      }
    }

    // ---- autopilot/task.update.go ----

    /** updateNode: nil exactly if its calls are a complete word of the protocol; and then the last three are the redeploy,
        or the update where none is configured, the uncordon, and the removal of the ongoing annotation. */
    method UpdateNode(node: NodeObject) returns (ok: bool, ghost calls: seq<Event>)
      requires Valid() && Place().Busy? && Place().node == node && Place().task == Marking
      modifies `now, `js, `log, locks, outside
      ensures Valid() && old(Record()).Asks(calls, Record()) && About(cfg, node.name, calls)
      ensures ok <==> Protocol.Complete(cfg, node.name, calls)
      ensures ok ==>
                var act := AzureAct(node.name, if cfg.updateAction == "update+reimage" then Redeploy else UpdateInstances, true);
                EndsWith(calls, [act, Uncordon(node.name, true), Patch(node.name, Drop({cfg.ongoingAnnotation}), true)])
      ensures Place() == if ok then Busy(Locking(cfg.update.lockDuration, true), node, old(Place()).todo)
                         else Failed(cfg, node)
    {
      hide Valid, Past.Asks, MarkValues, Implements, Protocol.AzureDone, EndsWith, About;
      var name := node.name;
      ghost var before := Record();
      var ops := BuildSet(MarkValues(cfg));
      ok := PatchSetApply(node, ops, Set(MarkValues(cfg)));
      calls := [Patch(name, Set(MarkValues(cfg)), ok)];
      AboutOne(cfg, name, calls[0]);
      Protocol.MarkedIs(cfg, name);
      if !ok {
        Protocol.NotComplete(cfg, name, calls);
        return;
      }
      ghost var mid := Record();
      ghost var more;
      ok, more := AzureVmssInstanceUpdate(node, cfg.updateAction == "update+reimage");
      before.Chain(calls, mid, more, Record());
      AboutBoth(cfg, name, calls, more);
      calls := calls + more;
      if !ok {
        Protocol.NotComplete(cfg, name, calls);
        return;
      }
      mid := Record();
      ghost var done := calls;
      ok, more := FinishUpdate(node);
      before.Chain(done, mid, more, Record());
      calls := done + more;
      Protocol.EndsComplete(cfg, name, done, more, ok);
      AboutBoth(cfg, name, done, more);
      LastThree(done, more);
    }

    /** The end of updateNode */
    method FinishUpdate(node: NodeObject) returns (ok: bool, ghost ends: seq<Event>)
      requires Valid() && Place().Busy? && Place().node == node && Place().task == Uncordoning
      modifies `now, `js, `log, locks, outside
      ensures Valid() && old(Record()).Asks(ends, Record()) && About(cfg, node.name, ends)
      ensures Protocol.IsEnds(cfg, node.name, ends, ok)
      ensures Place() == if ok then Busy(Locking(cfg.update.lockDuration, true), node, old(Place()).todo)
                         else Failed(cfg, node)
    {
      hide Valid, Past.Asks;
      ghost var before := Record();
      ok := NodeUncordon(node);
      ends := [Uncordon(node.name, ok)];
      if ok {
        ghost var mid := Record();
        ok := RemoveAnnotation(node, cfg.ongoingAnnotation);
        before.Chain(ends, mid, [Patch(node.name, Drop({cfg.ongoingAnnotation}), ok)], Record());
        ends := ends + [Patch(node.name, Drop({cfg.ongoingAnnotation}), ok)];
      }
    }

    /** The lock after a repair or an update: at `entered` in the cache, then on the node; errors are only logged. */
    method LockNode(node: NodeObject, dur: int)
        returns (ghost entered: nat, ghost first: int, ghost second: int, ghost taken: bool)
      requires Valid() && Place().Busy? && Place().node == node && Place().task == Locking(dur, true)
      modifies `now, `js, `log, locks, outside
      ensures Valid() && Place() == Head(Run(kind), old(Place()).todo)
      ensures var change := Set(LockValuesAt(cfg.Job(kind).lockAnnotation, dur, cfg.scaledownLockTime, first, second));
              old(Record()).Asks([Patch(node.name, change, taken)], Record())
      ensures |old(log)| <= entered < |log| && entered + 1 < |js| && log[entered].at <= first <= second
      ensures js[entered + 1].locks == Added(js[entered].locks, node.name, true, dur, LOCK_LIFE, log[entered].at)
    {
      hide Recorded, Added, Calls, LockValuesAt, Past.Grows, Past.Asks;
      ghost var before := Record();
      before.Onward();
      Yield();
      entered := |log|;
      OneMorePlace();
      var added := locks.Add(node.name, true, dur, now);
      assert outside.answers == Calls(log) + [];
      Enter(Local, Busy(Stamping(dur), node, Place().todo));
      ghost var mid := Record();
      var done;
      done, first, second := AnnotationLockSet(node, cfg.Job(kind).lockAnnotation, dur);
      taken := done;
      ghost var change := Set(LockValuesAt(cfg.Job(kind).lockAnnotation, dur, cfg.scaledownLockTime, first, second));
      before.Later(mid, [Patch(node.name, change, taken)], Record(), entered);
    }

    /** updateRun after the candidates were collected and the sanity checks made. All calls are about candidates that
        stand before the own node. */
    method UpdateCandidates(candidateList: seq<NodeObject>) returns (ghost calls: seq<Event>)
      requires Valid() && kind.Update? && Place() == Head(Loop.UpdateRun, candidateList)
      modifies `now, `js, `log, locks, outside
      ensures Valid() && old(Record()).Asks(calls, Record()) && Place() == Rest(Idle)
      ensures forall e <- calls :: AboutOneBeforeOwn(cfg, candidateList, e)
    {
      hide Recorded, Parsed, Failed, Calls, LockValues, Added, Past.Grows, About, AboutOneBeforeOwn;
      ghost var before := Record();
      before.Onward();
      before.AsksNothing();
      calls := [];
      for i := 0 to |candidateList|
        invariant Valid() && before.Asks(calls, Record()) && Place() == Head(Loop.UpdateRun, candidateList[i..])
        invariant forall k :: 0 <= k < i ==> cfg.self != Some(candidateList[k].name)
        invariant forall e <- calls :: AboutOneBeforeOwn(cfg, candidateList, e)
      {
        var node, rest := candidateList[i], candidateList[i + 1..];
        HeadOf(candidateList, i);
        Yield();
        var count := locks.ItemCount();
        if cfg.update.limit > 0 && count >= cfg.update.limit {
          Decide(Rest(Idle));
          return;
        }
        if cfg.self == Some(node.name) {
          Decide(Rest(Idle));
          return;
        }
        if Parsed(node).Unrecognised? {
          Decide(Head(Loop.UpdateRun, rest));
          continue;
        }
        Decide(Busy(Marking, node, rest));
        ghost var mid := Record();
        ghost var more;
        var ok;
        ok, more := UpdateAndLock(node);
        before.Chain(calls, mid, more, Record());
        MoreAbout(cfg, candidateList, i, calls, more);
        calls := calls + more;
        if !ok {
          Yield();
          Decide(Rest(Idle));
          return;
        }
      }
      Yield();
      Decide(Rest(Idle));
    }

    /** updateNode and updateNodeLock */
    method UpdateAndLock(node: NodeObject) returns (ok: bool, ghost calls: seq<Event>)
      requires Valid() && kind.Update? && Place().Busy? && Place().node == node && Place().task == Marking
      modifies `now, `js, `log, locks, outside
      ensures Valid() && old(Record()).Asks(calls, Record()) && About(cfg, node.name, calls)
      ensures Place() == Head(Loop.UpdateRun, if ok then old(Place()).todo else [])
    {
      hide Recorded, Failed, Calls, LockValuesAt, Added, Past.Grows, Past.Asks, About;
      ghost var before := Record();
      ghost var entered, first, second, taken;
      ok, calls := UpdateNode(node);
      FailedIs(cfg, node);
      ghost var mid := Record();
      entered, first, second, taken := LockNode(node, if ok then cfg.update.lockDuration else cfg.update.lockDurationError);
      ghost var change :=
        Set(LockValuesAt(cfg.update.lockAnnotation, if ok then cfg.update.lockDuration else cfg.update.lockDurationError,
                         cfg.scaledownLockTime, first, second));
      before.Chain(calls, mid, [Patch(node.name, change, taken)], Record());
      AboutOne(cfg, node.name, Patch(node.name, change, taken));
      AboutBoth(cfg, node.name, calls, [Patch(node.name, change, taken)]);
      calls := calls + [Patch(node.name, change, taken)];
    }

    /** updateRun: after the list of nodes was collected, nothing more is asked if that failed, if too many nodes have failed,
        or in a dry run; and otherwise only about candidates that stand before the own node. */
    method UpdateRun() returns (ghost asked: seq<Event>, ghost collected: Event, ghost calls: seq<Event>)
      requires Valid() && kind.Update? && Place() == Rest(Entered)
      modifies `now, `js, `log, locks, outside
      ensures Valid() && old(Record()).Grows(Record()) && Place() == Rest(Idle)
      ensures collected.Collected? && DistinctNames(collected.view)
      ensures old(outside.answers) <= asked && outside.answers == asked + [collected] + calls
      ensures calls != [] ==> collected.reachable && collected.failed < cfg.failedThreshold && !cfg.dryRun
      ensures forall e <- calls :: AboutOneBeforeOwn(cfg, Candidates(cfg, collected.view, collected.outdated), e)
    {
      hide Recorded, Calls, Past.Grows, Candidates, AboutOneBeforeOwn, DistinctNames;
      Record().Onward();
      Cleanup();
      Yield();
      asked, calls := outside.answers, [];
      ghost var view, outdated;
      var failed, reachable, candidateList;
      failed, reachable, candidateList, view, outdated := CollectCandidates();
      collected := Collected(view, outdated, failed, reachable);
      if !reachable || failed >= cfg.failedThreshold || cfg.dryRun {
        return;
      }
      calls := UpdateCandidates(candidateList);
    }

    // ---- autopilot/task.repair.go ----

    /** A node that is due for a repair: the rest of the loop body. `evicted` stands for the return. */
    method RepairNode(node: NodeObject) returns (evicted: bool, ghost calls: seq<Event>)
      requires Valid() && kind.Repair? && Place().Busy? && Place().node == node && Place().task == Due
      modifies `now, `js, `log, locks, outside
      ensures Valid() && old(Record()).Asks(calls, Record()) && About(cfg, node.name, calls)
      ensures calls != [] ==>
                !evicted && !cfg.dryRun && cfg.self != Some(node.name) && ExtractNodeInfo(node.name, node.providerId).Info?
      ensures evicted ==> cfg.self == Some(node.name) && !cfg.dryRun
      ensures Place() == if evicted then Rest(Idle) else Head(Loop.RepairRun, old(Place()).todo)
    {
      hide Recorded, Added, RepairCall, Calls, Past.Grows, ExtractNodeInfo, About;
      Record().Onward();
      evicted, calls := false, [];
      NoCalls(cfg, node.name);
      ghost var rest := Place().todo;
      Yield();
      var lock := locks.Get(node.name, now);
      if lock.Some? {
        Decide(Head(Loop.RepairRun, rest));
        return;
      }
      Decide(Busy(Unlocked, node, rest));
      Yield();
      var count := locks.ItemCount();
      if cfg.repair.limit > 0 && count >= cfg.repair.limit {
        Decide(Head(Loop.RepairRun, rest));
        return;
      }
      var extracted := Parsed(node);
      if extracted.Unrecognised? {
        Decide(Head(Loop.RepairRun, rest));
        return;
      }
      if cfg.dryRun {
        Decide(Busy(Locking(cfg.repair.lockDuration, false), node, rest));
        DryLock(node);
        return;
      }
      if cfg.self == Some(node.name) {
        Decide(Rest(Idle));
        return true, [];
      }
      Decide(Busy(Checking, node, rest));
      calls := RepairAndLock(node, extracted.info);
    }

    /** The Azure calls and the lock. */
    method RepairAndLock(node: NodeObject, info: NodeInfo) returns (ghost calls: seq<Event>)
      requires Valid() && kind.Repair? && Place().Busy? && Place().node == node && Place().task == Checking
      requires Parsed(node) == Info(info)
      modifies `now, `js, `log, locks, outside
      ensures Valid() && Place() == Head(Loop.RepairRun, old(Place()).todo)
      ensures old(Record()).Asks(calls, Record()) && About(cfg, node.name, calls)
    {
      hide Recorded, Parsed, Added, Calls, LockValuesAt, RepairCalls, Past.Grows, Past.Asks, About;
      ghost var before := Record();
      ghost var entered, first, second, taken;
      var ok;
      ok, calls := AzureRepair(node, info);
      ghost var dur := if ok then cfg.repair.lockDuration else cfg.repair.lockDurationError;
      ghost var mid := Record();
      if !ok {
        entered, first, second, taken := LockNode(node, cfg.repair.lockDurationError);
      } else {
        entered, first, second, taken := LockNode(node, cfg.repair.lockDuration);
      }
      ghost var lock :=
        Patch(node.name, Set(LockValuesAt(cfg.repair.lockAnnotation, dur, cfg.scaledownLockTime, first, second)), taken);
      before.Chain(calls, mid, [lock], Record());
      AboutOne(cfg, node.name, lock);
      AboutBoth(cfg, node.name, calls, [lock]);
      calls := calls + [lock];
    }

    method DryLock(node: NodeObject)
      requires Valid() && kind.Repair? && Place().Busy? && Place().node == node
      requires Place().task == Locking(cfg.repair.lockDuration, false)
      modifies `now, `js, `log, locks
      ensures Valid() && old(Record()).Grows(Record()) && Place() == Head(Loop.RepairRun, old(Place()).todo)
    {
      hide Recorded, Added, Calls, Past.Grows, Past.Asks;
      Record().Onward();
      Yield();
      var added := locks.Add(node.name, true, cfg.repair.lockDuration, now);
      Decide(Head(Loop.RepairRun, Place().todo));
    }

    method RepairRun()
      requires Valid() && kind.Repair? && Place() == Rest(Entered)
      modifies `now, `js, `log, locks, outside
      ensures Valid() && old(Record()).Grows(Record()) && Place() == Rest(Idle)
    {
      hide Recorded, Calls, Past.Grows, Past.Asks, RepairProtocol.LooksDue, RepairProtocol.LastSaysReady, About;
      Record().Onward();
      Cleanup();
      Yield();
      var nodeList := ListNodes();
      for i := 0 to |nodeList|
        invariant Valid() && old(Record()).Grows(Record()) && Place() == Head(Loop.RepairRun, nodeList[i..])
      {
        var node, rest := nodeList[i], nodeList[i + 1..];
        HeadOf(nodeList, i);
        Yield();
        var due := RepairLook(node, rest);
        if due {
          ghost var calls;
          var evicted;
          evicted, calls := RepairNode(node);
          if evicted {
            return;
          }
        }
      }
      Yield();
      Decide(Rest(Idle));
    }

    /** The health, cordon and heartbeat checks at one instant; a healthy node gives up its lock. */
    method RepairLook(node: NodeObject, rest: seq<NodeObject>) returns (due: bool)
      requires Valid() && kind.Repair? && Place() == Head(Loop.RepairRun, [node] + rest)
      modifies `js, `log, locks
      ensures Valid() && old(Record()).Grows(Record())
      ensures due <==> !node.unschedulable && RepairProtocol.LooksDue(cfg, node, now)
      ensures locks.items ==
              if RepairProtocol.LastSaysReady(node.conditions) then old(locks.items) - {node.name} else old(locks.items)
      ensures Place() == if due then Busy(Due, node, rest) else Head(Loop.RepairRun, rest)
    {
      hide Recorded, Text.EqualFold, Calls, Past.Grows, Past.Asks;
      Record().Onward();
      HeadOf([node] + rest, 0);
      RepairProtocol.DueIs(cfg, node, now);
      var health := GetHealthStatus(node.conditions);
      if health.ready {
        locks.Delete(node.name);
        Decide(Head(Loop.RepairRun, rest));
        return false;
      }
      if node.unschedulable || now - health.heartbeat < cfg.notReadyThreshold {
        Decide(Head(Loop.RepairRun, rest));
        return false;
      }
      Decide(Busy(Due, node, rest));
      return true;
    }

    // ---- autopilot/main.go, and Cleanup of k8s/nodelist.go ----

    /** syncNodeLockCache, with the list it is called with */
    method SyncNodeLockCache() returns (nodeList: seq<NodeObject>)
      requires Valid() && Place() == Rest(Begin(kind))
      modifies `now, `js, `log, `from, locks, outside
      ensures Valid() && old(Record()).Grows(Record()) && Place() == Rest(Synced)
      ensures |old(log)| <= from < |log| && SyncExact.Rebuilt(cfg, kind, js, log, from + 1, |log|, nodeList)
    {
      hide Recorded, AnnotationLockCheck, Sweep, SyncExact.Rebuilt, Calls, Past.Grows, Past.Asks;
      Record().Onward();
      Depart();
      OneMorePlace();
      nodeList := ListAndFlush();
      ghost var listed := Record();
      listed.Onward();
      SyncNodes(nodeList);
      Yield();
      locks.DeleteExpired(now);
      Decide(Rest(Synced));
      SyncedExactly(nodeList, listed);
    }

    lemma SyncedExactly(nodeList: seq<NodeObject>, listed: Past)
      requires Valid() && listed.Grows(Record()) && from + 1 == |listed.log| == |listed.js| - 1
      requires listed.log[from].event == Listed(nodeList)
      requires listed.js[from].stage == Rest(Begin(kind)) && Place() == Rest(Synced)
      ensures SyncExact.Rebuilt(cfg, kind, js, log, from + 1, |log|, nodeList)
    {
      hide StepAt, SyncExact.Rebuilt, Calls;
      SyncExact.SyncRebuilds(cfg, kind, js, log, from, |log|, nodeList);
    }

    /** The loop of syncNodeLockCache */
    method SyncNodes(nodeList: seq<NodeObject>)
      requires Valid() && Place() == Head(Sync, nodeList)
      modifies `now, `js, `log, locks, outside
      ensures Valid() && old(Record()).Grows(Record()) && Place() == Head(Sync, [])
    {
      hide Recorded, Calls, Past.Grows, Past.Asks;
      Record().Onward();
      for i := 0 to |nodeList|
        invariant Valid() && old(Record()).Grows(Record()) && Place() == Head(Sync, nodeList[i..])
      {
        var node, rest := nodeList[i], nodeList[i + 1..];
        HeadOf(nodeList, i);
        Yield();
        SyncNode(node, rest);
      }
    }

    method SyncNode(node: NodeObject, rest: seq<NodeObject>)
      requires Valid() && Place() == Head(Sync, [node] + rest)
      modifies `now, `js, `log, locks, outside
      ensures Valid() && old(Record()).Grows(Record()) && Place() == Head(Sync, rest)
      ensures var annotation := if kind.Repair? then cfg.repair.lockAnnotation else cfg.update.lockAnnotation;
              if TimeIsUp(cfg.reading, node.annotations, annotation, old(now))
              then exists ok :: outside.answers == old(outside.answers) + [Patch(node.name, Drop({annotation}), ok)]
              else outside.answers == old(outside.answers)
                   && (annotation !in node.annotations ==> locks.items == old(locks.items) - {node.name})
    {
      hide Recorded, AnnotationLockCheck, Added, Calls, Past.Grows, TimeIsUp;
      Record().Onward();
      HeadOf([node] + rest, 0);
      var annotation := cfg.Job(kind).lockAnnotation;
      OutdatedIs(cfg.reading, node.annotations, annotation, now);
      NoAnnotationIs(cfg.reading, node.annotations, annotation, now);
      var check := AnnotationLockCheck(cfg.reading, node.annotations, annotation, now);
      match check
      case NoAnnotation =>
        locks.Delete(node.name);
        Decide(Head(Sync, rest));
      case Unreadable =>
        Decide(Busy(Dropping, node, rest));
        var removed := RemoveAnnotation(node, annotation);
      case Duration(ns) =>
        if ns <= 0 {
          Decide(Busy(Dropping, node, rest));
          var removed := RemoveAnnotation(node, annotation);
        } else {
          Decide(Busy(Restoring(ns), node, rest));
          RestoreNode(node, rest, ns);
        }
    }

    /** The node goes back into the cache for the time left. */
    method RestoreNode(node: NodeObject, rest: seq<NodeObject>, left: int)
      requires Valid() && Place() == Busy(Restoring(left), node, rest)
      modifies `now, `js, `log, locks
      ensures Valid() && old(Record()).Grows(Record()) && Place() == Head(Sync, rest)
      ensures outside.answers == old(outside.answers)
    {
      hide Recorded, Added, Calls, Past.Grows, Past.Asks;
      Record().Onward();
      Yield();
      var added := locks.Add(node.name, true, left, now);
      Decide(Head(Sync, rest));
    }

    method AutoUncordonExpiredNodes()
      requires Valid() && kind.Update? && Place() == Rest(Idle)
      modifies `now, `js, `log, `from, locks, outside
      ensures Valid() && old(Record()).Grows(Record()) && Place() == Rest(AutoDone) && |old(log)| <= from
    {
      hide Recorded, TimeIsUp, Calls, Past.Grows, Past.Asks;
      Record().Onward();
      Depart();
      var nodeList := ListNodes();
      for i := 0 to |nodeList|
        invariant Valid() && old(Record()).Grows(Record()) && Place() == Head(AutoUncordon, nodeList[i..]) && |old(log)| <= from
      {
        var node, rest := nodeList[i], nodeList[i + 1..];
        HeadOf(nodeList, i);
        Yield();
        ghost var calls := UncordonLook(node, rest);
      }
      Yield();
      Decide(Rest(AutoDone));
    }

    /** A cordoned node whose lock is over is opened again. */
    method UncordonLook(node: NodeObject, rest: seq<NodeObject>) returns (ghost calls: seq<Event>)
      requires Valid() && kind.Update? && Place() == Head(AutoUncordon, [node] + rest)
      modifies `now, `js, `log, locks, outside
      ensures Valid() && old(Record()).Asks(calls, Record()) && Place() == Head(AutoUncordon, rest)
      ensures if node.unschedulable && TimeIsUp(cfg.reading, node.annotations, cfg.update.lockAnnotation, old(now))
              then exists ok :: calls == [Uncordon(node.name, ok)] else calls == []
    {
      hide Recorded, AnnotationLockCheck, Calls, Past.Grows, TimeIsUp;
      HeadOf([node] + rest, 0);
      Record().Onward();
      OutdatedIs(cfg.reading, node.annotations, cfg.update.lockAnnotation, now);
      calls := [];
      var check := AnnotationLockCheck(cfg.reading, node.annotations, cfg.update.lockAnnotation, now);
      if Outdated(check) && node.unschedulable {
        Decide(Busy(AutoUncordoning, node, rest));
        var uncordoned := NodeUncordon(node);
        calls := [Uncordon(node.name, uncordoned)];
      } else {
        Decide(Head(AutoUncordon, rest));
      }
    }

    method Cleanup()
      requires Valid() && Place() == Rest(Entered)
      modifies `now, `js, `log, locks, outside
      ensures Valid() && old(Record()).Grows(Record()) && Place() == Rest(Cleaned)
      ensures old(outside.answers) <= outside.answers
    {
      hide Recorded, Calls, Past.Grows;
      Record().Onward();
      Yield();
      var nodeList := ListNodes();
      for i := 0 to |nodeList|
        invariant Valid() && old(Record()).Grows(Record()) && Place() == Head(Loop.Cleanup, nodeList[i..])
        invariant old(outside.answers) <= outside.answers
      {
        var node, rest := nodeList[i], nodeList[i + 1..];
        HeadOf(nodeList, i);
        Yield();
        CleanupLook(node, rest);
      }
      Yield();
      Decide(Rest(Cleaned));
    }

    /** Node.Cleanup */
    method CleanupLook(node: NodeObject, rest: seq<NodeObject>)
      requires Valid() && Place() == Head(Loop.Cleanup, [node] + rest)
      modifies `now, `js, `log, locks, outside
      ensures Valid() && old(Record()).Grows(Record()) && Place() == Head(Loop.Cleanup, rest)
      ensures if TimeIsUp(cfg.reading, node.annotations, SCALE_DOWN_EXPIRE, old(now))
              then exists ok ::
                     outside.answers == old(outside.answers) + [Patch(node.name, Drop({SCALE_DOWN_EXPIRE, SCALE_DOWN_DISABLED}), ok)]
              else outside.answers == old(outside.answers)
    {
      hide Recorded, TimeIsUp, AnnotationLockCheck, Outdated, Calls;
      HeadOf([node] + rest, 0);
      OutdatedIs(cfg.reading, node.annotations, SCALE_DOWN_EXPIRE, now);
      if BanIsOver(cfg, node, now) {
        Decide(Busy(CleanDropping, node, rest));
        var removed := CleanupNode(node);
      } else {
        Decide(Head(Loop.Cleanup, rest));
      }
    }

    method CleanupNode(node: NodeObject) returns (ok: bool)
      requires Valid() && Place().Busy? && Place().node == node && Place().task == CleanDropping
      modifies `now, `js, `log, locks, outside
      ensures Valid() && Place() == Head(Loop.Cleanup, old(Place()).todo)
      ensures var both := {SCALE_DOWN_EXPIRE, SCALE_DOWN_DISABLED};
              old(Record()).Asks([Patch(node.name, Drop(both), ok)], Record())
    {
      hide Recorded, Implements, Calls;
      var names := [SCALE_DOWN_EXPIRE, SCALE_DOWN_DISABLED];
      var ops := BuildRemove(names);
      TwoNames(SCALE_DOWN_EXPIRE, SCALE_DOWN_DISABLED);
      ok := PatchSetApply(node, ops, Drop({SCALE_DOWN_EXPIRE, SCALE_DOWN_DISABLED}));
    }

    // ---- the cron jobs ----

    /** What the last run did, from its guard, at `from`, to its end. */
    ghost predicate WithinBudget()
      reads this
    {
      && from <= |log| < |js| && js[from].stage == Rest(Synced)
      && (cfg.Job(kind).limit > 0 ==>
            |Budget.Begun(js, log, from, |log|)| <= cfg.Job(kind).limit + Budget.SweptCount(js, log, from, |log|))
    }

    lemma RunWithinBudget(guard: Past)
      requires Valid() && guard.Grows(Record()) && from < |guard.js| && guard.js[from].stage == Rest(Synced)
      ensures WithinBudget()
    {
      hide Budget.Begun, Budget.SweptCount, StepAt, Calls;
      if cfg.Job(kind).limit > 0 {
        Budget.RunStaysWithinBudget(cfg, kind, js, log, from, |log|);
      }
    }

    /** One tick of the repair job. */
    method RepairJob()
      requires Valid() && kind.Repair? && Place() == Rest(Idle)
      modifies `now, `js, `log, `from, locks, outside
      ensures Valid() && old(Record()).Grows(Record()) && Place() == Rest(Idle)
      ensures |old(log)| <= from && WithinBudget()
    {
      hide Recorded, WithinBudget, SyncExact.Rebuilt, Calls, Past.Grows, Past.Asks;
      Record().Onward();
      Sleep();
      var nodeList := SyncNodeLockCache();
      GuardedRun();
    }

    /** One tick of the update job. */
    method UpdateJob()
      requires Valid() && kind.Update? && Place() == Rest(Idle)
      modifies `now, `js, `log, `from, locks, outside
      ensures Valid() && old(Record()).Grows(Record()) && Place() == Rest(Idle)
      ensures |old(log)| <= from && WithinBudget()
    {
      hide Recorded, WithinBudget, SyncExact.Rebuilt, Calls, Past.Grows, Past.Asks;
      Record().Onward();
      Sleep();
      AutoUncordonExpiredNodes();
      Yield();
      var nodeList := SyncNodeLockCache();
      GuardedRun();
    }

    lemma OneMorePlace()
      requires Valid()
      ensures |js| == |log| + 1
    {
    }

    /** The end of both bodies: no run if the limit is reached. */
    method GuardedRun()
      requires Valid() && Place() == Rest(Synced)
      modifies `now, `js, `log, `from, locks, outside
      ensures Valid() && old(Record()).Grows(Record()) && Place() == Rest(Idle)
      ensures from == |old(log)| && WithinBudget()
    {
      hide Recorded, WithinBudget, Calls, Past.Grows, Past.Asks;
      Record().Onward();
      Depart();
      ghost var guard := Record();
      OneMorePlace();
      Yield();
      var count := locks.ItemCount();
      if cfg.Job(kind).limit > 0 && count >= cfg.Job(kind).limit {
        Decide(Rest(Idle));
      } else {
        Decide(Rest(Entered));
        if kind.Repair? {
          RepairRun();
        } else {
          ghost var asked, collected, calls := UpdateRun();
        }
      }
      RunWithinBudget(guard);
    }
  }

  /** What a repair asks Azure for: the instance, and then the configured action, if the instance is in an accepted state
      and the action is known for its kind of machine. */
  predicate RepairCalls(cfg: Config, name: string, vmss: bool, calls: seq<Event>, ok: bool) {
    var action := if vmss then cfg.repairVmssAction else cfg.repairVmAction;
    var known := if vmss then {"restart", "redeploy", "reimage", "delete"} else {"restart", "redeploy"};
    && calls != [] && calls[0].AzureGet? && calls[0].name == name
    && if calls[0].ok && Accepts(cfg, calls[0].state) && action in known
       then calls == [calls[0], AzureAct(name, RepairAction(action), ok)]
       else calls == [calls[0]] && !ok
  }

  lemma LastAct(cfg: Config, name: string, acts: seq<Event>, ok: bool)
    requires Protocol.IsActs(cfg, name, acts, ok)
    ensures acts != [] && Protocol.Last(acts).AzureAct?
    ensures ok ==> Protocol.Last(acts) ==
                   AzureAct(name, if cfg.updateAction == "update+reimage" then Redeploy else UpdateInstances, true)
  {
  }

  lemma NotRepaired(cfg: Config, name: string, vmss: bool, get: Event)
    requires get.AzureGet? && get.name == name
    requires get.ok && Accepts(cfg, get.state) ==>
               (if vmss then cfg.repairVmssAction !in {"restart", "redeploy", "reimage", "delete"}
                else cfg.repairVmAction !in {"restart", "redeploy"})
    ensures RepairCalls(cfg, name, vmss, [get], false)
  {
    hide Accepts;
  }

  lemma Repaired(cfg: Config, name: string, vmss: bool, get: Event, action: string, ok: bool)
    requires get.AzureGet? && get.name == name && get.ok && Accepts(cfg, get.state)
    requires action == if vmss then cfg.repairVmssAction else cfg.repairVmAction
    requires action in if vmss then {"restart", "redeploy", "reimage", "delete"} else {"restart", "redeploy"}
    ensures var calls := [get] + [AzureAct(name, RepairAction(action), ok)];
            RepairCalls(cfg, name, vmss, calls, ok) && About(cfg, name, calls)
  {
    hide Accepts;
  }

  /** The call of the machine for a node that could be parsed. */
  lemma ActionOf(cfg: Config, node: NodeObject, info: NodeInfo)
    requires Parsed(node) == Info(info)
    ensures var action := if info.machine.Vmss? then cfg.repairVmssAction else cfg.repairVmAction;
            var known := if info.machine.Vmss? then {"restart", "redeploy", "reimage", "delete"} else {"restart", "redeploy"};
            RepairCall(cfg, node) == if action in known then Some(RepairAction(action)) else None
  {
    hide Parsed;
  }

  predicate EndsWith(calls: seq<Event>, end: seq<Event>) {
    |end| <= |calls| && calls[|calls| - |end|..] == end
  }

  lemma LastThree(calls: seq<Event>, ends: seq<Event>)
    requires calls != []
    ensures |ends| == 2 ==> EndsWith(calls + ends, [Protocol.Last(calls), ends[0], ends[1]])
  {
    if |ends| == 2 {
      assert (calls + ends)[|calls + ends| - 3..] == [calls[|calls| - 1]] + ends;
    }
  }

  /** Calls about that node, none of them for a list, and a redeploy only where it is configured. */
  predicate About(cfg: Config, name: string, calls: seq<Event>) {
    forall e <- calls ::
      && (e.Patch? || e.Drain? || e.Uncordon? || e.AzureGet? || e.AzureAct?) && e.name == name
      && (e.AzureAct? && e.call == Redeploy ==> cfg.updateAction == "update+reimage")
  }

  lemma AboutBoth(cfg: Config, name: string, calls: seq<Event>, more: seq<Event>)
    requires About(cfg, name, calls) && About(cfg, name, more)
    ensures About(cfg, name, calls + more)
  {
  }

  lemma NoCalls(cfg: Config, name: string)
    ensures About(cfg, name, [])
  {
  }

  lemma AboutOne(cfg: Config, name: string, e: Event)
    requires (e.Patch? || e.Drain? || e.Uncordon? || e.AzureGet?) && e.name == name
    ensures About(cfg, name, [e])
  {
  }

  /** A call about one of the nodes of which none is the own node. */
  predicate AboutOneBeforeOwn(cfg: Config, nodes: seq<NodeObject>, e: Event) {
    exists i :: && 0 <= i < |nodes| && About(cfg, nodes[i].name, [e])
                && forall k :: 0 <= k <= i ==> cfg.self != Some(nodes[k].name)
  }

  lemma MoreAbout(cfg: Config, nodes: seq<NodeObject>, i: nat, calls: seq<Event>, more: seq<Event>)
    requires i < |nodes| && forall k :: 0 <= k <= i ==> cfg.self != Some(nodes[k].name)
    requires forall e <- calls :: AboutOneBeforeOwn(cfg, nodes, e)
    requires About(cfg, nodes[i].name, more)
    ensures forall e <- calls + more :: AboutOneBeforeOwn(cfg, nodes, e)
  {
    forall e <- more ensures AboutOneBeforeOwn(cfg, nodes, e) {
      assert About(cfg, nodes[i].name, [e]);
    }
  }

  lemma HeadOf(nodes: seq<NodeObject>, i: nat)
    requires i < |nodes|
    ensures nodes[i..] != [] && nodes[i..][0] == nodes[i] && nodes[i..][1..] == nodes[i + 1..]
    ensures nodes[i..] == [nodes[i]] + nodes[i + 1..]
  {
  }

  lemma FailedIs(cfg: Config, node: NodeObject)
    ensures Failed(cfg, node) == Busy(Locking(cfg.update.lockDurationError, true), node, [])
  {
  }

  lemma TwoNames(a: string, b: string)
    requires a != b
    ensures Distinct([a, b]) && NameSet([a, b]) == {a, b}
  {
  }
}

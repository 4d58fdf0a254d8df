/**
 A node that the update job is done with, drained or not, is left cordoned until the lock time of its annotation is over: if
 the check of autoUncordonExpiredNodes means the time left. As written, the next tick makes it schedulable again.
 */
module UncordonWindow {
  import opened Options
  import opened JsonPatch
  import opened Nodes
  import opened Settings
  import opened TimedCaches
  import opened Provisioning
  import opened Jobs
  import opened World
  import opened Plays
  import opened Ticks
  import Window = LockWindow
  import Limit = LockLimit

  /** No update lock that is over before `until`. */
  predicate NotEarly(cfg: Config, annotations: Annotations, until: int) {
    cfg.update.lockAnnotation in annotations ==>
      annotations[cfg.update.lockAnnotation].Stamp? && annotations[cfg.update.lockAnnotation].instant >= until
  }

  /** autoUncordonExpiredNodes shows the node with nothing earlier, and only uncordons it after `until`. */
  predicate Patient(cfg: Config, now: int, stage: Stage, name: string, until: int) {
    match stage
    case Head(AutoUncordon, todo) => forall node <- todo :: node.name == name ==> NotEarly(cfg, node.annotations, until)
    case Busy(AutoUncordoning, node, todo) =>
      && (node.name == name ==> until <= now)
      && forall other <- todo :: other.name == name ==> NotEarly(cfg, other.annotations, until)
    case _ => true
  }

  predicate Waits(cfg: Config, w: World, name: string, until: int) {
    && (name in w.nodes ==> NotEarly(cfg, w.nodes[name].annotations, until))
    && Patient(cfg, w.now, w.update.stage, name, until)
  }

  /** The update job writes a lock annotation of the node, and the API server takes it. */
  predicate WritesLock(w: World, h: Happening, name: string) {
    && w.update.stage.Busy? && w.update.stage.task.Writing? && w.update.stage.node.name == name
    && h.what.ByJob? && h.what.kind.Update? && h.what.event.Patch? && h.what.applied
  }

  /** The list that autoUncordonExpiredNodes takes is current, and others write no earlier lock. */
  ghost predicate Assumed(cfg: Config, w: World, h: Happening, name: string, until: int) {
    match h.what
    case ByJob(kind, e, _) =>
      kind.Update? && e.Listed? && w.update.stage == Rest(Idle) ==> Current(e.view, w.nodes)
    case Died => true
    case ByOthers(change) =>
      (match change
       case Annotated(n, key, value) =>
         n == name && key == cfg.update.lockAnnotation && value.Some? ==> value.value.Stamp? && value.value.instant >= until
       case Joined(node) => node.name == name ==> NotEarly(cfg, node.annotations, until)
       case _ => true)
  }

  // ---- one step ----

  lemma LocalPatient(cfg: Config, now: int, at: int, j: Job, name: string, until: int)
    requires cfg.reading.Remaining? && now <= at && Patient(cfg, now, j.stage, name, until)
    requires LocalStep(cfg, Update, at, j).Some?
    ensures Patient(cfg, at, LocalStep(cfg, Update, at, j).value.stage, name, until)
  {
    hide Parsed, RepairCall, LockValues, HealthOf, Overdue, BanIsOver;
  }

  lemma AnswerPatient(cfg: Config, now: int, at: int, stage: Stage, e: Event, name: string, until: int)
    requires now <= at && Patient(cfg, now, stage, name, until) && stage.Busy?
    requires AnswerStep(cfg, Update, stage.task, stage.node, stage.todo, e).Some?
    ensures Patient(cfg, at, AnswerStep(cfg, Update, stage.task, stage.node, stage.todo, e).value, name, until)
  {
    hide RepairCall, MarkValues, LockValuesAt, Accepts, NotEarly;
  }

  lemma ListedPatient(cfg: Config, at: int, j: Job, view: seq<NodeObject>, next: Job, nodes: Cluster, name: string, until: int)
    requires ListedStep(Update, j, view) == Some(next) && (j.stage == Rest(Idle) ==> Current(view, nodes))
    requires name in nodes ==> NotEarly(cfg, nodes[name].annotations, until)
    ensures Patient(cfg, at, next.stage, name, until)
  {
    hide NotEarly;
  }

  lemma StepPatient(cfg: Config, now: int, at: int, j: Job, e: Event, next: Job, nodes: Cluster, name: string, until: int)
    requires cfg.reading.Remaining? && now <= at && Patient(cfg, now, j.stage, name, until)
    requires Step(cfg, Update, at, j, e) == Some(next)
    requires e.Listed? && j.stage == Rest(Idle) ==> Current(e.view, nodes)
    requires name in nodes ==> NotEarly(cfg, nodes[name].annotations, until)
    ensures Patient(cfg, at, next.stage, name, until)
  {
    hide LocalStep, ListedStep, AnswerStep, NotEarly, Current, CollectedStep;
    match e
    case Local => LocalPatient(cfg, now, at, j, name, until);
    case Swept => LaterPatient(cfg, now, at, j.stage, name, until);
    case Listed(view) => ListedPatient(cfg, at, j, view, next, nodes, name, until);
    case Collected(_, _, _, _) => CollectedPatient(cfg, at, e, name, until);
    case _ => AnswerPatient(cfg, now, at, j.stage, e, name, until);
  }

  lemma CollectedPatient(cfg: Config, at: int, e: Event, name: string, until: int)
    requires e.Collected?
    ensures Patient(cfg, at, CollectedStep(cfg, e.view, e.outdated, e.failed, e.reachable), name, until)
  {
    hide Candidates;
  }

  lemma LaterPatient(cfg: Config, now: int, at: int, stage: Stage, name: string, until: int)
    requires now <= at && Patient(cfg, now, stage, name, until)
    ensures Patient(cfg, at, stage, name, until)
  {
  }

  /** Nothing but the lock patch of the update job writes the annotation. */
  lemma EventNotEarly(cfg: Config, kind: Kind, w: World, h: Happening, nodes: Cluster, name: string, until: int)
    requires cfg.DistinctAnnotations() && h.what.ByJob? && h.what.kind == kind && Proper(cfg, kind, w.JobOf(kind).stage)
    requires Step(cfg, kind, h.at, w.JobOf(kind), h.what.event).Some? && !WritesLock(w, h, name)
    requires EventEffect(cfg, w.nodes, h.what.event, h.what.applied) == Some(nodes)
    requires name in w.nodes ==> NotEarly(cfg, w.nodes[name].annotations, until)
    ensures name in nodes ==> NotEarly(cfg, nodes[name].annotations, until)
  {
    hide EventEffect, Proper, LocalStep, ListedStep, AnswerStep, CollectedStep;
    if name in nodes {
      Limit.EventLive(cfg, Update, kind, h.at, w.JobOf(kind), h.what.event, h.what.applied, w.nodes, name);
    }
  }

  lemma OutsideNotEarly(cfg: Config, w: World, h: Happening, name: string, until: int)
    requires h.what.ByOthers? && Assumed(cfg, w, h, name, until)
    requires name in w.nodes ==> NotEarly(cfg, w.nodes[name].annotations, until)
    ensures var nodes := OutsideEffect(w.nodes, h.what.change); name in nodes ==> NotEarly(cfg, nodes[name].annotations, until)
  {
  }

  lemma StepWaits(cfg: Config, w: World, h: Happening, next: World, name: string, until: int)
    requires cfg.DistinctAnnotations() && cfg.reading.Remaining? && Orderly(cfg, w) && Waits(cfg, w, name, until)
    requires WorldStep(cfg, w, h) == Some(next) && Assumed(cfg, w, h, name, until) && !WritesLock(w, h, name)
    ensures Waits(cfg, next, name, until)
  {
    hide Step, EventEffect, OutsideEffect, Patient, NotEarly, Tidy, Proper, Keyed, Current;
    match h.what
    case ByJob(kind, e, applied) =>
      EventNotEarly(cfg, kind, w, h, next.nodes, name, until);
      if kind.Update? {
        StepPatient(cfg, w.now, h.at, w.update, e, next.update, w.nodes, name, until);
      } else {
        LaterPatient(cfg, w.now, h.at, w.update.stage, name, until);
      }
    case Died => FreshPatient(cfg, h.at, name, until);
    case ByOthers(_) =>
      OutsideNotEarly(cfg, w, h, name, until);
      LaterPatient(cfg, w.now, h.at, w.update.stage, name, until);
  }

  lemma FreshPatient(cfg: Config, at: int, name: string, until: int)
    ensures Patient(cfg, at, FRESH_JOB.stage, name, until)
  {
  }

  // ---- all behaviours ----

  lemma {:induction false} StaysWaiting(cfg: Config, ws: seq<World>, hs: seq<Happening>, i: nat, j: nat, name: string, until: int)
    requires cfg.DistinctAnnotations() && cfg.reading.Remaining? && Behaviour(cfg, ws, hs) && i <= j <= |hs|
    requires Waits(cfg, ws[i], name, until)
    requires forall k :: i <= k < j ==> Assumed(cfg, ws[k], hs[k], name, until) && !WritesLock(ws[k], hs[k], name)
    ensures Waits(cfg, ws[j], name, until)
  {
    hide WorldStep, Waits, Orderly, Assumed, WritesLock;
    if i < j {
      StaysWaiting(cfg, ws, hs, i, j - 1, name, until);
      AlwaysOrderly(cfg, ws, hs, j - 1);
      assert HappensAt(cfg, ws, hs, j - 1);
      StepWaits(cfg, ws[j - 1], hs[j - 1], ws[j], name, until);
    }
  }

  /** The lock time that AnnotationLockSet fixes. */
  lemma StampedUntil(cfg: Config, at: int, j: Job, e: Event, next: Job, dur: int)
    requires cfg.DistinctAnnotations() && j.stage.Busy? && j.stage.task == Stamping(dur)
    requires e.Clock? && Step(cfg, Update, at, j, e) == Some(next)
    ensures next.stage.Busy? && next.stage.task.Writing? && next.stage.node == j.stage.node && next.stage.task.change.Set?
    ensures var values, lock := next.stage.task.change.values, cfg.update.lockAnnotation;
            lock in values && values[lock] == Rfc3339(at + dur)
  {
    cfg.OwnNames();
    Window.LockValueOf(cfg.update.lockAnnotation, dur, cfg.scaledownLockTime, e.first, e.second);
    hide LockValuesAt;
  }

  lemma WrittenWaits(cfg: Config, w: World, h: Happening, next: World, name: string, until: int)
    requires WorldStep(cfg, w, h) == Some(next) && WritesLock(w, h, name) && w.update.stage.task.change.Set?
    requires cfg.update.lockAnnotation in w.update.stage.task.change.values
    requires w.update.stage.task.change.values[cfg.update.lockAnnotation] == Stamp(until)
    ensures Waits(cfg, next, name, until)
  {
    hide LocalStep;
  }

  /** autoUncordonExpiredNodes makes the node schedulable. */
  predicate Reopens(w: World, h: Happening, name: string) {
    && h.what.ByJob? && h.what.kind.Update? && h.what.event.Uncordon? && h.what.event.name == name
    && w.update.stage.Busy? && w.update.stage.task.AutoUncordoning?
  }

  lemma WaitsNotReopened(cfg: Config, w: World, h: Happening, next: World, name: string, until: int)
    requires Waits(cfg, w, name, until) && Reopens(w, h, name) && WorldStep(cfg, w, h) == Some(next)
    ensures until <= h.at
  {
    hide NotEarly;
  }

  /** Happening s looks at the clock and so fixes the lock time of the node (for a success or for an error), happening i
      writes it, it is the last one written, and happening j is an uncordon by autoUncordonExpiredNodes: it comes no sooner
      than a second before the duration is over. */
  lemma UncordonWindow(cfg: Config, ws: seq<World>, hs: seq<Happening>, s: nat, i: nat, j: nat, name: string, dur: int)
    requires cfg.DistinctAnnotations() && cfg.reading.Remaining? && Behaviour(cfg, ws, hs) && s < i < j < |hs|
    requires ws[s].update.stage.Busy? && ws[s].update.stage.task == Stamping(dur) && ws[s].update.stage.node.name == name
    requires hs[s].what.ByJob? && hs[s].what.kind.Update? && hs[s].what.event.Clock?
    requires ws[i].update.stage == ws[s + 1].update.stage && WritesLock(ws[i], hs[i], name)
    requires Reopens(ws[j], hs[j], name)
    requires forall k :: i < k < j ==> Assumed(cfg, ws[k], hs[k], name, hs[s].at + dur) && !WritesLock(ws[k], hs[k], name)
    ensures hs[j].at > hs[s].at + dur - SECOND
  {
    hide WorldStep, Step, Waits, Assumed, WritesLock, Reopens;
    assert HappensAt(cfg, ws, hs, s) && HappensAt(cfg, ws, hs, i) && HappensAt(cfg, ws, hs, j);
    UpdateStep(cfg, ws[s], hs[s], ws[s + 1]);
    StampedUntil(cfg, hs[s].at, ws[s].update, hs[s].what.event, ws[s + 1].update, dur);
    TruncationLosesLessThanASecond(hs[s].at + dur);
    var until := Rfc3339(hs[s].at + dur).instant;
    WrittenWaits(cfg, ws[i], hs[i], ws[i + 1], name, until);
    forall k | i < k < j ensures Assumed(cfg, ws[k], hs[k], name, until) {
      AssumedEarlier(cfg, ws[k], hs[k], name, until, hs[s].at + dur);
    }
    StaysWaiting(cfg, ws, hs, i + 1, j, name, until);
    WaitsNotReopened(cfg, ws[j], hs[j], ws[j + 1], name, until);
  }

  lemma AssumedEarlier(cfg: Config, w: World, h: Happening, name: string, until: int, later: int)
    requires Assumed(cfg, w, h, name, later) && until <= later
    ensures Assumed(cfg, w, h, name, until)
  {
  }

  lemma UpdateStep(cfg: Config, w: World, h: Happening, next: World)
    requires WorldStep(cfg, w, h) == Some(next) && h.what.ByJob? && h.what.kind.Update?
    ensures Step(cfg, Update, h.at, w.update, h.what.event) == Some(next.update)
  {
    hide Step;
  }

  // ---- as written ----

  /** The node as a failed update that began at `t` leaves it. */
  function LeftDrained(cfg: Config, node: NodeObject, t: int): NodeObject {
    var flying := Flying(cfg, node);
    flying.(annotations := flying.annotations + ErrorLock(cfg, t))
  }

  function ErrorLock(cfg: Config, t: int): Annotations {
    LockValues(cfg.update.lockAnnotation, cfg.update.lockDurationError, cfg.scaledownLockTime, t)
  }

  function ErrorLocked(cfg: Config, name: string, t: int): Cache<bool> {
    Added(NO_LOCKS, name, true, cfg.update.lockDurationError, LOCK_LIFE, t)
  }

  function FailedCall(t: int, name: string): Happening {
    By(Update, t, AzureAct(name, UpdateInstances, false), false)
  }

  lemma FailSteps(cfg: Config, t: int, node: NodeObject)
    ensures var dur, locks := cfg.update.lockDurationError, ErrorLocked(cfg, node.name, t);
            && Step(cfg, Update, t, InFlight(node), FailedCall(t, node.name).what.event) ==
               Some(Job(NO_LOCKS, Busy(Locking(dur, true), node, [])))
            && LocalStep(cfg, Update, t, Job(NO_LOCKS, Busy(Locking(dur, true), node, []))) ==
               Some(Job(locks, Busy(Stamping(dur), node, [])))
            && LocalStep(cfg, Update, t, Job(locks, Head(UpdateRun, []))) == Some(Job(locks, Rest(Idle)))
  {
    hide Added;
  }

  /** The Azure call, at position |hs|, fails, and the node is locked; `node` is what the update job works with. */
  lemma FailPhase(cfg: Config, w: World, hs: seq<Happening>, t: int, node: NodeObject, other: Job)
      returns (more: seq<Happening>)
    requires Leads(cfg, w, hs, Scene(t, Flying(cfg, node), Update, InFlight(node), other))
    ensures hs + [FailedCall(t, node.name)] <= more && SmoothFrom(more, |hs| + 1)
    ensures Leads(cfg, w, more, Scene(t, LeftDrained(cfg, node, t), Update, Job(ErrorLocked(cfg, node.name, t), Rest(Idle)), other))
  {
    hide Leads, Step, LocalStep, Flying, LockValues, ErrorLocked;
    var dur, locks, change := cfg.update.lockDurationError, ErrorLocked(cfg, node.name, t), Set(ErrorLock(cfg, t));
    var now, after := Flying(cfg, node), LeftDrained(cfg, node, t);
    var locking, stamping := Job(NO_LOCKS, Busy(Locking(dur, true), node, [])), Job(locks, Busy(Stamping(dur), node, []));
    var writing, done := Job(locks, Busy(Writing(change), node, [])), Job(locks, Head(UpdateRun, []));
    FlyingName(cfg, node);
    FailSteps(cfg, t, node);
    WriteSteps(cfg, Update, dur, t, node, [], locks);
    more := hs + [FailedCall(t, node.name)];
    One(cfg, w, hs, Scene(t, now, Update, InFlight(node), other), FailedCall(t, node.name), Scene(t, now, Update, locking, other));
    more := Inside(cfg, w, more, Update, t, t, now, locking, other, stamping);
    more := Call(cfg, w, more, Update, t, t, now, stamping, other, Clock(node.name, t, t), writing);
    more := Send(cfg, w, more, Update, t, now, writing, other, change, done, after);
    more := Inside(cfg, w, more, Update, t, t, after, done, other, Job(locks, Rest(Idle)));
  }

  lemma EarlySteps(cfg: Config, node: NodeObject, t: int, later: int, locks: Cache<bool>)
    requires cfg.DistinctAnnotations() && cfg.reading.Since? && cfg.drain.enable && !cfg.drain.dryRun
    requires later <= Rfc3339(t + cfg.update.lockDurationError).instant
    ensures var left := LeftDrained(cfg, node, t);
            && Step(cfg, Update, later, Job(locks, Rest(Idle)), Listed([left])) == Some(Job(locks, Head(AutoUncordon, [left])))
            && LocalStep(cfg, Update, later, Job(locks, Head(AutoUncordon, [left]))) ==
               Some(Job(locks, Busy(AutoUncordoning, left, [])))
            && Step(cfg, Update, later, Job(locks, Busy(AutoUncordoning, left, [])), Uncordon(left.name, true)) ==
               Some(Job(locks, Head(AutoUncordon, [])))
            && left.unschedulable && left.name == node.name
  {
    cfg.OwnNames();
    FlyingName(cfg, node);
    Window.LockValueOf(cfg.update.lockAnnotation, cfg.update.lockDurationError, cfg.scaledownLockTime, t, t);
    hide LockValuesAt, Flying;
    var left := LeftDrained(cfg, node, t);
    assert [left][1..] == [];
  }

  function EarlyUncordon(t: int, name: string): Happening {
    By(Update, t, Uncordon(name, true), true)
  }

  /** The next tick makes the node schedulable, at position `call`. */
  lemma EarlyPhase(cfg: Config, w: World, hs: seq<Happening>, t: int, later: int, node: NodeObject, locks: Cache<bool>)
      returns (more: seq<Happening>, call: nat)
    requires cfg.DistinctAnnotations() && cfg.reading.Since? && cfg.drain.enable && !cfg.drain.dryRun
    requires t <= later <= Rfc3339(t + cfg.update.lockDurationError).instant
    requires Leads(cfg, w, hs, Scene(t, LeftDrained(cfg, node, t), Update, Job(locks, Rest(Idle)), FRESH_JOB))
    ensures Continued(hs, more) && |hs| <= call && |more| == call + 1 && more[call] == EarlyUncordon(later, node.name)
    ensures Leads(cfg, w, more[..call], Scene(later, LeftDrained(cfg, node, t), Update,
                                              Job(locks, Busy(AutoUncordoning, LeftDrained(cfg, node, t), [])), FRESH_JOB))
    ensures Leads(cfg, w, more, Scene(later, LeftDrained(cfg, node, t).(unschedulable := false), Update,
                                      Job(locks, Head(AutoUncordon, [])), FRESH_JOB))
  {
    hide Leads, Step, LocalStep, LeftDrained;
    var left := LeftDrained(cfg, node, t);
    var uncordoning := Job(locks, Busy(AutoUncordoning, left, []));
    EarlySteps(cfg, node, t, later, locks);
    more := Call(cfg, w, hs, Update, t, later, left, Job(locks, Rest(Idle)), FRESH_JOB, Listed([left]),
                 Job(locks, Head(AutoUncordon, [left])));
    more := Inside(cfg, w, more, Update, later, later, left, Job(locks, Head(AutoUncordon, [left])), FRESH_JOB, uncordoning);
    call := |more|;
    var before, after, h := more, left.(unschedulable := false), EarlyUncordon(later, node.name);
    assert map[left.name := left][left.name := after] == map[left.name := after];
    more := before + [h];
    One(cfg, w, before, Scene(later, left, Update, uncordoning, FRESH_JOB), h,
        Scene(later, after, Update, Job(locks, Head(AutoUncordon, [])), FRESH_JOB));
    assert more[..call] == before;
  }

  /** As written, in every configuration with draining: the node is drained, the Azure update at `f` fails, and the next
      tick, at any time up to the end of the error lock, makes the node schedulable again, at `j`. Nothing else fails, and
      all lists are current. */
  lemma DrainedNodeReopened(cfg: Config, node: NodeObject, t1: int, t2: int)
      returns (ws: seq<World>, hs: seq<Happening>, f: nat, j: nat)
    requires cfg.DistinctAnnotations() && cfg.reading.Since? && cfg.drain.enable && !cfg.drain.dryRun
    requires TakenUp(cfg, node) && cfg.update.lockAnnotation !in node.annotations && !BanIsOver(cfg, node, t1)
    requires t1 <= t2 <= Rfc3339(t1 + cfg.update.lockDurationError).instant
    ensures Behaviour(cfg, ws, hs) && Lively(ws, hs) && ws[0] == Scene(t1, node, Update, FRESH_JOB, FRESH_JOB)
    ensures f < j < |hs| && hs[f] == FailedCall(t1, node.name) && forall k :: 0 <= k < |hs| && k != f ==> Smooth(hs[k])
    ensures Reopens(ws[j], hs[j], node.name) && hs[j] == EarlyUncordon(t2, node.name)
    ensures node.name in ws[j].nodes && ws[j].nodes[node.name].unschedulable
    ensures node.name in ws[j + 1].nodes && !ws[j + 1].nodes[node.name].unschedulable
    ensures t2 <= t1 + cfg.update.lockDurationError
  {
    hide Leads, TakenUp, BanIsOver, Lively, Flying, MarkValues, LeftDrained, ErrorLocked, Starts, HappensAt;
    var w := Scene(t1, node, Update, FRESH_JOB, FRESH_JOB);
    var left := LeftDrained(cfg, node, t1);
    FreshStarts(t1, node, Update);
    Nothing(cfg, w);
    hs := ApproachPhase(cfg, w, [], t1, t1, node, FRESH_JOB);
    var mark;
    hs, mark := FlightPhase(cfg, w, hs, t1, node, FRESH_JOB, None);
    f := |hs|;
    hs := FailPhase(cfg, w, hs, t1, node, FRESH_JOB);
    var locks := ErrorLocked(cfg, node.name, t1);
    EarlySteps(cfg, node, t1, t2, locks);
    hs, j := EarlyPhase(cfg, w, hs, t1, t2, node, locks);
    assert hs[..|hs|] == hs;
    ws := Replayed(cfg, w, hs, Scene(t2, left.(unschedulable := false), Update, Job(locks, Head(AutoUncordon, [])), FRESH_JOB));
    TruncationLosesLessThanASecond(t1 + cfg.update.lockDurationError);
  }
}

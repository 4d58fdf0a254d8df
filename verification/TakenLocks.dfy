/**
 The limit over time in terms of what was done: the nodes that were repaired and locked, and whose lock would not be over
 yet, stay within the limit of the repair job.
 */
module TakenLocks {
  import opened Options
  import opened JsonPatch
  import opened Nodes
  import opened Settings
  import opened SetSizes
  import opened Jobs
  import opened World
  import opened LockWindow
  import opened JobLimits
  import Limit = LockLimit

  /** The lock time that a lock patch of the repair job writes, if the API server takes it. */
  function TakenUntil(cfg: Config, h: Happening): Option<int> {
    match h.what
    case ByJob(Repair, Patch(_, change, _), true) => LockTime(cfg, Repair, change)
    case _ => None
  }

  predicate TakesLock(cfg: Config, h: Happening, now: int) {
    TakenUntil(cfg, h).Some? && now < TakenUntil(cfg, h).value
  }

  function LockedName(h: Happening): string {
    match h.what
    case ByJob(_, Patch(name, _, _), _) => name
    case _ => ""
  }

  /** The nodes that were locked so far, and whose lock is not over now. */
  function Taken(cfg: Config, hs: seq<Happening>, now: int): set<string> {
    set k | 0 <= k < |hs| && TakesLock(cfg, hs[k], now) :: LockedName(hs[k])
  }

  lemma IsTaken(cfg: Config, hs: seq<Happening>, k: nat, now: int)
    requires k < |hs| && TakesLock(cfg, hs[k], now)
    ensures LockedName(hs[k]) in Taken(cfg, hs, now)
  {
  }

  /** Only the lock patch of a run writes a lock. */
  lemma TakenIsWritten(cfg: Config, w: World, h: Happening, next: World)
    requires cfg.DistinctAnnotations() && Orderly(cfg, w) && WorldStep(cfg, w, h) == Some(next)
    requires TakenUntil(cfg, h).Some?
    ensures WritesLock(cfg, Repair, w, h, LockedName(h), TakenUntil(cfg, h).value)
  {
    hide Tidy, Keyed, EventEffect, LocalStep, IsLockChange;
  }

  /** Up to j, others spare the nodes that are counted at j. */
  ghost predicate SparedUpTo(cfg: Config, ws: seq<World>, hs: seq<Happening>, j: nat)
    requires j <= |hs| && |ws| == |hs| + 1
  {
    forall k, name :: 0 <= k < j && name in Taken(cfg, hs[..j], ws[j].now) ==> SparedAt(cfg, hs[k], name)
  }

  predicate SparedAt(cfg: Config, h: Happening, name: string) {
    h.what.ByOthers? ==> Spares(cfg, name, h.what.change)
  }

  lemma WindowAssumed(cfg: Config, w: World, h: Happening, name: string, until: int)
    requires cfg.reading.Remaining? && Limit.Assumed(cfg, Repair, w, h) && SparedAt(cfg, h, name)
    ensures Assumed(cfg, w, h, name, until)
  {
  }

  /** A lock that was taken at k and is not over at j is live then. */
  lemma TakenIsLive(cfg: Config, ws: seq<World>, hs: seq<Happening>, k: nat, j: nat)
    requires cfg.DistinctAnnotations() && cfg.reading.Remaining? && Behaviour(cfg, ws, hs) && k < j <= |hs|
    requires forall i :: 0 <= i < |hs| ==> Limit.Assumed(cfg, Repair, ws[i], hs[i])
    requires SparedUpTo(cfg, ws, hs, j) && TakesLock(cfg, hs[k], ws[j].now)
    ensures LockedName(hs[k]) in Limit.LiveLocks(cfg, Repair, ws[j])
  {
    hide WorldStep, Orderly, Limit.Assumed, SparedAt, Assumed, Protected, TakenUntil, LockedName;
    var name, until := LockedName(hs[k]), TakenUntil(cfg, hs[k]).value;
    assert HappensAt(cfg, ws, hs, k);
    AlwaysOrderly(cfg, ws, hs, k);
    TakenIsWritten(cfg, ws[k], hs[k], ws[k + 1]);
    WrittenProtects(cfg, ws[k], hs[k], ws[k + 1], name, until);
    assert hs[..j][k] == hs[k];
    IsTaken(cfg, hs[..j], k, ws[j].now);
    forall i | k + 1 <= i < j ensures Assumed(cfg, ws[i], hs[i], name, until) {
      assert SparedAt(cfg, hs[i], name);
      WindowAssumed(cfg, ws[i], hs[i], name, until);
    }
    StaysProtected(cfg, ws, hs, k + 1, j, name, until);
    ProtectedIsLive(cfg, ws[j], name, until);
  }

  lemma ProtectedIsLive(cfg: Config, w: World, name: string, until: int)
    requires Protected(cfg, w, name, until) && w.now < until
    ensures name in Limit.LiveLocks(cfg, Repair, w)
  {
    hide Guarded;
  }

  /** Under the hypotheses of LockLimit, and if nobody else takes a lock annotation or the node away, the nodes that were
      locked and whose lock is not over are never more than the limit. */
  lemma TakenWithinLimit(cfg: Config, ws: seq<World>, hs: seq<Happening>, j: nat)
    requires cfg.DistinctAnnotations() && cfg.reading.Remaining? && cfg.repair.limit > 0
    requires Behaviour(cfg, ws, hs) && j <= |hs| && |Limit.LiveLocks(cfg, Repair, ws[0])| <= cfg.repair.limit
    requires Limit.AllAssumed(cfg, Repair, ws, hs) && (cfg.repair.limit == 1 || Limit.AllKept(cfg, Repair, ws, hs))
    requires SparedUpTo(cfg, ws, hs, j)
    ensures |Taken(cfg, hs[..j], ws[j].now)| <= cfg.repair.limit
  {
    hide HappensAt, Starts, SparedUpTo, Limit.LiveLocks, Limit.Assumed, Limit.Harmless, Limit.Kept, LockedName, TakesLock;
    forall name | name in Taken(cfg, hs[..j], ws[j].now) ensures name in Limit.LiveLocks(cfg, Repair, ws[j]) {
      var k :| 0 <= k < j && TakesLock(cfg, hs[..j][k], ws[j].now) && name == LockedName(hs[..j][k]);
      TakenIsLive(cfg, ws, hs, k, j);
    }
    RepairLocksWithinLimit(cfg, ws, hs, j);
    SubsetSize(Taken(cfg, hs[..j], ws[j].now), Limit.LiveLocks(cfg, Repair, ws[j]));
  }
}

/**
 Behaviours made by hand: playing a list of happenings of the two jobs, step by step, in any cluster. Every list a job
 gets is current. The lemmas about a `Scene` are for a cluster of one node.
 */
module Plays {
  import opened Options
  import opened JsonPatch
  import opened Nodes
  import opened Settings
  import opened TimedCaches
  import opened Provisioning
  import opened Jobs
  import opened World

  /** Every list a job gets is current. */
  ghost predicate Informed(w: World, h: Happening) {
    && (h.what.ByJob? && h.what.event.Listed? ==> Current(h.what.event.view, w.nodes))
    && (h.what.ByJob? && h.what.event.Collected? ==> Current(h.what.event.view, w.nodes))
  }

  /** A job does something and every call to the outside succeeds; the janitor sleeps. */
  predicate Smooth(h: Happening) {
    h.what.ByJob? &&
    match h.what.event
    case Swept => false
    case Patch(_, _, ok) => ok && h.what.applied
    case Drain(_, _, ok) => ok
    case Uncordon(_, ok) => ok
    case AzureGet(_, ok, _) => ok
    case AzureAct(_, _, ok) => ok
    case Collected(_, _, _, reachable) => reachable
    case _ => true
  }

  /** A step of a job, with a current list if it takes one. */
  ghost predicate Played(cfg: Config, w: World, h: Happening, next: World) {
    Informed(w, h) && h.what.ByJob? && WorldStep(cfg, w, h) == Some(next)
  }

  /** Only the jobs do anything, and their lists are current. */
  ghost predicate Lively(ws: seq<World>, hs: seq<Happening>)
    requires |ws| == |hs| + 1
  {
    forall i :: 0 <= i < |hs| ==> Informed(ws[i], hs[i]) && hs[i].what.ByJob?
  }

  /** Nothing goes wrong either, from `from` on. */
  predicate SmoothFrom(hs: seq<Happening>, from: nat) {
    forall k :: from <= k < |hs| ==> Smooth(hs[k])
  }

  ghost predicate Fair(ws: seq<World>, hs: seq<Happening>)
    requires |ws| == |hs| + 1
  {
    Lively(ws, hs) && SmoothFrom(hs, 0)
  }

  /** `more` goes on from `hs`, and nothing goes wrong. */
  predicate Continued(hs: seq<Happening>, more: seq<Happening>) {
    hs <= more && SmoothFrom(more, |hs|)
  }

  /** A cluster of one node, with the job at hand and the other one. */
  function Scene(now: int, node: NodeObject, kind: Kind, mine: Job, other: Job): World {
    match kind
    case Repair => World(now, map[node.name := node], mine, other)
    case Update => World(now, map[node.name := node], other, mine)
  }

  function By(kind: Kind, at: int, e: Event, applied: bool): Happening {
    Happening(at, ByJob(kind, e, applied))
  }

  const NO_LOCKS: Cache<bool> := map[]

  /** The worlds on the way from w through hs. */
  ghost predicate Way(cfg: Config, w: World, hs: seq<Happening>, ws: seq<World>) {
    && |ws| == |hs| + 1 && ws[0] == w
    && forall i :: 0 <= i < |hs| ==> PlayedAt(cfg, ws, hs, i)
  }

  ghost predicate PlayedAt(cfg: Config, ws: seq<World>, hs: seq<Happening>, i: nat)
    requires i < |hs| && i + 1 < |ws|
  {
    Played(cfg, ws[i], hs[i], ws[i + 1])
  }

  /** What has been played so far leads here. */
  ghost predicate Leads(cfg: Config, w: World, hs: seq<Happening>, next: World) {
    exists ws :: Way(cfg, w, hs, ws) && ws[|hs|] == next
  }

  lemma Nothing(cfg: Config, w: World)
    ensures Leads(cfg, w, [], w)
  {
    assert Way(cfg, w, [], [w]);
  }

  lemma One(cfg: Config, w: World, hs: seq<Happening>, mid: World, h: Happening, next: World)
    requires Leads(cfg, w, hs, mid) && Played(cfg, mid, h, next)
    ensures Leads(cfg, w, hs + [h], next)
  {
    hide Played;
    var ws :| Way(cfg, w, hs, ws) && ws[|hs|] == mid;
    var longer, all := ws + [next], hs + [h];
    forall i | 0 <= i < |all| ensures PlayedAt(cfg, longer, all, i) {
      if i < |hs| {
        assert PlayedAt(cfg, ws, hs, i);
      }
    }
    assert Way(cfg, w, all, longer);
  }

  /** A way is the only one, and so is a part of it. */
  lemma {:induction false} OneWay(cfg: Config, w: World, hs: seq<Happening>, ws: seq<World>, i: nat, vs: seq<World>)
    requires Way(cfg, w, hs, ws) && i <= |hs| && Way(cfg, w, hs[..i], vs)
    ensures vs[i] == ws[i]
  {
    hide WorldStep, Informed;
    if i > 0 {
      var before, part := hs[..i - 1], vs[..i];
      forall k | 0 <= k < |before| ensures PlayedAt(cfg, part, before, k) {
        assert PlayedAt(cfg, vs, hs[..i], k);
      }
      OneWay(cfg, w, hs, ws, i - 1, part);
      assert PlayedAt(cfg, vs, hs[..i], i - 1) && PlayedAt(cfg, ws, hs, i - 1);
    }
  }

  /** One more happening, which leaves the cluster as it is; a list is current. */
  lemma Call(cfg: Config, w: World, hs: seq<Happening>, kind: Kind, start: int, t: int, node: NodeObject,
             j: Job, other: Job, e: Event, next: Job) returns (more: seq<Happening>)
    requires Leads(cfg, w, hs, Scene(start, node, kind, j, other)) && start <= t
    requires Step(cfg, kind, t, j, e) == Some(next) && !e.Patch? && !e.Drain? && !e.Uncordon?
    requires e.Listed? || e.Collected? ==> e.view == [node]
    requires Smooth(By(kind, t, e, false))
    ensures more == hs + [By(kind, t, e, false)] && Continued(hs, more)
    ensures Leads(cfg, w, more, Scene(t, node, kind, next, other))
  {
    hide Step, Leads, Smooth;
    more := hs + [By(kind, t, e, false)];
    One(cfg, w, hs, Scene(start, node, kind, j, other), By(kind, t, e, false), Scene(t, node, kind, next, other));
  }

  /** One more step inside the process. */
  lemma Inside(cfg: Config, w: World, hs: seq<Happening>, kind: Kind, start: int, t: int, node: NodeObject,
               j: Job, other: Job, next: Job) returns (more: seq<Happening>)
    requires Leads(cfg, w, hs, Scene(start, node, kind, j, other)) && start <= t
    requires LocalStep(cfg, kind, t, j) == Some(next)
    ensures more == hs + [By(kind, t, Local, false)] && Continued(hs, more)
    ensures Leads(cfg, w, more, Scene(t, node, kind, next, other))
  {
    hide LocalStep, Leads;
    more := Call(cfg, w, hs, kind, start, t, node, j, other, Local, next);
  }

  /** A patch that is taken. */
  lemma Send(cfg: Config, w: World, hs: seq<Happening>, kind: Kind, t: int, node: NodeObject,
             j: Job, other: Job, change: Change, next: Job, after: NodeObject) returns (more: seq<Happening>)
    requires Leads(cfg, w, hs, Scene(t, node, kind, j, other))
    requires Step(cfg, kind, t, j, Patch(node.name, change, true)) == Some(next)
    requires Effect(node.annotations, change) == Applied(after.annotations)
    requires after == node.(annotations := after.annotations)
    ensures more == hs + [By(kind, t, Patch(node.name, change, true), true)] && Continued(hs, more)
    ensures Leads(cfg, w, more, Scene(t, after, kind, next, other))
  {
    hide Step, Leads, Effect;
    assert map[node.name := node][node.name := after] == map[node.name := after];
    var h := By(kind, t, Patch(node.name, change, true), true);
    more := hs + [h];
    One(cfg, w, hs, Scene(t, node, kind, j, other), h, Scene(t, after, kind, next, other));
  }

  function Cordon(cfg: Config, node: NodeObject): NodeObject {
    if cfg.drain.dryRun then node else node.(unschedulable := true)
  }

  /** A drain that succeeds. */
  lemma DrainIt(cfg: Config, w: World, hs: seq<Happening>, t: int, node: NodeObject, j: Job, other: Job,
                disableEviction: bool, next: Job) returns (more: seq<Happening>)
    requires Leads(cfg, w, hs, Scene(t, node, Update, j, other))
    requires Step(cfg, Update, t, j, Drain(node.name, disableEviction, true)) == Some(next)
    ensures more == hs + [By(Update, t, Drain(node.name, disableEviction, true), !cfg.drain.dryRun)] && Continued(hs, more)
    ensures Leads(cfg, w, more, Scene(t, Cordon(cfg, node), Update, next, other))
  {
    hide Step, Leads;
    var after := Cordon(cfg, node);
    assert map[node.name := node][node.name := after] == map[node.name := after];
    var h := By(Update, t, Drain(node.name, disableEviction, true), !cfg.drain.dryRun);
    more := hs + [h];
    One(cfg, w, hs, Scene(t, node, Update, j, other), h, Scene(t, after, Update, next, other));
  }

  lemma Replayed(cfg: Config, w: World, hs: seq<Happening>, end: World) returns (ws: seq<World>)
    requires Leads(cfg, w, hs, end) && Starts(w)
    ensures Behaviour(cfg, ws, hs) && ws[0] == w && Lively(ws, hs)
    ensures SmoothFrom(hs, 0) ==> Fair(ws, hs)
    ensures forall i, next :: 0 <= i <= |hs| && Leads(cfg, w, hs[..i], next) ==> ws[i] == next
  {
    hide PlayedAt, Starts, SmoothFrom, Lively, HappensAt;
    ws :| Way(cfg, w, hs, ws) && ws[|hs|] == end;
    WayBehaves(cfg, w, hs, ws);
    forall i, next | 0 <= i <= |hs| && Leads(cfg, w, hs[..i], next) ensures ws[i] == next {
      var vs :| Way(cfg, w, hs[..i], vs) && vs[|hs[..i]|] == next;
      OneWay(cfg, w, hs, ws, i, vs);
    }
  }

  lemma WayBehaves(cfg: Config, w: World, hs: seq<Happening>, ws: seq<World>)
    requires Way(cfg, w, hs, ws) && Starts(w)
    ensures Behaviour(cfg, ws, hs) && ws[0] == w && Lively(ws, hs)
  {
    hide WorldStep, Starts, Informed;
    forall i | 0 <= i < |hs| ensures HappensAt(cfg, ws, hs, i) && Informed(ws[i], hs[i]) && hs[i].what.ByJob? {
      assert PlayedAt(cfg, ws, hs, i);
    }
  }

  lemma FreshStarts(t: int, node: NodeObject, kind: Kind)
    ensures Starts(Scene(t, node, kind, FRESH_JOB, FRESH_JOB))
  {
  }
}

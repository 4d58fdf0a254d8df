/**
 Both jobs of one process, the nodes as the API server has them, and the clock.

 A call that reports an error may have taken effect all the same; `applied` says whether it did. The process may die
 between any two happenings, and nodes may be changed, added and removed by others. A list of nodes that a job gets
 may be stale; each theorem says which lists have to be current. The cluster holds the nodes the watch selects:
 Azure nodes that match the label selector. No other node ever gets into a list (see NodeView).
 */
module World {
  import opened Options
  import opened JsonPatch
  import opened Nodes
  import opened Settings
  import opened Jobs

  type Cluster = map<string, NodeObject>

  datatype World = World(now: int, nodes: Cluster, repair: Job, update: Job) {
    function JobOf(kind: Kind): Job {
      match kind
      case Repair => repair
      case Update => update
    }

    function WithJob(kind: Kind, j: Job): World {
      match kind
      case Repair => this.(repair := j)
      case Update => this.(update := j)
    }
  }

  /** What others do to the cluster. */
  datatype Outside =
    | Annotated(name: string, key: string, value: Option<Value>)
    | Cordoned(name: string, on: bool)
    | Reported(name: string, conditions: seq<Condition>)
    | Joined(node: NodeObject)
    | Left(name: string)

  datatype What = ByJob(kind: Kind, event: Event, applied: bool) | Died | ByOthers(change: Outside)

  datatype Happening = Happening(at: int, what: What)

  const FRESH_JOB := Job(map[], Rest(Idle))

  // ---- effects on the cluster ----

  function Annotate(nodes: Cluster, name: string, annotations: Annotations): Cluster
    requires name in nodes
  {
    nodes[name := nodes[name].(annotations := annotations)]
  }

  function Schedule(nodes: Cluster, name: string, unschedulable: bool): Cluster
    requires name in nodes
  {
    nodes[name := nodes[name].(unschedulable := unschedulable)]
  }

  /** None if the API server cannot have answered like this. */
  function EventEffect(cfg: Config, nodes: Cluster, e: Event, applied: bool): Option<Cluster> {
    match e
    case Patch(name, change, ok) =>
      if !applied then (if ok then None else Some(nodes))
      else if name !in nodes then None
      else (match Effect(nodes[name].annotations, change)
            case Refused => None
            case Applied(annotations) => Some(Annotate(nodes, name, annotations)))
    case Drain(name, _, ok) => CordonEffect(cfg, nodes, name, true, ok, applied)
    case Uncordon(name, ok) => CordonEffect(cfg, nodes, name, false, ok, applied)
    case _ => if applied then None else Some(nodes)
  }

  /** kubectl with --dry-run changes nothing; otherwise success means that it did. */
  function CordonEffect(cfg: Config, nodes: Cluster, name: string, on: bool, ok: bool, applied: bool): Option<Cluster> {
    if !applied then (if ok && !cfg.drain.dryRun then None else Some(nodes))
    else if cfg.drain.dryRun || name !in nodes then None
    else Some(Schedule(nodes, name, on))
  }

  function OutsideEffect(nodes: Cluster, change: Outside): Cluster {
    match change
    case Annotated(name, key, value) =>
      if name !in nodes then nodes
      else Annotate(nodes, name, match value
                                 case Some(v) => nodes[name].annotations[key := v]
                                 case None => nodes[name].annotations - {key})
    case Cordoned(name, on) => if name in nodes then Schedule(nodes, name, on) else nodes
    case Reported(name, conditions) =>
      if name in nodes then nodes[name := nodes[name].(conditions := conditions)] else nodes
    case Joined(node) => nodes[node.name := node]
    case Left(name) => nodes - {name}
  }

  function WorldStep(cfg: Config, w: World, h: Happening): Option<World> {
    if h.at < w.now then None
    else match h.what
         case ByJob(kind, e, applied) =>
           (match (Step(cfg, kind, h.at, w.JobOf(kind), e), EventEffect(cfg, w.nodes, e, applied))
            case (Some(j), Some(nodes)) => Some(w.(now := h.at, nodes := nodes).WithJob(kind, j))
            case _ => None)
         case Died => Some(World(h.at, w.nodes, FRESH_JOB, FRESH_JOB))
         case ByOthers(change) => Some(w.(now := h.at, nodes := OutsideEffect(w.nodes, change)))
  }

  /** ws[i] is the world before hs[i]. */
  ghost predicate Behaviour(cfg: Config, ws: seq<World>, hs: seq<Happening>) {
    && |ws| == |hs| + 1
    && Starts(ws[0])
    && forall i :: 0 <= i < |hs| ==> HappensAt(cfg, ws, hs, i)
  }

  ghost predicate HappensAt(cfg: Config, ws: seq<World>, hs: seq<Happening>, i: nat)
    requires i < |hs| && i + 1 < |ws|
  {
    WorldStep(cfg, ws[i], hs[i]) == Some(ws[i + 1])
  }

  /** A fresh process in a cluster whose nodes go by their names. */
  ghost predicate Starts(w: World) {
    w.repair == FRESH_JOB && w.update == FRESH_JOB && Keyed(w.nodes)
  }

  ghost predicate Keyed(nodes: Cluster) {
    forall name <- nodes :: nodes[name].name == name
  }

  /** The list shows every node as it is now, and nothing else. */
  ghost predicate Current(view: seq<NodeObject>, nodes: Cluster) {
    && (forall node <- view :: node.name in nodes && nodes[node.name] == node)
    && (forall name <- nodes :: nodes[name] in view)
  }

  // ---- what every step keeps ----

  lemma StepKeeps(cfg: Config, w: World, h: Happening, next: World)
    requires WorldStep(cfg, w, h) == Some(next) && Keyed(w.nodes)
    ensures Keyed(next.nodes)
    ensures Tidy(w.repair.stage) ==> Tidy(next.repair.stage)
    ensures Tidy(w.update.stage) ==> Tidy(next.update.stage)
    ensures Proper(cfg, Repair, w.repair.stage) ==> Proper(cfg, Repair, next.repair.stage)
    ensures Proper(cfg, Update, w.update.stage) ==> Proper(cfg, Update, next.update.stage)
    ensures w.now <= next.now == h.at
  {
    hide Step, Tidy, Proper;
    if h.what.ByJob? {
      var kind, j, e := h.what.kind, w.JobOf(h.what.kind), h.what.event;
      if Tidy(j.stage) {
        TidyStep(cfg, kind, h.at, j, e);
      }
      if Proper(cfg, kind, j.stage) {
        StepProper(cfg, kind, h.at, j, e, next.JobOf(kind));
      }
    } else {
      FreshIsTidy(cfg);
    }
  }

  ghost predicate Orderly(cfg: Config, w: World) {
    && Keyed(w.nodes)
    && Tidy(w.repair.stage) && Tidy(w.update.stage)
    && Proper(cfg, Repair, w.repair.stage) && Proper(cfg, Update, w.update.stage)
  }

  lemma {:induction false} AlwaysOrderly(cfg: Config, ws: seq<World>, hs: seq<Happening>, i: nat)
    requires Behaviour(cfg, ws, hs) && i <= |hs|
    ensures Orderly(cfg, ws[i])
  {
    hide WorldStep, Tidy, Keyed, Proper;
    if i > 0 {
      AlwaysOrderly(cfg, ws, hs, i - 1);
      assert HappensAt(cfg, ws, hs, i - 1);
      StepKeeps(cfg, ws[i - 1], hs[i - 1], ws[i]);
    } else {
      FreshIsTidy(cfg);
    }
  }

  lemma FreshIsTidy(cfg: Config)
    ensures Tidy(FRESH_JOB.stage)
    ensures forall kind :: Proper(cfg, kind, FRESH_JOB.stage)
  {
  }

  /** The clock never goes back. */
  lemma {:induction false} ClockRuns(cfg: Config, ws: seq<World>, hs: seq<Happening>, i: nat, j: nat)
    requires Behaviour(cfg, ws, hs) && i <= j <= |hs|
    ensures ws[i].now <= ws[j].now
  {
    if i < j {
      ClockRuns(cfg, ws, hs, i, j - 1);
      assert HappensAt(cfg, ws, hs, j - 1);
    }
  }
}

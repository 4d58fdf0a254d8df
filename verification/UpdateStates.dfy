/**
 Updates are to be tried in the provisioning states configured for updates, but the check looks at those configured for
 repairs. Whether that makes a difference depends on the two lists alone.
 */
module UpdateStates {
  import opened Options
  import opened Text
  import opened Nodes
  import opened Settings
  import opened Provisioning
  import opened Jobs
  import opened World
  import opened Plays
  import opened Ticks
  import opened UpdateProtocol

  // ---- two lists of states ----

  /** Every entry of `a` is an entry of `b` up to case, and "*" stands for everything. */
  predicate Within(a: seq<string>, b: seq<string>) {
    "*" in b || ("*" !in a && forall x <- a :: exists y <- b :: EqualFold(x, y))
  }

  function Longest(list: seq<string>): nat {
    if list == [] then 0
    else if |list[0]| > Longest(list[1..]) then |list[0]| else Longest(list[1..])
  }

  lemma {:induction false} LongestIs(list: seq<string>)
    ensures forall x <- list :: |x| <= Longest(list)
  {
    if list != [] {
      LongestIs(list[1..]);
      assert list == [list[0]] + list[1..];
    }
  }

  /** No entry of the list equals it. */
  function Unlisted(list: seq<string>): string {
    seq(Longest(list) + 1, _ => 'x')
  }

  lemma UnlistedIs(list: seq<string>)
    ensures forall y <- list :: !EqualFold(y, Unlisted(list))
  {
    hide Lower;
    LongestIs(list);
    forall y <- list ensures !EqualFold(y, Unlisted(list)) {
      assert |Lower(y)| == |y| && |Lower(Unlisted(list))| == |Unlisted(list)|;
    }
  }

  /** A state that the first list admits and the second does not. */
  ghost function Witness(a: seq<string>, b: seq<string>): string
    requires !Within(a, b)
  {
    if "*" in a then Unlisted(b)
    else var x :| x in a && forall y <- b :: !EqualFold(x, y); x
  }

  lemma WitnessIs(a: seq<string>, b: seq<string>)
    requires !Within(a, b)
    ensures Admits(a, Some(Witness(a, b))) && !Admits(b, Some(Witness(a, b)))
  {
    hide Lower, Unlisted;
    if "*" in a {
      UnlistedIs(b);
    } else {
      var x := Witness(a, b);
      assert x in a && EqualFold(x, x);
      forall y <- b ensures !EqualFold(y, x) {
        assert !EqualFold(x, y);
      }
    }
  }

  /** One list admits no more states than the other exactly if it is within it. */
  lemma AdmitsNoMoreIff(a: seq<string>, b: seq<string>)
    ensures (forall state :: Admits(a, state) ==> Admits(b, state)) <==> Within(a, b)
  {
    hide Lower;
    if Within(a, b) {
      forall state | Admits(a, state) ensures Admits(b, state) {
        if state.Some? && "*" !in b {
          var x :| x in a && EqualFold(x, state.value);
          var y :| y in b && EqualFold(x, y);
          assert EqualFold(y, state.value);
        }
      }
    } else {
      WitnessIs(a, b);
      assert Admits(a, Some(Witness(a, b)));
    }
  }

  /** The check of the update job admits exactly what is configured for it if the two lists mean the same. */
  lemma AsConfiguredIff(cfg: Config, repairStates: seq<string>)
    requires InitialisedFrom(cfg, repairStates)
    ensures (forall state :: Accepts(cfg, state) <==> Admits(cfg.updateStates, state)) <==>
            Within(repairStates, cfg.updateStates) && Within(cfg.updateStates, repairStates)
  {
    hide Within, Admits, Accepts, InitialisedFrom;
    AdmitsNoMoreIff(repairStates, cfg.updateStates);
    AdmitsNoMoreIff(cfg.updateStates, repairStates);
    forall state ensures Accepts(cfg, state) <==> Admits(repairStates, state) {
      AcceptedStates(cfg, repairStates, state);
    }
  }

  // ---- the world ----

  predicate AsksForUpdate(h: Happening, name: string) {
    && h.what.ByJob? && h.what.kind.Update? && h.what.event.AzureAct? && h.what.event.name == name
    && h.what.event.call.UpdateInstances?
  }

  /** At j the update job asks Azure to update the node, and at g, in the same updateNode, it had found the instance in
      the state. */
  ghost predicate UpdatesIn(ws: seq<World>, hs: seq<Happening>, g: nat, j: nat, name: string, state: Option<string>) {
    && g < j < |hs| < |ws|
    && hs[g].what == ByJob(Update, AzureGet(name, true, state), false)
    && AsksForUpdate(hs[j], name)
    && forall k :: g < k <= j ==> AtUpdate(ws[k].update.stage) && ws[k].update.stage.node.name == name
  }

  /** In updateNode, behind the look at the state. */
  predicate BehindLook(stage: Stage, name: string) {
    AtUpdate(stage) && !stage.task.Marking? && !stage.task.Inspecting? && stage.node.name == name
  }

  lemma LookBefore(cfg: Config, now: int, j: Job, e: Event, next: Job, name: string)
    requires Step(cfg, Update, now, j, e) == Some(next) && BehindLook(next.stage, name)
    ensures BehindLook(j.stage, name) || (e.AzureGet? && e.name == name && e.ok && Accepts(cfg, e.state))
  {
    hide Parsed, Check, HealthOf, Overdue, RepairCall, MarkValues, Accepts, BanIsOver, LockValuesAt;
  }

  lemma WorldLookBefore(cfg: Config, w: World, h: Happening, next: World, name: string)
    requires WorldStep(cfg, w, h) == Some(next) && BehindLook(next.update.stage, name)
    ensures || BehindLook(w.update.stage, name)
            || (h.what.ByJob? && h.what.kind.Update? && h.what.event.AzureGet? && Accepts(cfg, h.what.event.state)
                && h.what == ByJob(Update, AzureGet(name, true, h.what.event.state), false))
  {
    hide Step, Accepts, OutsideEffect, BehindLook;
    if h.what.ByJob? && h.what.kind.Update? {
      LookBefore(cfg, h.at, w.update, h.what.event, next.update, name);
    } else if h.what.Died? {
      IdleIsNotBehind(name);
    }
  }

  lemma IdleIsNotBehind(name: string)
    ensures !BehindLook(FRESH_JOB.stage, name)
  {
  }

  /** Behind it, the look at the state is found in the past, in the same updateNode. */
  lemma {:induction false} FindLook(cfg: Config, ws: seq<World>, hs: seq<Happening>, j: nat, name: string)
      returns (g: nat, state: Option<string>)
    requires Behaviour(cfg, ws, hs) && j <= |hs| && BehindLook(ws[j].update.stage, name)
    ensures g < j && hs[g].what == ByJob(Update, AzureGet(name, true, state), false) && Accepts(cfg, state)
    ensures forall k :: g < k <= j ==> BehindLook(ws[k].update.stage, name)
  {
    hide WorldStep, BehindLook, Accepts;
    if j == 0 {
      IdleIsNotBehind(name);
      assert false;
    } else {
      assert HappensAt(cfg, ws, hs, j - 1);
      WorldLookBefore(cfg, ws[j - 1], hs[j - 1], ws[j], name);
      if BehindLook(ws[j - 1].update.stage, name) {
        g, state := FindLook(cfg, ws, hs, j - 1, name);
      } else {
        g, state := j - 1, hs[j - 1].what.event.state;
      }
    }
  }

  lemma AskedBehindLook(cfg: Config, w: World, h: Happening, next: World, name: string)
    requires Orderly(cfg, w) && WorldStep(cfg, w, h) == Some(next) && AsksForUpdate(h, name)
    ensures BehindLook(w.update.stage, name)
  {
    hide LocalStep, Tidy, Keyed, RepairCall, IsLockChange;
  }

  /** In every behaviour, every update call comes after a look at the state in the same updateNode, and that state is one
      that the list for repairs admits; no state of the list for updates is asked for. */
  lemma UpdatesAsForRepairs(cfg: Config, repairStates: seq<string>, ws: seq<World>, hs: seq<Happening>, j: nat, name: string)
      returns (g: nat, state: Option<string>)
    requires InitialisedFrom(cfg, repairStates) && Behaviour(cfg, ws, hs) && j < |hs| && AsksForUpdate(hs[j], name)
    ensures UpdatesIn(ws, hs, g, j, name, state) && Admits(repairStates, state)
  {
    hide WorldStep, Orderly, Accepts, Admits, InitialisedFrom;
    AlwaysOrderly(cfg, ws, hs, j);
    assert HappensAt(cfg, ws, hs, j);
    AskedBehindLook(cfg, ws[j], hs[j], ws[j + 1], name);
    g, state := FindLook(cfg, ws, hs, j, name);
    AcceptedStates(cfg, repairStates, state);
  }

  /** Wherever an update call has its look, the state is accepted. */
  lemma LooksAccepted(cfg: Config, w: World, h: Happening, next: World, name: string, state: Option<string>)
    requires Orderly(cfg, w) && WorldStep(cfg, w, h) == Some(next)
    requires h.what == ByJob(Update, AzureGet(name, true, state), false) && AtUpdate(next.update.stage)
    ensures Accepts(cfg, state)
  {
    hide Tidy, Keyed, Accepts, IsLockChange, LocalStep;
  }

  lemma LookAdmits(cfg: Config, repairStates: seq<string>, ws: seq<World>, hs: seq<Happening>, g: nat, j: nat,
                   name: string, state: Option<string>)
    requires InitialisedFrom(cfg, repairStates) && Behaviour(cfg, ws, hs) && UpdatesIn(ws, hs, g, j, name, state)
    ensures Admits(repairStates, state)
  {
    hide WorldStep, Orderly, Accepts, Admits, InitialisedFrom;
    AlwaysOrderly(cfg, ws, hs, g);
    assert HappensAt(cfg, ws, hs, g);
    LooksAccepted(cfg, ws[g], hs[g], ws[g + 1], name, state);
    AcceptedStates(cfg, repairStates, state);
  }

  /** For every node the update job takes up, and every state the list for repairs admits, there is such an update. */
  lemma UpdatePlayed(cfg: Config, repairStates: seq<string>, node: NodeObject, t: int, state: Option<string>)
      returns (ws: seq<World>, hs: seq<Happening>, g: nat, j: nat)
    requires InitialisedFrom(cfg, repairStates) && Admits(repairStates, state)
    requires TakenUp(cfg, node) && cfg.update.lockAnnotation !in node.annotations && !BanIsOver(cfg, node, t)
    ensures Behaviour(cfg, ws, hs) && Fair(ws, hs) && ws[0] == Scene(t, node, Update, FRESH_JOB, FRESH_JOB)
    ensures UpdatesIn(ws, hs, g, j, node.name, state)
  {
    hide Leads, Scene, TakenUp, BanIsOver, Fair, Flying, Accepts, Admits, InitialisedFrom, MarkValues, UpdatesIn;
    var w := Scene(t, node, Update, FRESH_JOB, FRESH_JOB);
    AcceptedStates(cfg, repairStates, state);
    FreshStarts(t, node, Update);
    Nothing(cfg, w);
    hs := ApproachPhase(cfg, w, [], t, t, node, FRESH_JOB);
    var mark;
    hs, mark := FlightPhase(cfg, w, hs, t, node, FRESH_JOB, state);
    g, j := mark + 1, |hs|;
    var flight := hs;
    hs := UpdateCallPhase(cfg, w, hs, t, Flying(cfg, node), node, FRESH_JOB);
    assert hs[..j] == flight && hs[..g + 1] == flight[..g + 1] && hs[..|hs|] == hs;
    ws := Replayed(cfg, w, hs, Scene(t, Flying(cfg, node), Update,
                                     Job(NO_LOCKS, Busy(if DoReimage(cfg) then Redeploying else Uncordoning, node, [])), FRESH_JOB));
    SeenUpdating(cfg, ws, hs, g, j, t, node, state);
  }

  lemma SeenUpdating(cfg: Config, ws: seq<World>, hs: seq<Happening>, g: nat, j: nat, t: int, node: NodeObject,
                     state: Option<string>)
    requires g < j < |hs| < |ws| && j <= g + 2
    requires hs[g] == By(Update, t, AzureGet(node.name, true, state), false) && hs[j] == UpdateCallOn(t, node.name)
    requires ws[g + 1] == Scene(t, WithMark(cfg, node), Update, Job(NO_LOCKS, Busy(DrainOrUpdate(cfg), node, [])), FRESH_JOB)
    requires ws[j] == Scene(t, Flying(cfg, node), Update, InFlight(node), FRESH_JOB)
    ensures UpdatesIn(ws, hs, g, j, node.name, state)
  {
    hide WithMark, Flying;
  }

  /** Some behaviour, from an idle process in a cluster of this node, updates it in a state not configured for that. */
  ghost predicate UpdatesUnasked(cfg: Config, node: NodeObject, t: int) {
    exists ws, hs, g, j, state :: UnaskedAt(cfg, node, t, ws, hs, g, j, state)
  }

  ghost predicate UnaskedAt(cfg: Config, node: NodeObject, t: int, ws: seq<World>, hs: seq<Happening>, g: nat, j: nat,
                            state: Option<string>) {
    && Behaviour(cfg, ws, hs) && ws[0] == Scene(t, node, Update, FRESH_JOB, FRESH_JOB)
    && UpdatesIn(ws, hs, g, j, node.name, state) && !Admits(cfg.updateStates, state)
  }

  /** A node that can be updated is updated in a state not configured for updates, in some behaviour, exactly if the
      list for repairs is not within the list for updates. */
  lemma UpdatesUnaskedIff(cfg: Config, repairStates: seq<string>, node: NodeObject, t: int)
    requires InitialisedFrom(cfg, repairStates)
    requires TakenUp(cfg, node) && cfg.update.lockAnnotation !in node.annotations && !BanIsOver(cfg, node, t)
    ensures UpdatesUnasked(cfg, node, t) <==> !Within(repairStates, cfg.updateStates)
  {
    hide Behaviour, UpdatesIn, Admits, Within, TakenUp, BanIsOver, InitialisedFrom, Fair, Scene;
    AdmitsNoMoreIff(repairStates, cfg.updateStates);
    if !Within(repairStates, cfg.updateStates) {
      var state := Some(Witness(repairStates, cfg.updateStates));
      WitnessIs(repairStates, cfg.updateStates);
      var ws, hs, g, j := UpdatePlayed(cfg, repairStates, node, t, state);
      assert UnaskedAt(cfg, node, t, ws, hs, g, j, state);
    } else if UpdatesUnasked(cfg, node, t) {
      var ws, hs, g, j, state :| UnaskedAt(cfg, node, t, ws, hs, g, j, state);
      LookAdmits(cfg, repairStates, ws, hs, g, j, node.name, state);
    }
  }
}

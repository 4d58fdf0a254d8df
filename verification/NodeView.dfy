/**
 k8s/nodelist.go: the node list that the watch keeps and that the jobs share, and the Azure instances that
 NodeListWithAzure attaches to its nodes in place.
 */
module NodeView {
  import opened Options
  import opened Text
  import opened Nodes
  import opened ProviderId
  import opened Settings
  import opened TimedCaches
  import opened WatchReplay
  import opened SetSizes
  import Jobs
  import World

  /** The fields of an armcompute.VirtualMachineScaleSetVM that the autopilot reads. */
  datatype Instance = Instance(id: string, latestModelApplied: Option<bool>, provisioningState: Option<string>)

  /** k8s.Node */
  class Node {
    const obj: NodeObject
    var azureVmss: Option<Instance>

    constructor (obj: NodeObject)
      ensures this.obj == obj && azureVmss == None
    {
      this.obj := obj;
      azureVmss := None;
    }
  }

  function Objects(nodes: seq<Node>): (r: seq<NodeObject>)
    ensures |r| == |nodes| && forall i :: 0 <= i < |nodes| ==> r[i] == nodes[i].obj
  {
    seq(|nodes|, i requires 0 <= i < |nodes| => nodes[i].obj)
  }

  /** What listing one scale set yields: instances, page by page, and whether a page failed in the end. */
  datatype Listing = Listing(instances: seq<Instance>, ok: bool)

  /** A scale set, by subscription, resource group and name. */
  datatype ScaleSet = ScaleSet(subscription: string, resourceGroup: string, name: string)

  /** The instance is listed for the scale set of that node. */
  predicate ListedFor(answers: ScaleSet -> Listing, obj: NodeObject, instance: Instance) {
    match ExtractNodeInfo(obj.name, obj.providerId)
    case Info(info) =>
      info.machine.Vmss?
      && instance in answers(ScaleSet(info.subscription, info.resourceGroup, info.machine.scaleSet)).instances
    case Unrecognised => false
  }

  /** The ID of the node can be parsed, and its scale set was listed to the end. */
  predicate Answered(answers: ScaleSet -> Listing, obj: NodeObject) {
    match ExtractNodeInfo(obj.name, obj.providerId)
    case Info(info) =>
      info.machine.Vmss? ==> answers(ScaleSet(info.subscription, info.resourceGroup, info.machine.scaleSet)).ok
    case Unrecognised => false
  }

  predicate HasState(instance: Option<Instance>, state: string) {
    instance.Some? && instance.value.provisioningState.Some? && EqualFold(instance.value.provisioningState.value, state)
  }

  class NodeList {
    var list: map<string, Node>
    const azureCache: TimedCache<Instance>

    constructor (cacheTimeout: int)
      ensures Valid() && Known() == map[] && fresh(azureCache)
      ensures azureCache.items == map[] && azureCache.defaultLife == cacheTimeout
    {
      list := map[];
      azureCache := new TimedCache(cacheTimeout);
    }

    /** The keys are the names of the nodes, and all nodes are Azure nodes. */
    ghost predicate Valid()
      reads this
    {
      forall name <- list :: list[name].obj.name == name && IsAzure(list[name].obj.providerId)
    }

    /** The list without the attached instances. */
    ghost function Known(): WatchReplay.Known
      reads this
    {
      map name | name in list :: list[name].obj
    }

    // ---- the watch ----

    /** One event of the watch: a new object comes without an instance, all others stay. */
    method Handle(e: WatchEvent)
      requires Valid()
      modifies this`list
      ensures Valid() && Known() == Handled(old(Known()), e)
      ensures forall name <- list ::
                (name in old(list) && list[name] == old(list)[name]) || (fresh(list[name]) && list[name].azureVmss == None)
    {
      hide IsAzure;
      match e
      case NodeAdded(obj) => Put(obj);
      case NodeDeleted(obj) => list := list - {obj.name};
      case NodeModified(obj) => Put(obj);
      case Broken =>
      case Ignored =>
    }

    method Put(obj: NodeObject)
      requires Valid()
      modifies this`list
      ensures Valid() && Known() == if IsAzure(obj.providerId) then old(Known())[obj.name := obj] else old(Known())
      ensures forall name <- list ::
                (name in old(list) && list[name] == old(list)[name]) || (fresh(list[name]) && list[name].azureVmss == None)
    {
      hide IsAzure;
      var node := new Node(obj);
      if IsAzure(node.obj.providerId) {
        list := list[node.obj.name := node];
      }
    }

    /** startNodeWatch: begins with an empty list and takes the events one by one. */
    method Watch(events: seq<WatchEvent>)
      modifies this`list
      ensures Valid() && Known() == Replay(events)
    {
      list := map[];
      for i := 0 to |events|
        invariant Valid() && Known() == Replay(events[..i])
      {
        assert events[..i + 1][..i] == events[..i];
        Handle(events[i]);
      }
      assert events[..|events|] == events;
    }

    // ---- snapshots ----

    /** `nodes` holds every node of the list, and nothing else. */
    ghost predicate Shows(nodes: seq<Node>)
      reads this
    {
      && (forall node <- nodes :: node.obj.name in list && list[node.obj.name] == node)
      && (forall name <- list :: list[name] in nodes)
    }

    /** NodeList(): the nodes in an order nobody chooses. */
    method Snapshot() returns (nodes: seq<Node>)
      requires Valid()
      ensures Shows(nodes) && |nodes| == |list| && NoNameTwice(nodes)
      ensures DistinctNames(Objects(nodes)) && World.Current(Objects(nodes), Known())
    {
      hide IsAzure, World.Current, Objects, DistinctNames;
      nodes := [];
      var left := list.Keys;
      while left != {}
        invariant left <= list.Keys
        invariant forall node <- nodes :: node.obj.name in list.Keys - left && list[node.obj.name] == node
        invariant forall name <- list.Keys - left :: list[name] in nodes
        invariant NoNameTwice(nodes) && |nodes| + |left| == |list.Keys|
        decreases left
      {
        var name :| name in left;
        nodes := nodes + [list[name]];
        left := left - {name};
      }
      ShownIsCurrent(nodes);
      ObjectsDistinct(nodes);
    }

    lemma ShownIsCurrent(nodes: seq<Node>)
      requires Valid() && Shows(nodes)
      ensures World.Current(Objects(nodes), Known())
    {
      forall node <- Objects(nodes) ensures node.name in Known() && Known()[node.name] == node {
        var i :| 0 <= i < |nodes| && Objects(nodes)[i] == node;
        assert nodes[i] in nodes;
      }
      forall name <- Known() ensures Known()[name] in Objects(nodes) {
        var i :| 0 <= i < |nodes| && nodes[i] == list[name];
        assert Objects(nodes)[i] == Known()[name];
      }
    }

    // ---- scale sets ----

    ghost predicate AllParse()
      reads this
    {
      forall name <- list :: ExtractNodeInfo(list[name].obj.name, list[name].obj.providerId).Info?
    }

    ghost predicate Uses(scaleSet: ScaleSet)
      reads this
    {
      exists name <- list :: ScaleSetOf(list[name].obj) == Some(scaleSet)
    }

    /** Every scale set of the first i nodes has its entry. */
    ghost predicate Covers(nodes: seq<Node>, i: nat, vmssList: map<string, NodeInfo>)
      requires i <= |nodes|
    {
      forall k :: 0 <= k < i ==>
        ExtractNodeInfo(nodes[k].obj.name, nodes[k].obj.providerId).Info?
        && (ScaleSetOf(nodes[k].obj).Some? ==> VmssKey(ScaleSetOf(nodes[k].obj).value) in vmssList)
    }

    /** Every entry stands for a scale set in use, under its key. */
    ghost predicate Backed(vmssList: map<string, NodeInfo>)
      reads this
    {
      forall key <- vmssList ::
        ScaleSetIn(vmssList[key]).Some? && key == VmssKey(ScaleSetIn(vmssList[key]).value)
        && Uses(ScaleSetIn(vmssList[key]).value)
    }

    /** GetAzureVmssList: fails if a node cannot be parsed; otherwise one entry per scale set in use. */
    method GetAzureVmssList() returns (ok: bool, vmssList: map<string, NodeInfo>)
      requires Valid()
      ensures ok <==> AllParse()
      ensures ok ==> forall scaleSet :: Uses(scaleSet) <==> VmssKey(scaleSet) in vmssList && IsProper(scaleSet)
      ensures Backed(vmssList)
    {
      hide IsAzure, ExtractNodeInfo, VmssKey, Covers, Backed, NoNameTwice, World.Current, DistinctNames;
      vmssList := map[];
      var nodes := Snapshot();
      NothingYet(nodes);
      for i := 0 to |nodes|
        invariant Covers(nodes, i, vmssList) && Backed(vmssList)
      {
        var node := nodes[i];
        assert node in nodes;
        if IsAzure(node.obj.providerId) {
          var extracted := ExtractNodeInfo(node.obj.name, node.obj.providerId);
          if extracted.Unrecognised? {
            return false, vmssList;
          }
          var info := extracted.info;
          EntryAdded(nodes, i, vmssList);
          KeyOf(info);
          if info.machine.Vmss? {
            var vmssKey := info.subscription + "/" + info.resourceGroup + "/" + info.machine.scaleSet;
            vmssList := vmssList[vmssKey := info];
          }
        }
      }
      ok := true;
      AllCovered(nodes, vmssList);
      forall scaleSet ensures Uses(scaleSet) <==> VmssKey(scaleSet) in vmssList && IsProper(scaleSet) {
        OneEntryEach(nodes, vmssList, scaleSet);
      }
    }

    lemma NothingYet(nodes: seq<Node>)
      ensures Covers(nodes, 0, map[]) && Backed(map[])
    {
    }

    lemma EntryAdded(nodes: seq<Node>, i: nat, vmssList: map<string, NodeInfo>)
      requires Shows(nodes) && i < |nodes| && Covers(nodes, i, vmssList) && Backed(vmssList)
      requires ExtractNodeInfo(nodes[i].obj.name, nodes[i].obj.providerId).Info?
      ensures var info := ExtractNodeInfo(nodes[i].obj.name, nodes[i].obj.providerId).info;
              var next := if info.machine.Vmss? then vmssList[VmssKey(ScaleSetIn(info).value) := info] else vmssList;
              Covers(nodes, i + 1, next) && Backed(next)
    {
      hide ExtractNodeInfo, VmssKey, Shows, Uses;
      if ScaleSetOf(nodes[i].obj).Some? {
        ShownIsUsed(nodes, i);
      }
    }

    lemma AllCovered(nodes: seq<Node>, vmssList: map<string, NodeInfo>)
      requires Shows(nodes) && Covers(nodes, |nodes|, vmssList)
      ensures AllParse()
    {
      hide ExtractNodeInfo, VmssKey;
      forall name <- list ensures ExtractNodeInfo(list[name].obj.name, list[name].obj.providerId).Info? {
        var k :| 0 <= k < |nodes| && nodes[k] == list[name];
      }
    }

    lemma ShownIsUsed(nodes: seq<Node>, k: nat)
      requires Shows(nodes) && k < |nodes| && ScaleSetOf(nodes[k].obj).Some?
      ensures Uses(ScaleSetOf(nodes[k].obj).value)
    {
      hide ExtractNodeInfo;
      assert nodes[k] in nodes && nodes[k].obj.name in list;
    }

    lemma OneEntryEach(nodes: seq<Node>, vmssList: map<string, NodeInfo>, scaleSet: ScaleSet)
      requires Valid() && Shows(nodes) && Covers(nodes, |nodes|, vmssList) && Backed(vmssList)
      ensures Uses(scaleSet) <==> VmssKey(scaleSet) in vmssList && IsProper(scaleSet)
    {
      hide ExtractNodeInfo, VmssKey, IsProper;
      if Uses(scaleSet) {
        var name :| name in list && ScaleSetOf(list[name].obj) == Some(scaleSet);
        var k :| 0 <= k < |nodes| && nodes[k] == list[name];
        UsedIsProper(nodes[k].obj);
      }
      if VmssKey(scaleSet) in vmssList && IsProper(scaleSet) {
        var other := ScaleSetIn(vmssList[VmssKey(scaleSet)]).value;
        var name :| name in list && ScaleSetOf(list[name].obj) == Some(other);
        UsedIsProper(list[name].obj);
        KeysTellApart(scaleSet, other);
      }
    }

    // ---- the join with Azure ----

    /** The cache and the nodes hold instances under their own resource IDs only. */
    ghost predicate OwnInstances()
      reads this, azureCache, list.Values
    {
      && CacheKeyed(azureCache.items)
      && forall name <- list :: list[name].azureVmss.Some? ==> IsInstanceOf(list[name].azureVmss.value, list[name].obj)
    }

    /** The instances of all scale sets in use. */
    ghost function Offered(answers: ScaleSet -> Listing): iset<Instance>
      reads this
    {
      iset instance | OfferedHere(answers, instance)
    }

    ghost predicate OfferedHere(answers: ScaleSet -> Listing, instance: Instance)
      reads this
    {
      exists name <- list :: ListedFor(answers, list[name].obj, instance)
    }

    /** All scale sets in use were listed to the end, and what they list is in the cache for a lifetime from `now` on. */
    ghost predicate Refreshed(answers: ScaleSet -> Listing, now: int)
      reads this, azureCache
    {
      && (forall name <- list :: Answered(answers, list[name].obj))
      && forall name <- list, instance: Instance :: ListedFor(answers, list[name].obj, instance) ==>
           Kept(azureCache.items, "azure://" + Lower(instance.id), Offered(answers), azureCache.defaultLife, now)
    }

    /** refreshAzureVmssCache, from `now` on: asks for every scale set in use, in an order nobody chooses, and gives up at
        the first failure. Whatever it lists is in the cache afterwards, as listed, for a whole lifetime. */
    method RefreshAzureVmssCache(answers: ScaleSet -> Listing, now: int) returns (ok: bool)
      requires Valid() && CacheKeyed(azureCache.items)
      modifies azureCache
      ensures CacheKeyed(azureCache.items)
      ensures ok ==> Refreshed(answers, now)
    {
      hide IsAzure, ExtractNodeInfo, VmssKey, Kept, CacheKeyed, Uses, IsProper, Offered;
      var parsed, vmssList := GetAzureVmssList();
      if !parsed {
        return false;
      }
      ghost var offered, life := Offered(answers), azureCache.defaultLife;
      var left := vmssList.Keys;
      while left != {}
        invariant left <= vmssList.Keys && CacheKeyed(azureCache.items)
        invariant forall key <- vmssList.Keys - left ::
                    var listing := answers(ScaleSetIn(vmssList[key]).value);
                    listing.ok && Cached(azureCache.items, listing.instances, offered, life, now)
        decreases left
      {
        var key :| key in left;
        var info := vmssList[key];
        var listing := answers(ScaleSet(info.subscription, info.resourceGroup, info.machine.scaleSet));
        AllOffered(vmssList, key, answers);
        StoreInstances(listing.instances, now, offered);
        if !listing.ok {
          return false;
        }
        left := left - {key};
      }
      ok := true;
      forall name, instance: Instance | name in list && ListedFor(answers, list[name].obj, instance)
        ensures Kept(azureCache.items, "azure://" + Lower(instance.id), offered, life, now) {
        EntryOf(vmssList, name);
      }
      forall name | name in list ensures Answered(answers, list[name].obj) {
        if ScaleSetOf(list[name].obj).Some? {
          EntryOf(vmssList, name);
        }
      }
    }

    lemma AllOffered(vmssList: map<string, NodeInfo>, key: string, answers: ScaleSet -> Listing)
      requires Backed(vmssList) && key in vmssList
      ensures forall instance <- answers(ScaleSetIn(vmssList[key]).value).instances :: instance in Offered(answers)
    {
      hide VmssKey;
      var name :| name in list && ScaleSetOf(list[name].obj) == Some(ScaleSetIn(vmssList[key]).value);
      forall instance <- answers(ScaleSetIn(vmssList[key]).value).instances ensures instance in Offered(answers) {
        assert ListedFor(answers, list[name].obj, instance);
      }
    }

    /** The scale set of a node has its entry. */
    lemma EntryOf(vmssList: map<string, NodeInfo>, name: string)
      requires Backed(vmssList) && name in list && ScaleSetOf(list[name].obj).Some?
      requires forall scaleSet :: Uses(scaleSet) <==> VmssKey(scaleSet) in vmssList && IsProper(scaleSet)
      ensures VmssKey(ScaleSetOf(list[name].obj).value) in vmssList
      ensures ScaleSetIn(vmssList[VmssKey(ScaleSetOf(list[name].obj).value)]) == ScaleSetOf(list[name].obj)
    {
      hide VmssKey, IsProper, ExtractNodeInfo;
      var scaleSet := ScaleSetOf(list[name].obj).value;
      assert Uses(scaleSet);
      var other := ScaleSetIn(vmssList[VmssKey(scaleSet)]).value;
      var user :| user in list && ScaleSetOf(list[user].obj) == Some(other);
      UsedIsProper(list[user].obj);
      KeysTellApart(scaleSet, other);
    }

    /** The loop over the pages of one scale set, each instance at an instant of its own. */
    method StoreInstances(instances: seq<Instance>, now: int, ghost offered: iset<Instance>)
      requires CacheKeyed(azureCache.items) && forall instance <- instances :: instance in offered
      modifies azureCache
      ensures CacheKeyed(azureCache.items) && Cached(azureCache.items, instances, offered, azureCache.defaultLife, now)
      ensures forall others :: Cached(old(azureCache.items), others, offered, azureCache.defaultLife, now) ==>
                Cached(azureCache.items, others, offered, azureCache.defaultLife, now)
    {
      hide Lower;
      ghost var life := azureCache.defaultLife;
      for i := 0 to |instances|
        invariant CacheKeyed(azureCache.items) && Cached(azureCache.items, instances[..i], offered, life, now)
        invariant forall key :: Kept(old(azureCache.items), key, offered, life, now) ==>
                    Kept(azureCache.items, key, offered, life, now)
      {
        var at :| at >= now;
        azureCache.SetDefault("azure://" + Lower(instances[i].id), instances[i], at);
        assert instances[..i + 1] == instances[..i] + [instances[i]];
      }
      assert instances[..|instances|] == instances;
    }

    /** Watch events come in, as many and of any kind. */
    method Interrupt() returns (ghost quiet: bool)
      requires Valid()
      modifies this`list
      ensures Valid() && (quiet ==> list == old(list))
      ensures forall name <- list ::
                (name in old(list) && list[name] == old(list)[name]) || (fresh(list[name]) && list[name].azureVmss == None)
    {
      hide IsAzure;
      quiet := true;
      var events: nat :| true;
      for i := 0 to events
        invariant Valid() && (quiet ==> list == old(list))
        invariant forall name <- list ::
                    (name in old(list) && list[name] == old(list)[name]) || (fresh(list[name]) && list[name].azureVmss == None)
      {
        var e: WatchEvent :| true;
        Handle(e);
        quiet := false;
      }
    }

    /** The node of the list is one of `nodes`, or has no instance. */
    ghost predicate ShownOrBare(nodes: seq<Node>)
      reads this, list.Values
    {
      forall name <- list :: list[name] in nodes || list[name].azureVmss == None
    }

    /** If the scale set of nodes[j] lists an instance with the ID of nodes[i], up to case, then nodes[i] has an instance
        with that ID, and it is listed; unless the entry was no longer alive when the node was looked up. */
    ghost predicate ListedAttached(answers: ScaleSet -> Listing, nodes: seq<Node>, looked: seq<int>, now: int)
      requires |looked| == |nodes|
      reads nodes
    {
      forall i, j, instance: Instance ::
        && 0 <= i < |nodes| && 0 <= j < |nodes| && ListedFor(answers, nodes[j].obj, instance)
        && EqualFold(nodes[i].obj.providerId, "azure://" + instance.id)
        && (azureCache.defaultLife > 0 ==> looked[i] <= now + azureCache.defaultLife) ==>
          && nodes[i].azureVmss.Some? && EqualFold(nodes[i].azureVmss.value.id, instance.id)
          && exists k :: 0 <= k < |nodes| && ListedFor(answers, nodes[k].obj, nodes[i].azureVmss.value)
    }

    /** NodeListWithAzure, from `now` on: looks every node of its list up in the cache, at looked[i], and attaches what it
        finds, in place; a node without an entry keeps what it has. A node gets its instance if that was listed, in its
        present version, unless the listing took longer than an entry lives. Watch events may come in all the time;
        `quiet` says that none did. */
    method NodeListWithAzure(answers: ScaleSet -> Listing, now: int)
        returns (ok: bool, nodes: seq<Node>, ghost looked: seq<int>, ghost quiet: bool)
      requires Valid() && OwnInstances()
      modifies this`list, azureCache, list.Values
      ensures Valid() && OwnInstances() && (quiet ==> list == old(list))
      ensures forall i :: 0 <= i < |nodes| ==> nodes[i] in old(list.Values)
      ensures ok ==> NoNameTwice(nodes) && ShownOrBare(nodes) && (quiet ==> Shows(nodes))
      ensures |looked| == |nodes| && forall at <- looked :: now <= at
      ensures forall i :: 0 <= i < |nodes| ==>
                JoinedAt(azureCache.items, nodes[i].obj, looked[i], old(nodes[i].azureVmss), nodes[i].azureVmss)
      ensures forall node <- old(list.Values) :: node in nodes || node.azureVmss == old(node.azureVmss)
      ensures !ok ==> nodes == []
      ensures ok && quiet ==> forall node <- nodes :: Answered(answers, node.obj)
      ensures forall i :: 0 <= i < |nodes| && nodes[i].azureVmss.Some? ==>
                EqualFold(nodes[i].obj.providerId, "azure://" + nodes[i].azureVmss.value.id)
      ensures ok && quiet ==> ListedAttached(answers, nodes, looked, now)
    {
      hide IsAzure, Kept, CacheKeyed, IsInstanceOf, ListedFor;
      hide Refreshed, Answered, EqualFold, JoinedAt, ListedAttached;
      ok, nodes, quiet := ListAndRefresh(answers, now);
      if !ok {
        return false, [], [], quiet;
      }
      ghost var still;
      looked, still := AttachAll(nodes, now);
      OwnIds(nodes);
      if quiet && still {
        ghost var before := seq(|nodes|, i requires 0 <= i < |nodes| => old(nodes[i].azureVmss));
        AllAnswered(answers, nodes, now);
        AllJoined(answers, nodes, before, looked, now);
      }
      quiet := quiet && still;
    }

    lemma AllAnswered(answers: ScaleSet -> Listing, nodes: seq<Node>, now: int)
      requires Shows(nodes) && Refreshed(answers, now)
      ensures forall node <- nodes :: Answered(answers, node.obj)
    {
      hide Answered, ListedFor, Kept;
    }

    /** The nodes of the list, and then the cache. */
    method ListAndRefresh(answers: ScaleSet -> Listing, now: int) returns (ok: bool, nodes: seq<Node>, ghost quiet: bool)
      requires Valid() && OwnInstances()
      modifies this`list, azureCache
      ensures Valid() && OwnInstances() && (quiet ==> list == old(list) && Shows(nodes))
      ensures forall i :: 0 <= i < |nodes| ==> nodes[i] in old(list.Values)
      ensures NoNameTwice(nodes) && ShownOrBare(nodes)
      ensures forall node <- nodes :: node.azureVmss.Some? ==> IsInstanceOf(node.azureVmss.value, node.obj)
      ensures ok ==> Refreshed(answers, now)
    {
      hide IsAzure, World.Current, DistinctNames, CacheKeyed, IsInstanceOf, Refreshed;
      nodes := Snapshot();
      quiet := Interrupt();
      ok := RefreshAzureVmssCache(answers, now);
    }

    lemma OwnIds(nodes: seq<Node>)
      requires forall node <- nodes :: node.azureVmss.Some? ==> IsInstanceOf(node.azureVmss.value, node.obj)
      ensures forall i :: 0 <= i < |nodes| && nodes[i].azureVmss.Some? ==>
                EqualFold(nodes[i].obj.providerId, "azure://" + nodes[i].azureVmss.value.id)
    {
      hide Lower;
    }

    lemma AllJoined(answers: ScaleSet -> Listing, nodes: seq<Node>, before: seq<Option<Instance>>, looked: seq<int>, now: int)
      requires CacheKeyed(azureCache.items) && Shows(nodes) && |nodes| == |looked| == |before|
      requires Refreshed(answers, now)
      requires forall i :: 0 <= i < |nodes| ==>
                JoinedAt(azureCache.items, nodes[i].obj, looked[i], before[i], nodes[i].azureVmss)
      ensures ListedAttached(answers, nodes, looked, now)
    {
      hide EqualFold, CacheKeyed, JoinedAt, Kept, ListedFor;
      forall i, j, instance: Instance |
        && 0 <= i < |nodes| && 0 <= j < |nodes| && ListedFor(answers, nodes[j].obj, instance)
        && EqualFold(nodes[i].obj.providerId, "azure://" + instance.id)
        && (azureCache.defaultLife > 0 ==> looked[i] <= now + azureCache.defaultLife)
        ensures nodes[i].azureVmss.Some? && EqualFold(nodes[i].azureVmss.value.id, instance.id)
        ensures exists k :: 0 <= k < |nodes| && ListedFor(answers, nodes[k].obj, nodes[i].azureVmss.value) {
        assert nodes[j] in nodes && list[nodes[j].obj.name] == nodes[j];
        ListedIsFound(azureCache.items, Offered(answers), azureCache.defaultLife, now, looked[i], nodes[i].obj, instance,
                      before[i], nodes[i].azureVmss);
        var name :| name in list && ListedFor(answers, list[name].obj, nodes[i].azureVmss.value);
        var k :| 0 <= k < |nodes| && nodes[k] == list[name];
      }
    }

    /** The loop of NodeListWithAzure, each node at an instant of its own. */
    method AttachAll(nodes: seq<Node>, now: int) returns (ghost looked: seq<int>, ghost quiet: bool)
      requires Valid() && OwnInstances() && NoNameTwice(nodes) && ShownOrBare(nodes)
      requires forall node <- nodes :: node.azureVmss.Some? ==> IsInstanceOf(node.azureVmss.value, node.obj)
      modifies this`list, nodes
      ensures Valid() && OwnInstances() && ShownOrBare(nodes) && (quiet ==> list == old(list))
      ensures |looked| == |nodes| && forall at <- looked :: now <= at
      ensures forall i :: 0 <= i < |nodes| ==>
                JoinedAt(azureCache.items, nodes[i].obj, looked[i], old(nodes[i].azureVmss), nodes[i].azureVmss)
      ensures forall node <- nodes :: node.azureVmss.Some? ==> IsInstanceOf(node.azureVmss.value, node.obj)
    {
      hide IsAzure, IsInstanceOf, CacheKeyed, JoinedAt, Lower;
      looked, quiet := [], true;
      for i := 0 to |nodes|
        invariant Valid() && ShownOrBare(nodes) && (quiet ==> list == old(list))
        invariant |looked| == i && forall at <- looked :: now <= at
        invariant forall k :: 0 <= k < i ==>
                    JoinedAt(azureCache.items, nodes[k].obj, looked[k], old(nodes[k].azureVmss), nodes[k].azureVmss)
        invariant forall k :: i <= k < |nodes| ==> nodes[k].azureVmss == old(nodes[k].azureVmss)
      {
        ghost var still := Interrupt();
        quiet := quiet && still;
        ghost var at := AttachOne(nodes[i], now);
        looked := looked + [at];
      }
      forall node <- nodes ensures node.azureVmss.Some? ==> IsInstanceOf(node.azureVmss.value, node.obj) {
        var k :| 0 <= k < |nodes| && nodes[k] == node;
        StillOwn(azureCache.items, node.obj, looked[k], old(node.azureVmss), node.azureVmss);
      }
    }

    method AttachOne(node: Node, now: int) returns (ghost at: int)
      modifies node
      ensures at >= now && JoinedAt(azureCache.items, node.obj, at, old(node.azureVmss), node.azureVmss)
    {
      hide Lower;
      var instant :| instant >= now;
      at := instant;
      var azureResource := azureCache.Get(Lower(node.obj.providerId), instant);
      if azureResource.Some? {
        node.azureVmss := azureResource;
      }
    }

    // ---- counting ----

    /** Names of the nodes of the list whose instance is in that state. */
    ghost function InState(state: string): set<string>
      reads this, list.Values
    {
      set name | name in list && HasState(list[name].azureVmss, state)
    }

    method NodeCountByProvisionState(state: string) returns (count: nat)
      requires Valid()
      ensures count == |InState(state)|
      ensures InState(state) ==
              set name | name in list && list[name].azureVmss.Some? && list[name].azureVmss.value.provisioningState.Some?
                         && EqualFold(list[name].azureVmss.value.provisioningState.value, state)
    {
      hide IsAzure, HasState, World.Current, DistinctNames, ListedInState, InState;
      count := 0;
      var nodes := Snapshot();
      NoneListed(state);
      for i := 0 to |nodes|
        invariant count == |ListedInState(nodes[..i], state)|
      {
        OneMoreListed(nodes, i, state);
        if HasState(nodes[i].azureVmss, state) {
          count := count + 1;
        }
      }
      assert nodes[..|nodes|] == nodes;
      ShownInState(nodes, state);
      InStateIs(state);
    }

    lemma InStateIs(state: string)
      ensures InState(state) ==
              set name | name in list && list[name].azureVmss.Some? && list[name].azureVmss.value.provisioningState.Some?
                         && EqualFold(list[name].azureVmss.value.provisioningState.value, state)
    {
      hide EqualFold;
    }

    lemma ShownInState(nodes: seq<Node>, state: string)
      requires Valid() && Shows(nodes)
      ensures ListedInState(nodes, state) == InState(state)
    {
      hide IsAzure, HasState;
    }

    /** The start of updateRun, with watch events coming in all the time: the nodes with their instances, the candidates
        among them, and whether the run goes on with these. The number of failed nodes is exact if no event comes in, and
        never too high, since every event puts a node without an instance into the list or takes one off it. */
    method UpdatePlan(cfg: Config, answers: ScaleSet -> Listing, now: int)
        returns (ok: bool, nodes: seq<Node>, candidateList: seq<Node>, failed: nat, go: bool, ghost quiet: bool)
      requires Valid() && OwnInstances()
      modifies this`list, azureCache, list.Values
      ensures Valid() && (ok ==> NoNameTwice(nodes)) && (quiet ==> list == old(list) && (ok ==> Shows(nodes)))
      ensures ok ==> failed <= |FailedAmong(nodes)|
      ensures ok && quiet ==> failed == |FailedAmong(nodes)|
      ensures go <==> ok && failed < cfg.failedThreshold && !cfg.dryRun
      ensures (if go then Jobs.Head(Jobs.UpdateRun, Objects(candidateList)) else Jobs.Rest(Jobs.Idle)) ==
              Jobs.CollectedStep(cfg, Objects(nodes), OutdatedNames(nodes), failed, ok)
      ensures go && NothingOngoing(cfg, nodes) ==> forall node <- nodes ::
                node in candidateList <==>
                && cfg.excludeAnnotation !in node.obj.annotations
                && node.azureVmss.Some? && node.azureVmss.value.latestModelApplied == Some(false)
      ensures go ==> forall i ::
                && 0 <= i < |nodes| && NothingOngoing(cfg, nodes[..i])
                && cfg.excludeAnnotation !in nodes[i].obj.annotations && cfg.ongoingAnnotation in nodes[i].obj.annotations ==>
                  candidateList == [nodes[i]]
    {
      hide IsAzure, HasState, JoinedAt, Answered, ListedFor, EqualFold, OwnInstances, Jobs.Candidates, OutdatedNames;
      hide FailedAmong, InState, ListedInState, NothingOngoing;
      ghost var looked;
      ok, nodes, looked, quiet := NodeListWithAzure(answers, now);
      candidateList, failed, go := [], 0, false;
      if !ok {
        return;
      }
      candidateList := UpdateCollectCandidates(cfg, nodes);
      ghost var still := Interrupt();
      quiet := quiet && still;
      failed := NodeCountByProvisionState("Failed");
      NoMoreFailed(nodes);
      FailedAre(nodes);
      if quiet {
        ShownInState(nodes, "Failed");
      }
      if failed >= cfg.failedThreshold {
        return;
      }
      go := !cfg.dryRun;
    }

    lemma NoMoreFailed(nodes: seq<Node>)
      requires Valid() && ShownOrBare(nodes)
      ensures |InState("Failed")| <= |ListedInState(nodes, "Failed")|
    {
      hide IsAzure;
      SubsetSize(InState("Failed"), ListedInState(nodes, "Failed"));
    }
  }

  /** Names of those nodes whose instance is in that state. */
  ghost function ListedInState(nodes: seq<Node>, state: string): set<string>
    reads nodes
  {
    set node <- nodes | HasState(node.azureVmss, state) :: node.obj.name
  }

  /** Names of those nodes whose instance has failed. */
  ghost function FailedAmong(nodes: seq<Node>): set<string>
    reads nodes
  {
    set node <- nodes | node.azureVmss.Some? && node.azureVmss.value.provisioningState.Some?
                        && EqualFold(node.azureVmss.value.provisioningState.value, "Failed") :: node.obj.name
  }

  lemma FailedAre(nodes: seq<Node>)
    ensures FailedAmong(nodes) == ListedInState(nodes, "Failed")
  {
    hide EqualFold;
  }

  lemma NoneListed(state: string)
    ensures ListedInState([], state) == {}
  {
  }

  lemma OneMoreListed(nodes: seq<Node>, i: nat, state: string)
    requires NoNameTwice(nodes) && i < |nodes|
    ensures var name := nodes[i].obj.name;
            && name !in ListedInState(nodes[..i], state)
            && ListedInState(nodes[..i + 1], state) ==
               ListedInState(nodes[..i], state) + if HasState(nodes[i].azureVmss, state) then {name} else {}
  {
    hide HasState;
    assert nodes[..i + 1] == nodes[..i] + [nodes[i]];
  }

  // ---- candidates ----

  predicate IsOutdated(node: Node)
    reads node
  {
    node.azureVmss.Some? && node.azureVmss.value.latestModelApplied == Some(false)
  }

  function OutdatedNames(nodes: seq<Node>): set<string>
    reads nodes
  {
    set node <- nodes | IsOutdated(node) :: node.obj.name
  }

  /** The update of no node is ongoing; excluded nodes do not matter. */
  predicate NothingOngoing(cfg: Config, nodes: seq<Node>) {
    forall i :: 0 <= i < |nodes| ==>
      cfg.excludeAnnotation in nodes[i].obj.annotations || cfg.ongoingAnnotation !in nodes[i].obj.annotations
  }

  /** updateCollectCandidates: the first node whose update is ongoing, alone; otherwise the nodes that are not excluded
      and whose instance is known not to have the latest model. */
  method UpdateCollectCandidates(cfg: Config, nodeList: seq<Node>) returns (candidates: seq<Node>)
    requires NoNameTwice(nodeList)
    ensures Objects(candidates) == Jobs.Candidates(cfg, Objects(nodeList), OutdatedNames(nodeList))
    ensures forall node <- candidates :: node in nodeList
    ensures NothingOngoing(cfg, nodeList) ==> forall node <- nodeList ::
              node in candidates <==>
              && cfg.excludeAnnotation !in node.obj.annotations
              && node.azureVmss.Some? && node.azureVmss.value.latestModelApplied == Some(false)
    ensures forall i ::
              && 0 <= i < |nodeList| && NothingOngoing(cfg, nodeList[..i])
              && cfg.excludeAnnotation !in nodeList[i].obj.annotations
              && cfg.ongoingAnnotation in nodeList[i].obj.annotations ==>
                candidates == [nodeList[i]]
  {
    hide IsOutdated, OutdatedNames, Objects, Jobs.FirstOngoing, Jobs.Updatable, NoNameTwice, Picked;
    ghost var view, outdated := Objects(nodeList), OutdatedNames(nodeList);
    candidates := [];
    assert view[0..] == view;
    for i := 0 to |nodeList|
      invariant Jobs.FirstOngoing(cfg, view) == Jobs.FirstOngoing(cfg, view[i..])
      invariant NothingOngoing(cfg, nodeList[..i])
    {
      var node := nodeList[i];
      OngoingStep(cfg, view, i);
      if cfg.excludeAnnotation in node.obj.annotations {
        continue;
      }
      if cfg.ongoingAnnotation in node.obj.annotations {
        NoObjects();
        ObjectsAdd([], node);
        OnlyFirst(cfg, nodeList, i);
        return [node];
      }
    }
    NothingLeft(cfg, view, outdated);
    NoObjects();
    NonePicked(cfg, nodeList);
    for i := 0 to |nodeList|
      invariant Objects(candidates) + Jobs.Updatable(cfg, view[i..], outdated) == Jobs.Updatable(cfg, view, outdated)
      invariant Picked(cfg, nodeList, i, candidates)
    {
      var node := nodeList[i];
      UpdatableStep(cfg, view, i, outdated);
      OutdatedByName(nodeList, i);
      OneMorePicked(cfg, nodeList, i, candidates);
      if cfg.excludeAnnotation !in node.obj.annotations && IsOutdated(node) {
        ObjectsAdd(candidates, node);
        candidates := candidates + [node];
      }
    }
    AllPicked(cfg, nodeList, candidates);
  }

  /** Of the first i nodes, the candidates are exactly the outdated ones that are not excluded. */
  ghost predicate Picked(cfg: Config, nodes: seq<Node>, i: nat, candidates: seq<Node>)
    requires i <= |nodes|
    reads nodes
  {
    && (forall node <- candidates :: node in nodes[..i])
    && forall k :: 0 <= k < i ==>
         (nodes[k] in candidates <==>
          && cfg.excludeAnnotation !in nodes[k].obj.annotations
          && nodes[k].azureVmss.Some? && nodes[k].azureVmss.value.latestModelApplied == Some(false))
  }

  lemma NonePicked(cfg: Config, nodes: seq<Node>)
    ensures Picked(cfg, nodes, 0, [])
  {
  }

  lemma OneMorePicked(cfg: Config, nodes: seq<Node>, i: nat, candidates: seq<Node>)
    requires NoNameTwice(nodes) && i < |nodes| && Picked(cfg, nodes, i, candidates)
    ensures Picked(cfg, nodes, i + 1, if cfg.excludeAnnotation !in nodes[i].obj.annotations && IsOutdated(nodes[i])
                                      then candidates + [nodes[i]] else candidates)
  {
    assert nodes[..i + 1] == nodes[..i] + [nodes[i]];
    assert nodes[i] !in nodes[..i];
  }

  lemma AllPicked(cfg: Config, nodes: seq<Node>, candidates: seq<Node>)
    requires Picked(cfg, nodes, |nodes|, candidates)
    ensures forall node <- candidates :: node in nodes
    ensures forall node <- nodes ::
              node in candidates <==>
              && cfg.excludeAnnotation !in node.obj.annotations
              && node.azureVmss.Some? && node.azureVmss.value.latestModelApplied == Some(false)
  {
    assert nodes[..|nodes|] == nodes;
  }

  /** No later node has nothing but excluded and idle nodes before it. */
  lemma OnlyFirst(cfg: Config, nodes: seq<Node>, i: nat)
    requires i < |nodes| && NothingOngoing(cfg, nodes[..i])
    requires cfg.excludeAnnotation !in nodes[i].obj.annotations && cfg.ongoingAnnotation in nodes[i].obj.annotations
    ensures !NothingOngoing(cfg, nodes)
    ensures forall k ::
              && 0 <= k < |nodes| && NothingOngoing(cfg, nodes[..k])
              && cfg.excludeAnnotation !in nodes[k].obj.annotations && cfg.ongoingAnnotation in nodes[k].obj.annotations ==>
                k == i
  {
  }

  lemma OngoingStep(cfg: Config, view: seq<NodeObject>, i: nat)
    requires i < |view|
    ensures Jobs.FirstOngoing(cfg, view[i..]) ==
            if !Jobs.Excluded(cfg, view[i]) && Jobs.Ongoing(cfg, view[i]) then Some(view[i])
            else Jobs.FirstOngoing(cfg, view[i + 1..])
  {
    assert view[i..][1..] == view[i + 1..];
  }

  lemma UpdatableStep(cfg: Config, view: seq<NodeObject>, i: nat, outdated: set<string>)
    requires i < |view|
    ensures Jobs.Updatable(cfg, view[i..], outdated) ==
            (if !Jobs.Excluded(cfg, view[i]) && view[i].name in outdated then [view[i]] else [])
            + Jobs.Updatable(cfg, view[i + 1..], outdated)
  {
    assert view[i..][1..] == view[i + 1..];
  }

  lemma NothingLeft(cfg: Config, view: seq<NodeObject>, outdated: set<string>)
    ensures Jobs.FirstOngoing(cfg, view[|view|..]) == None && Jobs.Updatable(cfg, view[|view|..], outdated) == []
  {
  }

  lemma NoObjects()
    ensures Objects([]) == []
  {
  }

  lemma ObjectsAdd(nodes: seq<Node>, node: Node)
    ensures Objects(nodes + [node]) == Objects(nodes) + [node.obj]
    ensures [] + [node] == [node]
  {
  }

  lemma OutdatedByName(nodes: seq<Node>, i: nat)
    requires NoNameTwice(nodes) && i < |nodes|
    ensures nodes[i].obj.name in OutdatedNames(nodes) <==> IsOutdated(nodes[i])
  {
    if nodes[i].obj.name in OutdatedNames(nodes) {
      var k :| 0 <= k < |nodes| && IsOutdated(nodes[k]) && nodes[k].obj.name == nodes[i].obj.name;
    }
  }

  /** The instance has the ID of the node, up to case. */
  predicate IsInstanceOf(instance: Instance, obj: NodeObject) {
    EqualFold(obj.providerId, "azure://" + instance.id)
  }

  predicate CacheKeyed(items: Cache<Instance>) {
    forall key <- items :: key == "azure://" + Lower(items[key].value.id)
  }

  /** The entry is one of those offered, and stays for a lifetime that began at `now` or later. */
  ghost predicate Kept(items: Cache<Instance>, key: string, offered: iset<Instance>, life: int, now: int) {
    && key in items && items[key].value in offered
    && (items[key].expiry.At? ==> life > 0 && now + life <= items[key].expiry.instant)
  }

  ghost predicate Cached(items: Cache<Instance>, instances: seq<Instance>, offered: iset<Instance>, life: int, now: int) {
    forall instance <- instances :: Kept(items, "azure://" + Lower(instance.id), offered, life, now)
  }

  /** The entry under the lower-cased ID at that instant, or what was there before. */
  predicate JoinedAt(items: Cache<Instance>, obj: NodeObject, at: int, before: Option<Instance>, after: Option<Instance>) {
    var id := Lower(obj.providerId);
    after == if id in items && (items[id].expiry.At? ==> at <= items[id].expiry.instant) then Some(items[id].value)
             else before
  }

  lemma LowerWithScheme(id: string)
    ensures Lower("azure://" + id) == "azure://" + Lower(id)
  {
    hide Lower;
    SchemeIsLower();
    LowerConcat("azure://", id);
  }

  lemma SchemeIsLower()
    ensures Lower("azure://") == "azure://"
  {
  }

  lemma StillOwn(items: Cache<Instance>, obj: NodeObject, at: int, before: Option<Instance>, after: Option<Instance>)
    requires CacheKeyed(items) && JoinedAt(items, obj, at, before, after)
    requires before.Some? ==> IsInstanceOf(before.value, obj)
    ensures after.Some? ==> IsInstanceOf(after.value, obj)
  {
    hide Lower;
    if after.Some? {
      LowerWithScheme(after.value.id);
    }
  }

  /** A listed instance is found under the ID of its node as long as its entry lives. */
  lemma ListedIsFound(items: Cache<Instance>, offered: iset<Instance>, life: int, now: int, at: int, obj: NodeObject,
                      instance: Instance, before: Option<Instance>, after: Option<Instance>)
    requires CacheKeyed(items) && Kept(items, "azure://" + Lower(instance.id), offered, life, now)
    requires JoinedAt(items, obj, at, before, after) && (life > 0 ==> at <= now + life)
    requires EqualFold(obj.providerId, "azure://" + instance.id)
    ensures after.Some? && after.value in offered && EqualFold(after.value.id, instance.id)
  {
    hide Lower;
    LowerWithScheme(instance.id);
    var key := "azure://" + Lower(instance.id);
    assert key[8..] == Lower(instance.id) && key[8..] == Lower(items[key].value.id);
  }

  /** Joining slash-free segments with slashes is injective. */
  lemma KeysTellApart(s: ScaleSet, t: ScaleSet)
    requires IsProper(s) && IsProper(t) && VmssKey(s) == VmssKey(t)
    ensures s == t
  {
    Regrouped(s);
    Regrouped(t);
    JoinTellsApart(s.subscription, s.resourceGroup + "/" + s.name, t.subscription, t.resourceGroup + "/" + t.name);
    JoinTellsApart(s.resourceGroup, s.name, t.resourceGroup, t.name);
  }

  lemma Regrouped(s: ScaleSet)
    ensures VmssKey(s) == s.subscription + "/" + (s.resourceGroup + "/" + s.name)
  {
    var front := s.subscription + "/";
    Assoc(front, s.resourceGroup, "/" + s.name);
    Assoc(front + s.resourceGroup, "/", s.name);
    Assoc(s.resourceGroup, "/", s.name);
  }

  lemma JoinTellsApart(a: string, b: string, c: string, d: string)
    requires '/' !in a && '/' !in c && a + "/" + b == c + "/" + d
    ensures a == c && b == d
  {
    var s, t := a + "/" + b, c + "/" + d;
    FirstSlash(a, b);
    FirstSlash(c, d);
    assert s[..|a|] == a && t[..|c|] == c && s[|a| + 1..] == b && t[|c| + 1..] == d;
  }

  lemma FirstSlash(a: string, b: string)
    requires '/' !in a
    ensures (a + "/" + b)[|a|] == '/'
    ensures forall i :: 0 <= i < |a| ==> (a + "/" + b)[i] != '/'
  {
    assert forall i :: 0 <= i < |a| ==> (a + "/" + b)[i] == a[i];
  }

  lemma UsedIsProper(obj: NodeObject)
    requires ScaleSetOf(obj).Some?
    ensures IsProper(ScaleSetOf(obj).value)
  {
  }

  function ScaleSetIn(info: NodeInfo): Option<ScaleSet> {
    if info.machine.Vmss? then Some(ScaleSet(info.subscription, info.resourceGroup, info.machine.scaleSet)) else None
  }

  function ScaleSetOf(obj: NodeObject): Option<ScaleSet> {
    match ExtractNodeInfo(obj.name, obj.providerId)
    case Info(info) => ScaleSetIn(info)
    case Unrecognised => None
  }

  lemma KeyOf(info: NodeInfo)
    ensures info.machine.Vmss? ==>
              VmssKey(ScaleSetIn(info).value) == info.subscription + "/" + info.resourceGroup + "/" + info.machine.scaleSet
  {
  }

  predicate IsProper(s: ScaleSet) {
    IsSegment(s.subscription) && IsSegment(s.resourceGroup) && IsSegment(s.name)
  }

  function VmssKey(s: ScaleSet): string {
    s.subscription + "/" + s.resourceGroup + "/" + s.name
  }

  lemma ObjectsDistinct(nodes: seq<Node>)
    requires NoNameTwice(nodes)
    ensures DistinctNames(Objects(nodes))
  {
  }

  predicate NoNameTwice(nodes: seq<Node>) {
    forall i, j :: 0 <= i < j < |nodes| ==> nodes[i].obj.name != nodes[j].obj.name
  }
}

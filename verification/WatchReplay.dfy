/** What the node watch makes of its events, as a function of the events since it was (re)started. */
module WatchReplay {
  import opened Nodes
  import opened ProviderId
  import opened Text

  /** `Broken` is watch.Error; `Ignored` is any other type or object. */
  datatype WatchEvent =
    | NodeAdded(node: NodeObject)
    | NodeModified(node: NodeObject)
    | NodeDeleted(node: NodeObject)
    | Broken
    | Ignored

  type Known = map<string, NodeObject>

  /** An Azure node is added or modified. */
  predicate Sets(e: WatchEvent, name: string) {
    (e.NodeAdded? || e.NodeModified?) && e.node.name == name && IsAzure(e.node.providerId)
  }

  predicate Removes(e: WatchEvent, name: string) {
    e.NodeDeleted? && e.node.name == name
  }

  function Handled(known: Known, e: WatchEvent): Known {
    match e
    case NodeAdded(node) => if IsAzure(node.providerId) then known[node.name := node] else known
    case NodeModified(node) => if IsAzure(node.providerId) then known[node.name := node] else known
    case NodeDeleted(node) => known - {node.name}
    case _ => known
  }

  function Replay(events: seq<WatchEvent>): Known {
    if events == [] then map[] else Handled(Replay(events[..|events| - 1]), events[|events| - 1])
  }

  predicate Concerns(e: WatchEvent, name: string) {
    Sets(e, name) || Removes(e, name)
  }

  /** The last event that has a say about `name`. */
  ghost predicate LastSay(events: seq<WatchEvent>, name: string, i: int) {
    0 <= i < |events| && Concerns(events[i], name) && forall k :: i < k < |events| ==> !Concerns(events[k], name)
  }

  /** The last event that has a say about `name` adds or modifies an Azure node. */
  ghost predicate ListedLast(events: seq<WatchEvent>, name: string, node: NodeObject) {
    exists i :: LastSay(events, name, i) && Sets(events[i], name) && events[i].node == node
  }

  lemma {:induction false} ReplayedByLastSay(events: seq<WatchEvent>, name: string, node: NodeObject)
    ensures name in Replay(events) && Replay(events)[name] == node <==> ListedLast(events, name, node)
  {
    hide IsAzure;
    if events != [] {
      var before, e := events[..|events| - 1], events[|events| - 1];
      assert events == before + [e];
      ReplayedByLastSay(before, name, node);
      if Concerns(e, name) {
        assert LastSay(events, name, |events| - 1);
      } else {
        SameSay(before, e, name, node);
      }
    }
  }

  lemma SameSay(before: seq<WatchEvent>, e: WatchEvent, name: string, node: NodeObject)
    requires !Concerns(e, name)
    ensures ListedLast(before + [e], name, node) <==> ListedLast(before, name, node)
  {
    hide Concerns, IsAzure;
    var events := before + [e];
    if ListedLast(before, name, node) {
      var i :| LastSay(before, name, i) && Sets(before[i], name) && before[i].node == node;
      assert LastSay(events, name, i) && events[i] == before[i];
    }
    if ListedLast(events, name, node) {
      var i :| LastSay(events, name, i) && Sets(events[i], name) && events[i].node == node;
      assert i < |before| && events[i] == before[i];
      forall k | i < k < |before| ensures !Concerns(before[k], name) {
        assert events[k] == before[k];
      }
      assert LastSay(before, name, i);
    }
  }

  /** The list maps each name to the object of its last event, if that one adds or modifies an Azure node, and to
      nothing otherwise; adding or modifying another node says nothing. */
  lemma ReplayedIsLast(events: seq<WatchEvent>, name: string, node: NodeObject)
    ensures name in Replay(events) && Replay(events)[name] == node <==>
            exists i :: 0 <= i < |events|
                        && (events[i] == NodeAdded(node) || events[i] == NodeModified(node)) && node.name == name
                        && |node.providerId| >= 8 && EqualFold(node.providerId[..8], "azure://")
                        && forall k :: i < k < |events| ==>
                             match events[k]
                             case NodeDeleted(other) => other.name != name
                             case Broken => true
                             case Ignored => true
                             case _ =>
                               events[k].node.name != name || |events[k].node.providerId| < 8
                               || !EqualFold(events[k].node.providerId[..8], "azure://")
  {
    hide IsAzure, EqualFold, Replay;
    ReplayedByLastSay(events, name, node);
    AzureByScheme(node.providerId);
    forall k | 0 <= k < |events| && (events[k].NodeAdded? || events[k].NodeModified?)
      ensures IsAzure(events[k].node.providerId) <==>
              |events[k].node.providerId| >= 8 && EqualFold(events[k].node.providerId[..8], "azure://") {
      AzureByScheme(events[k].node.providerId);
    }
    if ListedLast(events, name, node) {
      var i :| LastSay(events, name, i) && Sets(events[i], name) && events[i].node == node;
    }
  }

  /** Every known node goes by its name and is an Azure node. */
  lemma {:induction false} ReplayedAreAzure(events: seq<WatchEvent>)
    ensures forall name <- Replay(events) ::
              var id := Replay(events)[name].providerId;
              Replay(events)[name].name == name && |id| >= 8 && EqualFold(id[..8], "azure://")
  {
    hide IsAzure;
    if events != [] {
      ReplayedAreAzure(events[..|events| - 1]);
      match events[|events| - 1] {
        case NodeAdded(node) => AzureByScheme(node.providerId);
        case NodeModified(node) => AzureByScheme(node.providerId);
        case _ =>
      }
    }
  }
}

/** Which nodes an update run takes up, and in which order. */
module UpdateCandidates {
  import opened Options
  import opened Nodes
  import opened Settings
  import opened Jobs

  predicate Resumes(cfg: Config, node: NodeObject) {
    cfg.ongoingAnnotation in node.annotations && cfg.excludeAnnotation !in node.annotations
  }

  predicate Wanted(cfg: Config, node: NodeObject, outdated: set<string>) {
    cfg.excludeAnnotation !in node.annotations && node.name in outdated
  }

  /** `picked` are nodes of `view`, in its order and once each: picked[i] is view[at[i]]. */
  ghost predicate Picks(view: seq<NodeObject>, picked: seq<NodeObject>, at: seq<int>) {
    && |at| == |picked|
    && (forall i :: 0 <= i < |at| ==> 0 <= at[i] < |view| && picked[i] == view[at[i]])
    && (forall i, j :: 0 <= i < j < |at| ==> at[i] < at[j])
  }

  /** Exactly the wanted ones. */
  ghost predicate AllWanted(cfg: Config, view: seq<NodeObject>, outdated: set<string>, at: seq<int>) {
    forall k :: 0 <= k < |view| ==> (Wanted(cfg, view[k], outdated) <==> k in at)
  }

  ghost predicate Filters(cfg: Config, view: seq<NodeObject>, outdated: set<string>, picked: seq<NodeObject>, at: seq<int>) {
    Picks(view, picked, at) && AllWanted(cfg, view, outdated, at)
  }

  function Shift(at: seq<int>): (r: seq<int>)
    ensures |r| == |at| && forall i :: 0 <= i < |at| ==> r[i] == at[i] + 1
  {
    seq(|at|, i requires 0 <= i < |at| => at[i] + 1)
  }

  lemma ShiftHas(at: seq<int>, k: int)
    ensures k in Shift(at) <==> k - 1 in at
  {
    if k in Shift(at) {
      var i :| 0 <= i < |at| && Shift(at)[i] == k;
    }
    if k - 1 in at {
      var i :| 0 <= i < |at| && at[i] == k - 1;
      assert Shift(at)[i] == k;
    }
  }

  lemma {:induction false} UpdatableFilters(cfg: Config, view: seq<NodeObject>, outdated: set<string>) returns (at: seq<int>)
    ensures Filters(cfg, view, outdated, Updatable(cfg, view, outdated), at)
  {
    if view == [] {
      at := [];
    } else {
      var rest := UpdatableFilters(cfg, view[1..], outdated);
      var picked := Updatable(cfg, view[1..], outdated);
      assert view == [view[0]] + view[1..];
      Later(cfg, view[0], view[1..], outdated, picked, rest);
      at := (if Wanted(cfg, view[0], outdated) then [0] else []) + Shift(rest);
    }
  }

  /** One more node in front. */
  lemma Later(cfg: Config, node: NodeObject, view: seq<NodeObject>, outdated: set<string>, picked: seq<NodeObject>,
              at: seq<int>)
    requires Filters(cfg, view, outdated, picked, at)
    ensures if Wanted(cfg, node, outdated)
            then Filters(cfg, [node] + view, outdated, [node] + picked, [0] + Shift(at))
            else Filters(cfg, [node] + view, outdated, picked, Shift(at))
  {
    hide Wanted, AllWanted;
    LaterPicks(node, view, picked, at);
    LaterWanted(cfg, node, view, outdated, at);
  }

  lemma LaterPicks(node: NodeObject, view: seq<NodeObject>, picked: seq<NodeObject>, at: seq<int>)
    requires Picks(view, picked, at)
    ensures Picks([node] + view, [node] + picked, [0] + Shift(at))
    ensures Picks([node] + view, picked, Shift(at))
  {
  }

  lemma LaterWanted(cfg: Config, node: NodeObject, view: seq<NodeObject>, outdated: set<string>, at: seq<int>)
    requires AllWanted(cfg, view, outdated, at) && forall i :: 0 <= i < |at| ==> 0 <= at[i]
    ensures AllWanted(cfg, [node] + view, outdated, (if Wanted(cfg, node, outdated) then [0] else []) + Shift(at))
    ensures !Wanted(cfg, node, outdated) ==> AllWanted(cfg, [node] + view, outdated, Shift(at))
  {
    hide Wanted, Shift;
    var all, now := [node] + view, (if Wanted(cfg, node, outdated) then [0] else []) + Shift(at);
    forall k | 0 <= k < |all| ensures Wanted(cfg, all[k], outdated) <==> k in now {
      ShiftHas(at, k);
      if k > 0 {
        assert all[k] == view[k - 1];
      } else {
        assert -1 !in at;
      }
    }
    assert [] + Shift(at) == Shift(at);
  }

  lemma {:induction false} FirstResumes(cfg: Config, view: seq<NodeObject>, i: nat)
    requires i < |view| && Resumes(cfg, view[i]) && forall k :: 0 <= k < i ==> !Resumes(cfg, view[k])
    ensures FirstOngoing(cfg, view) == Some(view[i])
  {
    if i > 0 {
      assert !Resumes(cfg, view[0]);
      forall k | 0 <= k < i - 1 ensures !Resumes(cfg, view[1..][k]) {
        assert view[1..][k] == view[k + 1];
      }
      FirstResumes(cfg, view[1..], i - 1);
    }
  }

  lemma {:induction false} NoneResumes(cfg: Config, view: seq<NodeObject>)
    requires forall k :: 0 <= k < |view| ==> !Resumes(cfg, view[k])
    ensures FirstOngoing(cfg, view) == None
  {
    if view != [] {
      assert !Resumes(cfg, view[0]);
      forall k | 0 <= k < |view[1..]| ensures !Resumes(cfg, view[1..][k]) {
        assert view[1..][k] == view[k + 1];
      }
      NoneResumes(cfg, view[1..]);
    }
  }

  /** The candidates are either the first node whose update is ongoing, alone, or the outdated nodes that are not
      excluded: all of them, once each, in the order of the list. */
  lemma CandidatesAre(cfg: Config, view: seq<NodeObject>, outdated: set<string>) returns (at: seq<int>)
    requires DistinctNames(view)
    ensures DistinctNames(Candidates(cfg, view, outdated))
    ensures forall i :: 0 <= i < |view| && Resumes(cfg, view[i]) && (forall k :: 0 <= k < i ==> !Resumes(cfg, view[k])) ==>
              Candidates(cfg, view, outdated) == [view[i]]
    ensures (forall k :: 0 <= k < |view| ==> !Resumes(cfg, view[k])) ==>
              Filters(cfg, view, outdated, Candidates(cfg, view, outdated), at)
  {
    hide Resumes, Filters, Updatable, FirstOngoing;
    CandidatesDistinct(cfg, view, outdated);
    forall i | 0 <= i < |view| && Resumes(cfg, view[i]) && (forall k :: 0 <= k < i ==> !Resumes(cfg, view[k]))
      ensures Candidates(cfg, view, outdated) == [view[i]] {
      FirstResumes(cfg, view, i);
    }
    if forall k :: 0 <= k < |view| ==> !Resumes(cfg, view[k]) {
      NoneResumes(cfg, view);
    }
    at := UpdatableFilters(cfg, view, outdated);
  }
}

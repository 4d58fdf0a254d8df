/** What an ID must look like to be recognised: the other direction of the round trips. */
module ProviderIdShape {
  import opened Text
  import opened ProviderId

  // ---- one expression, piece by piece ----

  lemma MatchedLit(text: string, next: Regexp, s: string)
    requires MatchHere(Lit(text, next), s).Groups?
    ensures |text| <= |s| && Lower(s[..|text|]) == text
    ensures MatchHere(Lit(text, next), s) == MatchHere(next, s[|text|..])
  {
    hide Lower;
    LowerSplit(s, |text|);
  }

  lemma MatchedSeg(next: Regexp, s: string)
    requires MatchHere(Seg(next), s).Groups?
    ensures var parts := MatchHere(Seg(next), s).parts;
            && parts != [] && parts[0] == s[..SegLen(s)]
            && MatchHere(next, s[SegLen(s)..]) == Groups(parts[1..])
  {
    var n := SegLen(s);
    match MatchHere(next, s[n..])
    case Groups(parts) => assert ([s[..n]] + parts)[1..] == parts;
    case NoMatch =>
  }

  /** The leftmost match is a match at some place, and at the start for an anchored expression. */
  lemma {:induction false} FoundAt(p: Pattern, s: string) returns (i: nat)
    requires Find(p, s).Groups?
    ensures i <= |s| && MatchHere(p.body, s[i..]) == Find(p, s) && (p.toStart ==> i == 0)
    decreases |s|
  {
    hide MatchHere;
    i := 0;
    assert s[0..] == s;
    if !MatchHere(p.body, s).Groups? {
      i := FoundAt(p, s[1..]);
      assert s[1..][i..] == s[i + 1..];
      i := i + 1;
    }
  }

  // ---- the head of the ID ----

  lemma HeadSegment(first: string, re: Regexp, s: string)
    requires MatchHere(Lit(first, Seg(re)), s).Groups?
    ensures |first| <= |s| && Lower(s[..|first|]) == first
    ensures var parts := MatchHere(Lit(first, Seg(re)), s).parts;
            var tail := s[|first|..];
            && parts != [] && parts[0] == tail[..SegLen(tail)] && MatchHere(re, tail[SegLen(tail)..]) == Groups(parts[1..])
  {
    hide Lower, MatchHere;
    MatchedLit(first, Seg(re), s);
    MatchedSeg(re, s[|first|..]);
  }

  lemma SlashAfter(t: string)
    requires MatchHere(Seg(Lit("/", Done)), t).Groups?
    ensures SegLen(t) < |t| && t[SegLen(t)] == '/'
    ensures MatchHere(Seg(Lit("/", Done)), t) == Groups([t[..SegLen(t)]])
  {
    hide Lower, MatchHere;
    MatchedSeg(Lit("/", Done), t);
    MatchedLit("/", Done, t[SegLen(t)..]);
    NothingAfter("/", t[SegLen(t)..]);
    OneMore(MatchHere(Seg(Lit("/", Done)), t).parts);
  }

  lemma NothingAfter(second: string, t: string)
    requires MatchHere(Lit(second, Done), t).Groups?
    ensures MatchHere(Lit(second, Done), t) == Groups([])
  {
    hide Lower;
  }

  lemma GroupSegment(second: string, s: string)
    requires MatchHere(Lit(second, Seg(Lit("/", Done))), s).Groups?
    ensures |second| <= |s| && Lower(s[..|second|]) == second
    ensures var t := s[|second|..];
            && SegLen(t) < |t| && t[SegLen(t)] == '/'
            && MatchHere(Lit(second, Seg(Lit("/", Done))), s) == Groups([t[..SegLen(t)]])
  {
    hide Lower, MatchHere;
    MatchedLit(second, Seg(Lit("/", Done)), s);
    SlashAfter(s[|second|..]);
  }

  /** Both anchored expressions see the same segments. */
  lemma HeadParts(first: string, second: string, id: string) returns (n: nat, m: nat)
    requires MatchHere(Lit(first, Seg(Lit(second, Done))), id).Groups?
    requires MatchHere(Lit(first, Seg(Lit(second, Seg(Lit("/", Done))))), id).Groups?
    ensures |first| + n + |second| + m < |id| && id[|first| + n + |second| + m] == '/'
    ensures var tail := id[|first|..];
            && Lower(id[..|first|]) == first && Lower(tail[n..][..|second|]) == second
            && MatchHere(Lit(first, Seg(Lit(second, Done))), id).parts == [tail[..n]]
            && MatchHere(Lit(first, Seg(Lit(second, Seg(Lit("/", Done))))), id).parts ==
               [tail[..n], tail[n..][|second|..][..m]]
  {
    hide Lower, MatchHere;
    HeadSegment(first, Lit(second, Done), id);
    HeadSegment(first, Lit(second, Seg(Lit("/", Done))), id);
    var tail := id[|first|..];
    n := SegLen(tail);
    NothingAfter(second, tail[n..]);
    GroupSegment(second, tail[n..]);
    m := SegLen(tail[n..][|second|..]);
    SameSlash(id, |first|, n, |second|, m);
    OneMore(MatchHere(Lit(first, Seg(Lit(second, Done))), id).parts);
    OneMore(MatchHere(Lit(first, Seg(Lit(second, Seg(Lit("/", Done))))), id).parts);
  }

  lemma SameSlash(id: string, a: nat, n: nat, b: nat, m: nat)
    requires a <= |id| && n <= |id[a..]| && b <= |id[a..][n..]| && m < |id[a..][n..][b..]|
    ensures a + n + b + m < |id| && id[a + n + b + m] == id[a..][n..][b..][m]
  {
  }

  lemma OneMore(parts: seq<string>)
    requires parts != []
    ensures parts == [parts[0]] + parts[1..]
  {
  }

  lemma Cut(id: string, a: nat, n: nat, b: nat, m: nat)
    requires a + n + b + m < |id| && id[a + n + b + m] == '/'
    ensures id == id[..a] + id[a..][..n] + id[a..][n..][..b] + id[a..][n..][b..][..m] + "/" + id[a + n + b + m + 1..]
  {
  }

  lemma HeadTexts()
    ensures "/" + GROUPS + "/" == "/resourcegroups/"
  {
  }

  /** A recognised ID begins with the subscription and the resource group, in any casing of the fixed parts. */
  lemma RecognisedHead(node: string, id: string) returns (head: string, groups: string, rest: string)
    requires ExtractNodeInfo(node, id).Info?
    ensures var info := ExtractNodeInfo(node, id).info;
            id == head + info.subscription + groups + info.resourceGroup + "/" + rest
    ensures Lower(head) == "azure:///subscriptions/" && Lower(groups) == "/resourcegroups/"
  {
    hide Lower, MatchHere, FindMachine;
    var first, second := "azure:///subscriptions/", "/" + GROUPS + "/";
    var i := FoundAt(SUBSCRIPTION, id);
    var k := FoundAt(RESOURCE_GROUP, id);
    assert id[0..] == id;
    var n, m := HeadParts(first, second, id);
    head, groups, rest := id[..|first|], id[|first|..][n..][..|second|], id[|first| + n + |second| + m + 1..];
    Cut(id, |first|, n, |second|, m);
    HeadTexts();
  }

  // ---- the machine ----

  /** "/providers/microsoft", any character but a newline for the dot, and `kind`; in any casing. */
  predicate IsMachineMark(mark: string, kind: string) {
    |mark| > 20 && Lower(mark[..20]) == "/providers/microsoft" && mark[20] != '\n' && Lower(mark[21..]) == kind
  }

  lemma MarkMatched(provider: string, kind: string, next: Regexp, s: string)
    requires MatchHere(Lit(provider, Dot(Lit(kind, next))), s).Groups?
    ensures var n := |provider| + 1 + |kind|;
            && n <= |s| && Lower(s[..n][..|provider|]) == provider && s[|provider|] != '\n'
            && Lower(s[..n][|provider| + 1..]) == kind
            && MatchHere(Lit(provider, Dot(Lit(kind, next))), s) == MatchHere(next, s[n..])
  {
    hide Lower, MatchHere;
    MatchedLit(provider, Dot(Lit(kind, next)), s);
    DotMatched(Lit(kind, next), s[|provider|..]);
    var t := s[|provider|..][1..];
    MatchedLit(kind, next, t);
    var n := |provider| + 1 + |kind|;
    assert t[|kind|..] == s[n..] && s[..n][..|provider|] == s[..|provider|] && s[..n][|provider| + 1..] == t[..|kind|];
  }

  lemma DotMatched(next: Regexp, s: string)
    requires MatchHere(Dot(next), s).Groups?
    ensures s != "" && s[0] != '\n' && MatchHere(Dot(next), s) == MatchHere(next, s[1..])
  {
  }

  lemma ProviderText()
    ensures PROVIDER == "/providers/microsoft" && |PROVIDER| == 20
  {
  }

  lemma SetsText()
    ensures "compute/" + SETS + "/" == "compute/virtualmachinescalesets/"
  {
  }

  lemma MachinesText()
    ensures "compute/" + MACHINES + "/" == "compute/virtualmachines/"
  {
  }

  lemma BetweenText()
    ensures "/" + MACHINES + "/" == "/virtualmachines/"
  {
  }

  lemma MarkIs(mark: string, kind: string)
    requires |mark| > |PROVIDER| && Lower(mark[..|PROVIDER|]) == PROVIDER && mark[|PROVIDER|] != '\n'
    requires Lower(mark[|PROVIDER| + 1..]) == kind
    ensures IsMachineMark(mark, kind)
  {
    hide Lower;
    ProviderText();
  }

  lemma Parts(id: string, i: nat, n: nat)
    requires i + n <= |id|
    ensures id == id[..i] + id[i..][..n] + id[i..][n..]
  {
  }

  lemma LastSegment(s: string)
    requires MatchHere(Seg(End), s).Groups?
    ensures MatchHere(Seg(End), s) == Groups([s])
  {
    MatchedSeg(End, s);
    var parts := MatchHere(Seg(End), s).parts;
    assert s[..SegLen(s)] == s && parts == [parts[0]] + parts[1..];
  }

  lemma MarkText()
    ensures VMSS_MARK == "/" + "microsoft.compute" + "/" + ("virtualmachinescalesets" + "/")
  {
    assert COMPUTE == "microsoft.compute";
  }

  /** The machine is taken for an instance of a scale set exactly if the mark is somewhere in the ID, in any casing. */
  lemma KindByMark(node: string, id: string)
    requires ExtractNodeInfo(node, id).Info?
    ensures ExtractNodeInfo(node, id).info.machine.Vmss? <==>
            exists i :: 0 <= i <= |id| && "/" + "microsoft.compute" + "/" + ("virtualmachinescalesets" + "/") <= Lower(id)[i..]
  {
    hide Lower, Contains, FindOne, MatchHere, FindMachine;
    MarkText();
    KindByContains(node, id);
    ContainsIs(Lower(id), VMSS_MARK);
  }

  lemma KindByContains(node: string, id: string)
    requires ExtractNodeInfo(node, id).Info?
    ensures ExtractNodeInfo(node, id).info.machine.Vmss? <==> Contains(Lower(id), VMSS_MARK)
  {
    hide ExtractNodeInfo, Lower, Contains;
  }

  /** A virtual machine is recognised by the end of its ID. */
  lemma RecognisedVm(node: string, id: string) returns (front: string, mark: string)
    requires ExtractNodeInfo(node, id).Info? && ExtractNodeInfo(node, id).info.machine.Vm?
    ensures id == front + mark + ExtractNodeInfo(node, id).info.machine.name
    ensures IsMachineMark(mark, "compute/virtualmachines/")
  {
    hide Lower, MatchHere, IsMachineMark, Contains;
    var kind := "compute/" + MACHINES + "/";
    var i := FoundAt(VM_NAME, id);
    var s, n := id[i..], |PROVIDER| + 1 + |kind|;
    MarkMatched(PROVIDER, kind, Seg(End), s);
    LastSegment(s[n..]);
    front, mark := id[..i], s[..n];
    MarkIs(mark, kind);
    MachinesText();
    Parts(id, i, n);
  }

  /** A scale set is recognised by its name behind the mark, */
  lemma RecognisedScaleSet(node: string, id: string) returns (front: string, mark: string, rest: string)
    requires ExtractNodeInfo(node, id).Info? && ExtractNodeInfo(node, id).info.machine.Vmss?
    ensures id == front + mark + (ExtractNodeInfo(node, id).info.machine.scaleSet + "/" + rest)
    ensures IsMachineMark(mark, "compute/virtualmachinescalesets/")
  {
    hide Lower, MatchHere, IsMachineMark, Contains;
    var kind := "compute/" + SETS + "/";
    var i := FoundAt(VMSS_NAME, id);
    var s, n := id[i..], |PROVIDER| + 1 + |kind|;
    MarkMatched(PROVIDER, kind, Seg(Lit("/", Done)), s);
    front, mark := id[..i], s[..n];
    MarkIs(mark, kind);
    SetsText();
    rest := NameAndRest(s[n..]);
    Parts(id, i, n);
  }

  /** and an instance of it by the end of the ID. */
  lemma RecognisedInstance(node: string, id: string)
      returns (front: string, mark: string, scaleSet: string, machines: string)
    requires ExtractNodeInfo(node, id).Info? && ExtractNodeInfo(node, id).info.machine.Vmss?
    ensures id == front + mark + (scaleSet + machines + ExtractNodeInfo(node, id).info.machine.instance)
    ensures IsMachineMark(mark, "compute/virtualmachinescalesets/")
    ensures scaleSet != "" && '/' !in scaleSet && Lower(machines) == "/virtualmachines/"
  {
    hide Lower, MatchHere, IsMachineMark, Contains;
    var kind := "compute/" + SETS + "/";
    var i := FoundAt(VMSS_INSTANCE, id);
    var s, n := id[i..], |PROVIDER| + 1 + |kind|;
    MarkMatched(PROVIDER, kind, Seg(Lit("/" + MACHINES + "/", Seg(End))), s);
    front, mark := id[..i], s[..n];
    MarkIs(mark, kind);
    SetsText();
    BetweenText();
    scaleSet, machines := NameAndInstance("/" + MACHINES + "/", s[n..]);
    Parts(id, i, n);
  }

  lemma NameAndRest(s: string) returns (rest: string)
    requires MatchHere(Seg(Lit("/", Done)), s).Groups?
    ensures |MatchHere(Seg(Lit("/", Done)), s).parts| > 0
    ensures s == MatchHere(Seg(Lit("/", Done)), s).parts[0] + "/" + rest
  {
    hide MatchHere;
    MatchedSeg(Lit("/", Done), s);
    var n := SegLen(s);
    MatchedLit("/", Done, s[n..]);
    rest := s[n + 1..];
    assert s == s[..n] + "/" + rest;
  }

  lemma NameAndInstance(between: string, s: string) returns (scaleSet: string, machines: string)
    requires MatchHere(Seg(Lit(between, Seg(End))), s).Groups?
    ensures |MatchHere(Seg(Lit(between, Seg(End))), s).parts| == 2
    ensures s == scaleSet + machines + MatchHere(Seg(Lit(between, Seg(End))), s).parts[1]
    ensures scaleSet != "" && '/' !in scaleSet && Lower(machines) == between
  {
    hide MatchHere, Lower;
    var re := Lit(between, Seg(End));
    MatchedSeg(re, s);
    var n := SegLen(s);
    var t := s[n..];
    MatchedLit(between, Seg(End), t);
    LastSegment(t[|between|..]);
    scaleSet, machines := s[..n], t[..|between|];
    assert t == machines + t[|between|..] && s == scaleSet + t;
    Assoc(scaleSet, machines, t[|between|..]);
    var parts := MatchHere(Seg(re), s).parts;
    assert parts == [parts[0]] + parts[1..];
    assert parts[0] in parts;
  }
}

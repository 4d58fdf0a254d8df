/** ExtractNodeInfo gives back exactly the segments a canonical Azure resource ID was made of. */
module ProviderIdRoundTrip {
  import opened Text
  import opened ProviderId

  /** `rest` starts a new segment or is empty. */
  predicate AtBoundary(rest: string) {
    rest == "" || rest[0] == '/'
  }

  // ---- one element at a time ----

  lemma MatchLit(text: string, re: Regexp, a: string, rest: string)
    requires Lower(a) == text
    ensures MatchHere(Lit(text, re), a + rest) == MatchHere(re, rest)
  {
    LowerConcat(a, rest);
    assert (a + rest)[|text|..] == rest;
  }

  lemma {:induction false} SegLenOf(seg: string, rest: string)
    requires '/' !in seg && AtBoundary(rest)
    ensures SegLen(seg + rest) == |seg|
  {
    if seg == "" {
      assert seg + rest == rest;
    } else {
      SegLenOf(seg[1..], rest);
      assert (seg + rest)[1..] == seg[1..] + rest;
    }
  }

  lemma MatchSeg(re: Regexp, seg: string, rest: string)
    requires IsSegment(seg) && AtBoundary(rest)
    ensures MatchHere(Seg(re), seg + rest) == Prepend(seg, MatchHere(re, rest))
  {
    SegLenOf(seg, rest);
    assert (seg + rest)[..|seg|] == seg && (seg + rest)[|seg|..] == rest;
  }

  lemma MatchLastSeg(seg: string)
    requires IsSegment(seg)
    ensures MatchHere(Seg(End), seg) == Groups([seg])
  {
    assert seg + "" == seg;
    MatchSeg(End, seg, "");
  }

  lemma MatchDot(re: Regexp, c: char, rest: string)
    requires c != '\n'
    ensures MatchHere(Dot(re), [c] + rest) == MatchHere(re, rest)
  {
    assert ([c] + rest)[1..] == rest;
  }

  // ---- moving the leftmost match past segments that cannot start it ----

  /** Expressions that may match anywhere and start with a slash. */
  predicate Floating(p: Pattern) {
    !p.toStart && p.body.Lit? && p.body.text != "" && p.body.text[0] == '/'
  }

  lemma FindStep(p: Pattern, s: string)
    requires !p.toStart && s != "" && p.body.Lit? && !(p.body.text <= Lower(s))
    ensures Find(p, s) == Find(p, s[1..])
  {
  }

  lemma {:induction false} SkipInside(p: Pattern, seg: string, rest: string)
    requires Floating(p) && '/' !in seg
    ensures Find(p, seg + rest) == Find(p, rest)
  {
    if seg == "" {
      assert seg + rest == rest;
    } else {
      var s := seg + rest;
      assert s[1..] == seg[1..] + rest;
      assert s[0] == seg[0] != '/';
      LowerAt(s, 0);
      SkipInside(p, seg[1..], rest);
    }
  }

  lemma FirstChar(a: string, b: string)
    ensures a != "" ==> (a + b)[0] == a[0]
    ensures a == "" ==> a + b == b
  {
  }

  /** Two paths agree on their first segment as soon as one is a prefix of the other beyond it. */
  lemma {:induction false} FirstSegment(a: string, b: string, seg: string, rest: string)
    requires '/' !in a && '/' !in seg && AtBoundary(rest)
    requires a + "/" + b <= seg + rest
    ensures seg == a && "/" + b <= rest
  {
    var x, y := a + "/" + b, seg + rest;
    assert x[0] == y[0];
    if a == "" {
      assert x[0] == '/';
      FirstChar(seg, rest);
      assert x == "/" + b && y == rest;
    } else {
      assert x[0] == a[0] != '/';
      assert seg != "" by {
        assert seg == "" ==> y == rest;
      }
      assert x[1..] == a[1..] + "/" + b && y[1..] == seg[1..] + rest;
      FirstSegment(a[1..], b, seg[1..], rest);
    }
  }

  lemma PastSlash(x: string, y: string)
    requires "/" + x <= "/" + y
    ensures x <= y
  {
    assert ("/" + x)[1..] == x && ("/" + y)[1..] == y;
  }

  lemma HeadSegment(a: string, b: string, seg: string, rest: string)
    requires '/' !in a && '/' !in seg && AtBoundary(rest)
    requires "/" + a + "/" + b <= Lower("/" + seg + rest)
    ensures Lower(seg) == a && "/" + b <= Lower(rest)
  {
    LowerPath(seg, rest);
    Assoc("/", a + "/", b);
    Assoc("/", a, "/");
    Assoc("/", Lower(seg), Lower(rest));
    PastSlash(a + "/" + b, Lower(seg) + Lower(rest));
    LowerSlashes(seg);
    FirstSegment(a, b, Lower(seg), Lower(rest));
  }

  lemma NotHead(a: string, b: string, seg: string, rest: string)
    requires '/' !in seg && '/' !in a && b != "" && AtBoundary(rest)
    requires Lower(seg) != a || |rest| < 2 || LowerChar(rest[1]) != b[0]
    ensures !("/" + a + "/" + b <= Lower("/" + seg + rest))
  {
    if "/" + a + "/" + b <= Lower("/" + seg + rest) {
      HeadSegment(a, b, seg, rest);
      LowerAt(rest, 1);
    }
  }

  lemma PastFirst(seg: string, rest: string)
    ensures |"/" + seg + rest| > 0 && ("/" + seg + rest)[1..] == seg + rest
  {
  }

  lemma SkipUnmatched(p: Pattern, seg: string, rest: string)
    requires Floating(p) && '/' !in seg
    requires !(p.body.text <= Lower("/" + seg + rest))
    ensures Find(p, "/" + seg + rest) == Find(p, rest)
  {
    hide Find, MatchHere, Lower;
    PastFirst(seg, rest);
    FindStep(p, "/" + seg + rest);
    SkipInside(p, seg, rest);
  }

  /** A segment starts no match unless it is "providers" and the next one starts with an 'm'. */
  lemma SkipSegment(p: Pattern, seg: string, rest: string)
    requires Floating(p) && p.body.text == PROVIDER && '/' !in seg && AtBoundary(rest)
    requires Lower(seg) != "providers" || |rest| < 2 || LowerChar(rest[1]) != 'm'
    ensures Find(p, "/" + seg + rest) == Find(p, rest)
  {
    NotHead("providers", "microsoft", seg, rest);
    SkipUnmatched(p, seg, rest);
  }

  /** The fixed parts of an ID in any casing: scheme, "subscriptions" and "resourceGroups". */
  predicate SubscriptionHead(scheme: string, k1: string, k2: string) {
    Lower(scheme) == "azure:" && Lower(k1) == "subscriptions" && Lower(k2) == GROUPS
  }

  function GroupId(scheme: string, k1: string, sub: string, k2: string, rg: string, rest: string): string {
    scheme + ("/" + ("/" + ("/" + k1 + ("/" + sub + ("/" + k2 + ("/" + rg + rest))))))
  }

  /** The search for a machine arrives at the provider part, whatever the segments before it are. */
  lemma FindAtProvider(p: Pattern, scheme: string, k1: string, sub: string, k2: string, rg: string, rest: string)
    requires Floating(p) && p.body.text == PROVIDER && IsSegment(sub) && IsSegment(rg) && SubscriptionHead(scheme, k1, k2)
    requires |rest| >= 2 && rest[0] == '/' && LowerChar(rest[1]) != 'm'
    ensures Find(p, GroupId(scheme, k1, sub, k2, rg, rest)) == Find(p, rest)
  {
    LowerSlashes(scheme);
    LowerSlashes(k1);
    FindAtGroup(p, GROUPS, sub, k2, rg, rest);
    FindAtSubscription(p, scheme, k1, "/" + sub + ("/" + k2 + ("/" + rg + rest)));
  }

  lemma FindAtGroup(p: Pattern, groups: string, sub: string, k2: string, rg: string, rest: string)
    requires Floating(p) && p.body.text == PROVIDER && IsSegment(sub) && IsSegment(rg)
    requires Lower(k2) == groups && IsSegment(groups) && groups != "providers" && groups[0] != 'm'
    requires |rest| >= 2 && rest[0] == '/' && LowerChar(rest[1]) != 'm'
    ensures Find(p, "/" + sub + ("/" + k2 + ("/" + rg + rest))) == Find(p, rest)
  {
    LowerSlashes(k2);
    var atGroup := "/" + rg + rest;
    var atKey := "/" + k2 + atGroup;
    SkipSegment(p, rg, rest);
    SkipSegment(p, k2, atGroup);
    assert atKey[1] == k2[0];
    LowerAt(k2, 0);
    SkipSegment(p, sub, atKey);
  }

  lemma SkipEmpty(p: Pattern, rest: string)
    requires Floating(p) && p.body.text == PROVIDER && AtBoundary(rest)
    ensures Find(p, "/" + rest) == Find(p, rest)
  {
    SkipSegment(p, "", rest);
    assert "/" + "" + rest == "/" + rest;
  }

  lemma FindAtSubscription(p: Pattern, scheme: string, k1: string, rest: string)
    requires Floating(p) && p.body.text == PROVIDER && AtBoundary(rest) && '/' !in scheme && '/' !in k1 && Lower(k1) != "providers"
    ensures Find(p, scheme + ("/" + ("/" + ("/" + k1 + rest)))) == Find(p, rest)
  {
    var atFirst := "/" + k1 + rest;
    SkipSegment(p, k1, rest);
    SkipEmpty(p, atFirst);
    SkipEmpty(p, "/" + atFirst);
    SkipInside(p, scheme, "/" + ("/" + atFirst));
  }

  // ---- the provider part ----

  function MachinePath(k3: string, k4: string, k5: string, tail: string): string {
    "/" + k3 + ("/" + k4 + ("/" + k5 + ("/" + tail)))
  }

  predicate MachineHead(k3: string, k4: string, k5: string, kind: string) {
    Lower(k3) == "providers" && Lower(k4) == COMPUTE && Lower(k5) == kind && '/' !in kind
  }

  lemma MatchMachineHead(between: string, re: Regexp, k3: string, k4: string, k5: string, kind: string, tail: string)
    requires MachineHead(k3, k4, k5, kind) && between == "compute/" + kind + "/"
    ensures MatchHere(Lit(PROVIDER, Dot(Lit(between, re))), MachinePath(k3, k4, k5, tail)) == MatchHere(re, tail)
  {
    var a, c := "/" + k3 + ("/" + k4[..9]), k4[10..] + ("/" + k5 + "/");
    LowerHead(k3, k4);
    LowerTail(k4, k5, kind);
    assert MachinePath(k3, k4, k5, tail) == a + ([k4[9]] + (c + tail));
    MatchLit(between, re, c, tail);
    MatchDot(Lit(between, re), k4[9], c + tail);
    MatchLit(PROVIDER, Dot(Lit(between, re)), a, [k4[9]] + (c + tail));
  }

  lemma LowerHead(k3: string, k4: string)
    requires Lower(k3) == "providers" && Lower(k4) == COMPUTE
    ensures |k4| == 17 && k4[9] != '\n'
    ensures Lower("/" + k3 + ("/" + k4[..9])) == PROVIDER
  {
    LowerAt(k4, 9);
    Microsoft(k4);
    LowerSlash(k3);
    LowerSlash(k4[..9]);
    LowerConcat("/" + k3, "/" + k4[..9]);
    assert PROVIDER == "/" + "providers" + ("/" + "microsoft");
  }

  lemma Microsoft(k4: string)
    requires Lower(k4) == COMPUTE
    ensures Lower(k4[..9]) == "microsoft" && Lower(k4[10..]) == "compute"
  {
    LowerSplit(k4, 9);
    LowerSplit(k4, 10);
  }

  lemma LowerSlash(seg: string)
    ensures Lower("/" + seg) == "/" + Lower(seg)
  {
    assert ("/" + seg)[1..] == seg;
  }

  lemma LowerTail(k4: string, k5: string, kind: string)
    requires Lower(k4) == COMPUTE && Lower(k5) == kind
    ensures Lower(k4[10..] + ("/" + k5 + "/")) == "compute/" + kind + "/"
  {
    Microsoft(k4);
    LowerSlash(k5);
    LowerConcat("/" + k5, "/");
    LowerConcat(k4[10..], "/" + k5 + "/");
    Regroup("compute", kind);
  }

  lemma Regroup(a: string, b: string)
    ensures a + ("/" + b + "/") == a + "/" + b + "/"
  {
  }

  // ---- is it a scale set? ----

  lemma {:induction false} ContainsAt(a: string, part: string, b: string)
    ensures Contains(a + part + b, part)
  {
    if a != "" {
      ContainsAt(a[1..], part, b);
      assert (a + part + b)[1..] == a[1..] + part + b;
    } else {
      assert a + part + b == part + b;
    }
  }

  lemma {:induction false} NotInside(seg: string, rest: string, part: string)
    requires '/' !in seg && part != "" && part[0] == '/'
    ensures Contains(seg + rest, part) == Contains(rest, part)
  {
    if seg == "" {
      assert seg + rest == rest;
    } else {
      NotInside(seg[1..], rest, part);
      assert (seg + rest)[0] == seg[0] && (seg + rest)[1..] == seg[1..] + rest;
    }
  }

  /** Text "/a/b" does not start at a segment other than `a`, nor at one followed by something other than "/b". */
  lemma NotAtSegment(seg: string, rest: string, a: string, b: string)
    requires '/' !in seg && '/' !in a && AtBoundary(rest)
    requires seg != a || !("/" + b <= rest)
    ensures Contains("/" + seg + rest, "/" + a + "/" + b) == Contains(rest, "/" + a + "/" + b)
  {
    var s, part := "/" + seg + rest, "/" + a + "/" + b;
    assert s[1..] == seg + rest;
    if part <= s {
      assert part[1..] == a + "/" + b;
      FirstSegment(a, b, seg, rest);
      assert false;
    }
    NotInside(seg, rest, part);
  }

  lemma {:induction false} ContainsLater(a: string, rest: string, part: string)
    requires Contains(rest, part)
    ensures Contains(a + rest, part)
  {
    if a == "" {
      assert a + rest == rest;
    } else {
      ContainsLater(a[1..], rest, part);
      assert (a + rest)[1..] == a[1..] + rest;
    }
  }

  lemma LowerPath(seg: string, rest: string)
    ensures Lower("/" + seg + rest) == "/" + Lower(seg) + Lower(rest)
  {
    LowerSlash(seg);
    LowerConcat("/" + seg, rest);
  }

  lemma LowerGroupId(scheme: string, k1: string, sub: string, k2: string, rg: string, rest: string)
    ensures Lower(GroupId(scheme, k1, sub, k2, rg, rest)) ==
            GroupId(Lower(scheme), Lower(k1), Lower(sub), Lower(k2), Lower(rg), Lower(rest))
  {
    var atGroup := "/" + rg + rest;
    var atKey := "/" + k2 + atGroup;
    var atSub := "/" + sub + atKey;
    var atFirst := "/" + k1 + atSub;
    LowerPath(rg, rest);
    LowerPath(k2, atGroup);
    LowerPath(sub, atKey);
    LowerPath(k1, atSub);
    LowerSlash(atFirst);
    LowerSlash("/" + atFirst);
    LowerConcat(scheme, "/" + ("/" + atFirst));
  }

  lemma LowerMachinePath(k3: string, k4: string, k5: string, tail: string)
    ensures Lower(MachinePath(k3, k4, k5, tail)) == MachinePath(Lower(k3), Lower(k4), Lower(k5), Lower(tail))
  {
    LowerSlash(tail);
    LowerPath(k5, "/" + tail);
    LowerPath(k4, "/" + k5 + ("/" + tail));
    LowerPath(k3, "/" + k4 + ("/" + k5 + ("/" + tail)));
  }

  /** In the part up to the resource group a mark "/a/b" can only start at the subscription or the group, and
      neither is followed by "/b". */
  lemma NoMarkBefore(scheme: string, k1: string, sub: string, k2: string, rg: string, rest: string, a: string, b: string)
    requires '/' !in scheme && '/' !in k1 && '/' !in sub && '/' !in k2 && '/' !in rg && '/' !in a && AtBoundary(rest)
    requires a != "" && k1 != a && k2 != a
    requires !("/" + b <= "/" + k2 + ("/" + rg + rest)) && !("/" + b <= rest)
    ensures Contains(GroupId(scheme, k1, sub, k2, rg, rest), "/" + a + "/" + b) == Contains(rest, "/" + a + "/" + b)
  {
    var atGroup := "/" + rg + rest;
    var atKey := "/" + k2 + atGroup;
    var atSub := "/" + sub + atKey;
    var atFirst := "/" + k1 + atSub;
    NotAtSegment(rg, rest, a, b);
    NotAtSegment(k2, atGroup, a, b);
    NotAtSegment(sub, atKey, a, b);
    NotAtSegment(k1, atSub, a, b);
    NotAtEmpty(atFirst, a, b);
    NotAtEmpty("/" + atFirst, a, b);
    NotInside(scheme, "/" + ("/" + atFirst), "/" + a + "/" + b);
  }

  lemma NotAtEmpty(rest: string, a: string, b: string)
    requires '/' !in a && a != "" && AtBoundary(rest)
    ensures Contains("/" + rest, "/" + a + "/" + b) == Contains(rest, "/" + a + "/" + b)
  {
    NotAtSegment("", rest, a, b);
    assert "/" + "" + rest == "/" + rest;
  }

  lemma MachinePathHasMark(front: string, k3: string, a: string, b: string, tail: string)
    ensures Contains(front + MachinePath(k3, a, b, tail), "/" + a + "/" + (b + "/"))
  {
    ContainsAt(front + "/" + k3, "/" + a + "/" + (b + "/"), tail);
    assert front + MachinePath(k3, a, b, tail) == front + "/" + k3 + ("/" + a + "/" + (b + "/")) + tail;
  }

  /** The ID of a scale set instance: any casing of the fixed parts, any segments. */
  function VmssId(scheme: string, k1: string, sub: string, k2: string, rg: string,
                  k3: string, k4: string, k5: string, scaleSet: string, k6: string, instance: string): string {
    GroupId(scheme, k1, sub, k2, rg, MachinePath(k3, k4, k5, scaleSet + ("/" + k6 + ("/" + instance))))
  }

  /** The ID of a stand-alone virtual machine. */
  function VmId(scheme: string, k1: string, sub: string, k2: string, rg: string,
                k3: string, k4: string, k5: string, name: string): string {
    GroupId(scheme, k1, sub, k2, rg, MachinePath(k3, k4, k5, name))
  }

  lemma VmssMarked(scheme: string, k1: string, sub: string, k2: string, rg: string,
                   k3: string, k4: string, k5: string, tail: string)
    requires Lower(k4) == COMPUTE && Lower(k5) == SETS
    ensures Contains(Lower(GroupId(scheme, k1, sub, k2, rg, MachinePath(k3, k4, k5, tail))), VMSS_MARK)
  {
    var rest := MachinePath(k3, k4, k5, tail);
    LowerGroupId(scheme, k1, sub, k2, rg, rest);
    LowerMachinePath(k3, k4, k5, tail);
    MachinePathHasMark("", Lower(k3), COMPUTE, SETS, Lower(tail));
    var low := Lower(rest);
    assert "" + low == low;
    GroupIdContains(Lower(scheme), Lower(k1), Lower(sub), Lower(k2), Lower(rg), low, VMSS_MARK);
  }

  lemma GroupIdContains(scheme: string, k1: string, sub: string, k2: string, rg: string, rest: string, part: string)
    requires Contains(rest, part)
    ensures Contains(GroupId(scheme, k1, sub, k2, rg, rest), part)
  {
    var front := scheme + "/" + "/" + "/" + k1 + "/" + sub + "/" + k2 + "/" + rg;
    assert GroupId(scheme, k1, sub, k2, rg, rest) == front + rest;
    ContainsLater(front, rest, part);
  }

  lemma VmNotMarked(scheme: string, k1: string, sub: string, k2: string, rg: string,
                    k3: string, k4: string, k5: string, name: string)
    requires SubscriptionHead(scheme, k1, k2) && MachineHead(k3, k4, k5, MACHINES)
    requires IsSegment(sub) && IsSegment(rg) && IsSegment(name)
    ensures !Contains(Lower(VmId(scheme, k1, sub, k2, rg, k3, k4, k5, name)), VMSS_MARK)
  {
    var rest := MachinePath(k3, k4, k5, name);
    LowerGroupId(scheme, k1, sub, k2, rg, rest);
    LowerMachinePath(k3, k4, k5, name);
    LowerSlashes(sub);
    LowerSlashes(rg);
    LowerSlashes(name);
    var low := MachinePath("providers", COMPUTE, MACHINES, Lower(name));
    NoMarkInVm(Lower(name));
    NotPrefix(SETS + "/", "/" + GROUPS + ("/" + Lower(rg) + low));
    NotPrefix(SETS + "/", low);
    NoMarkBefore("azure:", "subscriptions", Lower(sub), GROUPS, Lower(rg), low, COMPUTE, SETS + "/");
  }

  lemma NoMarkInVm(name: string)
    requires '/' !in name
    ensures !Contains(MachinePath("providers", COMPUTE, MACHINES, name), "/" + COMPUTE + "/" + (SETS + "/"))
  {
    var b := SETS + "/";
    var atName := "/" + name;
    var atKind := "/" + MACHINES + atName;
    var atCompute := "/" + COMPUTE + atKind;
    assert atName + "" == atName;
    NotAtSegment(name, "", COMPUTE, b);
    NotAtSegment(MACHINES, atName, COMPUTE, b);
    VmIsNotSets(name);
    NotAtSegment(COMPUTE, atKind, COMPUTE, b);
    NotAtSegment("providers", atCompute, COMPUTE, b);
  }

  lemma NotPrefix(b: string, y: string)
    requires b != "" && |y| > 1 && b[0] != y[1]
    ensures !("/" + b <= y)
  {
    assert ("/" + b)[1] == b[0];
  }

  lemma VmIsNotSets(name: string)
    ensures !("/" + (SETS + "/") <= "/" + MACHINES + ("/" + name))
  {
    var x, y := "/" + (SETS + "/"), "/" + MACHINES + ("/" + name);
    assert x[16] == SETS[15] == 'c';
    assert y[16] == '/';
  }

  // ---- the anchored expressions ----

  lemma MatchGroup(re: Regexp, scheme: string, k1: string, sub: string, k2: string, tail: string)
    requires SubscriptionHead(scheme, k1, k2) && IsSegment(sub)
    ensures MatchHere(Lit("azure:///subscriptions/", Seg(Lit("/" + GROUPS + "/", re))),
                      scheme + ("/" + ("/" + ("/" + k1 + ("/" + sub + ("/" + k2 + ("/" + tail))))))) ==
            Prepend(sub, MatchHere(re, tail))
  {
    var a, c := scheme + ("/" + ("/" + ("/" + k1 + "/"))), "/" + k2 + "/";
    SubscriptionText(scheme, k1);
    GroupText(k2);
    assert scheme + ("/" + ("/" + ("/" + k1 + ("/" + sub + ("/" + k2 + ("/" + tail)))))) == a + (sub + (c + tail));
    MatchLit("/" + GROUPS + "/", re, c, tail);
    MatchSeg(Lit("/" + GROUPS + "/", re), sub, c + tail);
    MatchLit("azure:///subscriptions/", Seg(Lit("/" + GROUPS + "/", re)), a, sub + (c + tail));
  }

  lemma SubscriptionText(scheme: string, k1: string)
    requires Lower(scheme) == "azure:" && Lower(k1) == "subscriptions"
    ensures Lower(scheme + ("/" + ("/" + ("/" + k1 + "/")))) == "azure:///subscriptions/"
  {
    LowerPath(k1, "/");
    LowerSlash("/" + k1 + "/");
    LowerSlash("/" + ("/" + k1 + "/"));
    LowerConcat(scheme, "/" + ("/" + ("/" + k1 + "/")));
  }

  lemma GroupText(k2: string)
    requires Lower(k2) == GROUPS
    ensures Lower("/" + k2 + "/") == "/" + GROUPS + "/"
  {
    LowerPath(k2, "/");
  }

  lemma FindsGroup(scheme: string, k1: string, sub: string, k2: string, rg: string, rest: string)
    requires SubscriptionHead(scheme, k1, k2) && IsSegment(sub) && IsSegment(rg) && rest != "" && rest[0] == '/'
    ensures FindOne(SUBSCRIPTION, 0, GroupId(scheme, k1, sub, k2, rg, rest)) == Is(sub)
    ensures FindOne(RESOURCE_GROUP, 1, GroupId(scheme, k1, sub, k2, rg, rest)) == Is(rg)
  {
    assert "/" + rg + rest == "/" + (rg + rest);
    MatchGroup(Done, scheme, k1, sub, k2, rg + rest);
    MatchGroup(Seg(Lit("/", Done)), scheme, k1, sub, k2, rg + rest);
    MatchSlash(rg, rest);
  }

  lemma MatchSlash(seg: string, rest: string)
    requires IsSegment(seg) && rest != "" && rest[0] == '/'
    ensures MatchHere(Seg(Lit("/", Done)), seg + rest) == Groups([seg])
  {
    assert rest == "/" + rest[1..];
    MatchLit("/", Done, "/", rest[1..]);
    MatchSeg(Lit("/", Done), seg, rest);
  }

  // ---- the machine expressions, once the search has arrived at them ----

  lemma FindHere(p: Pattern, s: string)
    requires MatchHere(p.body, s).Groups?
    ensures Find(p, s) == MatchHere(p.body, s)
  {
  }

  lemma FindsScaleSet(k3: string, k4: string, k5: string, scaleSet: string, rest: string)
    requires MachineHead(k3, k4, k5, SETS) && IsSegment(scaleSet) && rest != "" && rest[0] == '/'
    ensures Find(VMSS_NAME, MachinePath(k3, k4, k5, scaleSet + rest)) == Groups([scaleSet])
  {
    MatchMachineHead("compute/" + SETS + "/", Seg(Lit("/", Done)), k3, k4, k5, SETS, scaleSet + rest);
    MatchSlash(scaleSet, rest);
    FindHere(VMSS_NAME, MachinePath(k3, k4, k5, scaleSet + rest));
  }

  lemma MatchInstance(between: string, scaleSet: string, mid: string, instance: string)
    requires Lower(mid) == between && mid != "" && mid[0] == '/' && IsSegment(scaleSet) && IsSegment(instance)
    ensures MatchHere(Seg(Lit(between, Seg(End))), scaleSet + (mid + instance)) == Groups([scaleSet, instance])
  {
    MatchSeg(Lit(between, Seg(End)), scaleSet, mid + instance);
    MatchLit(between, Seg(End), mid, instance);
    MatchLastSeg(instance);
  }

  lemma FindsInstance(p: Pattern, sets: string, machines: string,
                      k3: string, k4: string, k5: string, scaleSet: string, k6: string, instance: string)
    requires p.body == Lit(PROVIDER, Dot(Lit("compute/" + sets + "/", Seg(Lit("/" + machines + "/", Seg(End))))))
    requires MachineHead(k3, k4, k5, sets) && Lower(k6) == machines
    requires IsSegment(scaleSet) && IsSegment(instance)
    ensures Find(p, MachinePath(k3, k4, k5, scaleSet + ("/" + k6 + ("/" + instance)))) == Groups([scaleSet, instance])
  {
    var mid := "/" + k6 + "/";
    Assoc("/" + k6, "/", instance);
    LowerPath(k6, "/");
    MatchInstance("/" + machines + "/", scaleSet, mid, instance);
    MatchMachineHead("compute/" + sets + "/", Seg(Lit("/" + machines + "/", Seg(End))), k3, k4, k5, sets,
                     scaleSet + (mid + instance));
    FindHere(p, MachinePath(k3, k4, k5, scaleSet + (mid + instance)));
  }

  lemma FindsVm(k3: string, k4: string, k5: string, name: string)
    requires MachineHead(k3, k4, k5, MACHINES) && IsSegment(name)
    ensures Find(VM_NAME, MachinePath(k3, k4, k5, name)) == Groups([name])
  {
    MatchMachineHead("compute/" + MACHINES + "/", Seg(End), k3, k4, k5, MACHINES, name);
    MatchLastSeg(name);
    FindHere(VM_NAME, MachinePath(k3, k4, k5, name));
  }

  lemma MachineBoundary(k3: string, k4: string, k5: string, tail: string)
    requires Lower(k3) == "providers"
    ensures |MachinePath(k3, k4, k5, tail)| >= 2 && MachinePath(k3, k4, k5, tail)[0] == '/'
    ensures LowerChar(MachinePath(k3, k4, k5, tail)[1]) == 'p'
  {
    LowerAt(k3, 0);
    assert MachinePath(k3, k4, k5, tail)[1] == k3[0];
  }

  // ---- the round trips ----

  lemma VmssComesBack(node: string, scheme: string, k1: string, sub: string, k2: string, rg: string,
                      k3: string, k4: string, k5: string, scaleSet: string, k6: string, instance: string)
    requires SubscriptionHead(scheme, k1, k2) && MachineHead(k3, k4, k5, SETS) && Lower(k6) == MACHINES
    requires IsSegment(sub) && IsSegment(rg) && IsSegment(scaleSet) && IsSegment(instance)
    ensures var id := VmssId(scheme, k1, sub, k2, rg, k3, k4, k5, scaleSet, k6, instance);
            ExtractNodeInfo(node, id) ==
            Info(NodeInfo(node, id, TrimPrefix(id, "azure://"), sub, rg, Vmss(scaleSet, instance)))
  {
    var tail := scaleSet + ("/" + k6 + ("/" + instance));
    var rest := MachinePath(k3, k4, k5, tail);
    MachineBoundary(k3, k4, k5, tail);
    FindsGroup(scheme, k1, sub, k2, rg, rest);
    VmssMachine(scheme, k1, sub, k2, rg, k3, k4, k5, scaleSet, k6, instance);
    Extracts(node, GroupId(scheme, k1, sub, k2, rg, rest), sub, rg, Vmss(scaleSet, instance));
  }

  lemma Extracts(node: string, id: string, sub: string, rg: string, machine: Machine)
    requires FindOne(SUBSCRIPTION, 0, id) == Is(sub) && FindOne(RESOURCE_GROUP, 1, id) == Is(rg)
    requires FindMachine(id) == Found(machine)
    ensures ExtractNodeInfo(node, id) == Info(NodeInfo(node, id, TrimPrefix(id, "azure://"), sub, rg, machine))
  {
  }

  lemma VmssMachine(scheme: string, k1: string, sub: string, k2: string, rg: string,
                    k3: string, k4: string, k5: string, scaleSet: string, k6: string, instance: string)
    requires SubscriptionHead(scheme, k1, k2) && MachineHead(k3, k4, k5, SETS) && Lower(k6) == MACHINES
    requires IsSegment(sub) && IsSegment(rg) && IsSegment(scaleSet) && IsSegment(instance)
    ensures FindMachine(VmssId(scheme, k1, sub, k2, rg, k3, k4, k5, scaleSet, k6, instance)) ==
            Found(Vmss(scaleSet, instance))
  {
    var tail := scaleSet + ("/" + k6 + ("/" + instance));
    var rest := MachinePath(k3, k4, k5, tail);
    MachineBoundary(k3, k4, k5, tail);
    VmssMarked(scheme, k1, sub, k2, rg, k3, k4, k5, tail);
    FindAtProvider(VMSS_NAME, scheme, k1, sub, k2, rg, rest);
    FindAtProvider(VMSS_INSTANCE, scheme, k1, sub, k2, rg, rest);
    FindsScaleSet(k3, k4, k5, scaleSet, "/" + k6 + ("/" + instance));
    FindsInstance(VMSS_INSTANCE, SETS, MACHINES, k3, k4, k5, scaleSet, k6, instance);
  }

  lemma VmComesBack(node: string, scheme: string, k1: string, sub: string, k2: string, rg: string,
                    k3: string, k4: string, k5: string, name: string)
    requires SubscriptionHead(scheme, k1, k2) && MachineHead(k3, k4, k5, MACHINES)
    requires IsSegment(sub) && IsSegment(rg) && IsSegment(name)
    ensures var id := VmId(scheme, k1, sub, k2, rg, k3, k4, k5, name);
            ExtractNodeInfo(node, id) == Info(NodeInfo(node, id, TrimPrefix(id, "azure://"), sub, rg, Vm(name)))
  {
    var rest := MachinePath(k3, k4, k5, name);
    var id := GroupId(scheme, k1, sub, k2, rg, rest);
    MachineBoundary(k3, k4, k5, name);
    FindsGroup(scheme, k1, sub, k2, rg, rest);
    VmNotMarked(scheme, k1, sub, k2, rg, k3, k4, k5, name);
    FindAtProvider(VM_NAME, scheme, k1, sub, k2, rg, rest);
    FindsVm(k3, k4, k5, name);
    Extracts(node, id, sub, rg, Vm(name));
  }

  /** Segments, each behind a slash. */
  function Path(segments: seq<string>): string {
    if segments == [] then "" else "/" + segments[0] + Path(segments[1..])
  }

  lemma PathOf(segment: string, rest: seq<string>)
    ensures Path([segment] + rest) == "/" + segment + Path(rest)
    ensures Path([segment]) == "/" + segment
  {
    assert ([segment] + rest)[1..] == rest;
    assert "/" + segment + "" == "/" + segment && [segment][1..] == [];
  }

  lemma GroupPath(scheme: string, k1: string, sub: string, k2: string, rg: string, rest: seq<string>)
    ensures scheme + "//" + Path([k1, sub, k2, rg] + rest) == GroupId(scheme, k1, sub, k2, rg, Path(rest))
  {
    hide Path;
    PathOf(rg, rest);
    PathOf(k2, [rg] + rest);
    PathOf(sub, [k2] + ([rg] + rest));
    PathOf(k1, [sub] + ([k2] + ([rg] + rest)));
    assert [k1, sub, k2, rg] + rest == [k1] + ([sub] + ([k2] + ([rg] + rest)));
    var path := Path([k1, sub, k2, rg] + rest);
    assert scheme + "//" + path == scheme + ("/" + ("/" + path));
  }

  lemma MachinePathOf(k3: string, k4: string, k5: string, rest: seq<string>, tail: string)
    requires Path(rest) == "/" + tail
    ensures Path([k3, k4, k5] + rest) == MachinePath(k3, k4, k5, tail)
  {
    hide Path;
    PathOf(k5, rest);
    PathOf(k4, [k5] + rest);
    PathOf(k3, [k4] + ([k5] + rest));
    assert [k3, k4, k5] + rest == [k3] + ([k4] + ([k5] + rest));
  }

  /** What is left of the ID behind the scheme, as strings.TrimPrefix has it. */
  lemma SchemeCut(scheme: string, rest: string)
    requires Lower(scheme) == "azure:"
    ensures var id := scheme + "//" + rest; TrimPrefix(id, "azure://") == if scheme == "azure:" then rest else id
  {
    var id := scheme + "//" + rest;
    assert "azure://" == "azure:" + "//";
    if "azure://" <= id {
      assert id[..6] == scheme == "azure:";
    }
    if scheme == "azure:" {
      assert id == "azure://" + rest;
    }
  }

  /** For every casing of the fixed parts and all segments, the four segments of a scale set ID come back, and the ID
      without the scheme if that is in lower case. */
  lemma VmssRoundTrip(node: string, scheme: string, k1: string, sub: string, k2: string, rg: string,
                      k3: string, k4: string, k5: string, scaleSet: string, k6: string, instance: string)
    requires Lower(scheme) == "azure:" && Lower(k1) == "subscriptions" && Lower(k2) == "resourcegroups"
    requires Lower(k3) == "providers" && Lower(k4) == "microsoft.compute" && Lower(k5) == "virtualmachinescalesets"
    requires Lower(k6) == "virtualmachines"
    requires forall s <- [sub, rg, scaleSet, instance] :: s != "" && '/' !in s
    ensures var rest := Path([k1, sub, k2, rg, k3, k4, k5, scaleSet, k6, instance]);
            ExtractNodeInfo(node, scheme + "//" + rest) ==
            Info(NodeInfo(node, scheme + "//" + rest, if scheme == "azure:" then rest else scheme + "//" + rest,
                          sub, rg, Vmss(scaleSet, instance)))
  {
    hide Path, ExtractNodeInfo, Lower, TrimPrefix;
    var tail := [scaleSet, k6, instance];
    PathOf(instance, []);
    PathOf(k6, [instance]);
    PathOf(scaleSet, [k6] + [instance]);
    assert tail == [scaleSet] + ([k6] + [instance]);
    assert "/" + scaleSet + ("/" + k6 + ("/" + instance)) == "/" + (scaleSet + ("/" + k6 + ("/" + instance)));
    MachinePathOf(k3, k4, k5, tail, scaleSet + ("/" + k6 + ("/" + instance)));
    GroupPath(scheme, k1, sub, k2, rg, [k3, k4, k5] + tail);
    assert [k1, sub, k2, rg] + ([k3, k4, k5] + tail) == [k1, sub, k2, rg, k3, k4, k5, scaleSet, k6, instance];
    FixedParts();
    Segments(sub, rg, scaleSet, instance);
    SchemeCut(scheme, Path([k1, sub, k2, rg, k3, k4, k5, scaleSet, k6, instance]));
    VmssComesBack(node, scheme, k1, sub, k2, rg, k3, k4, k5, scaleSet, k6, instance);
  }

  lemma FixedParts()
    ensures GROUPS == "resourcegroups" && COMPUTE == "microsoft.compute"
    ensures SETS == "virtualmachinescalesets" && MACHINES == "virtualmachines"
    ensures '/' !in SETS && '/' !in MACHINES
  {
  }

  lemma Segments(a: string, b: string, c: string, d: string)
    requires forall s <- [a, b, c, d] :: s != "" && '/' !in s
    ensures IsSegment(a) && IsSegment(b) && IsSegment(c) && IsSegment(d)
  {
    assert a in [a, b, c, d] && b in [a, b, c, d] && c in [a, b, c, d] && d in [a, b, c, d];
  }

  /** The same for the three segments of a virtual machine ID. */
  lemma VmRoundTrip(node: string, scheme: string, k1: string, sub: string, k2: string, rg: string,
                    k3: string, k4: string, k5: string, name: string)
    requires Lower(scheme) == "azure:" && Lower(k1) == "subscriptions" && Lower(k2) == "resourcegroups"
    requires Lower(k3) == "providers" && Lower(k4) == "microsoft.compute" && Lower(k5) == "virtualmachines"
    requires forall s <- [sub, rg, name] :: s != "" && '/' !in s
    ensures var rest := Path([k1, sub, k2, rg, k3, k4, k5, name]);
            ExtractNodeInfo(node, scheme + "//" + rest) ==
            Info(NodeInfo(node, scheme + "//" + rest, if scheme == "azure:" then rest else scheme + "//" + rest,
                          sub, rg, Vm(name)))
  {
    hide Path, ExtractNodeInfo, Lower, TrimPrefix;
    PathOf(name, []);
    MachinePathOf(k3, k4, k5, [name], name);
    GroupPath(scheme, k1, sub, k2, rg, [k3, k4, k5] + [name]);
    assert [k1, sub, k2, rg] + ([k3, k4, k5] + [name]) == [k1, sub, k2, rg, k3, k4, k5, name];
    FixedParts();
    assert sub in [sub, rg, name] && rg in [sub, rg, name] && name in [sub, rg, name];
    SchemeCut(scheme, Path([k1, sub, k2, rg, k3, k4, k5, name]));
    VmComesBack(node, scheme, k1, sub, k2, rg, k3, k4, k5, name);
  }
}

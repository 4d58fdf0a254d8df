/**
 k8s/misc.go: taking an Azure resource ID apart with five regular expressions.

 The expressions are matched by hand. `Lit` is case-insensitive literal text (given in lower case), `Dot` is the
 unescaped `.` of "Microsoft.Compute", which matches any character except a newline, and `Seg` is `([^/]+)`. A
 `Seg` is always followed by a slash or by the end, so its greedy match is the only one.
 */
module ProviderId {
  import opened Text

  /** `End` is `$`; `Done` is the end of an expression without it (a trailing `.*` always matches and is dropped). */
  datatype Regexp = Lit(text: string, next: Regexp) | Dot(next: Regexp) | Seg(next: Regexp) | End | Done

  /** `toStart` is `^`. */
  datatype Pattern = Pattern(body: Regexp, toStart: bool)

  const GROUPS := "resourcegroups"
  const PROVIDER := "/" + "providers" + "/" + "microsoft"
  const COMPUTE := "microsoft" + "." + "compute"
  const SETS := "virtualmachinescalesets"
  const MACHINES := "virtualmachines"

  const SUBSCRIPTION := Pattern(Lit("azure:///subscriptions/", Seg(Lit("/" + GROUPS + "/", Done))), true)
  const RESOURCE_GROUP :=
    Pattern(Lit("azure:///subscriptions/", Seg(Lit("/" + GROUPS + "/", Seg(Lit("/", Done))))), true)
  const VMSS_NAME := Pattern(Lit(PROVIDER, Dot(Lit("compute/" + SETS + "/", Seg(Lit("/", Done))))), false)
  const VMSS_INSTANCE :=
    Pattern(Lit(PROVIDER, Dot(Lit("compute/" + SETS + "/", Seg(Lit("/" + MACHINES + "/", Seg(End)))))), false)
  const VM_NAME := Pattern(Lit(PROVIDER, Dot(Lit("compute/" + MACHINES + "/", Seg(End)))), false)

  /** "/microsoft.compute/virtualmachinescalesets/" */
  const VMSS_MARK := "/" + COMPUTE + "/" + (SETS + "/")

  datatype Match = NoMatch | Groups(parts: seq<string>)

  /** Length of the longest slash-free prefix. */
  function SegLen(s: string): (n: nat)
    ensures n <= |s|
    ensures '/' !in s[..n]
    ensures n < |s| ==> s[n] == '/'
  {
    if s == "" || s[0] == '/' then 0 else 1 + SegLen(s[1..])
  }

  /** Match at the very start of `s`; one group for every `Seg`. */
  function MatchHere(re: Regexp, s: string): (m: Match)
    ensures m.Groups? ==> forall p <- m.parts :: IsSegment(p)
  {
    match re
    case Done => Groups([])
    case End => if s == "" then Groups([]) else NoMatch
    case Lit(text, next) => if text <= Lower(s) then MatchHere(next, s[|text|..]) else NoMatch
    case Dot(next) => if s != "" && s[0] != '\n' then MatchHere(next, s[1..]) else NoMatch
    case Seg(next) =>
      var n := SegLen(s);
      if n == 0 then NoMatch else Prepend(s[..n], MatchHere(next, s[n..]))
  }

  function Prepend(part: string, m: Match): Match {
    match m
    case NoMatch => NoMatch
    case Groups(parts) => Groups([part] + parts)
  }

  /** FindStringSubmatch: the leftmost match. */
  function Find(p: Pattern, s: string): (m: Match)
    ensures m.Groups? ==> forall q <- m.parts :: IsSegment(q)
    decreases |s|
  {
    var here := MatchHere(p.body, s);
    if here.Groups? || p.toStart || s == "" then here else Find(p, s[1..])
  }

  datatype Machine = Vmss(scaleSet: string, instance: string) | Vm(name: string)

  datatype NodeInfo = NodeInfo(
    nodeName: string, nodeProviderId: string, providerId: string,
    subscription: string, resourceGroup: string, machine: Machine)

  datatype Extracted = Info(info: NodeInfo) | Unrecognised

  function FindOne(p: Pattern, which: nat, s: string): (r: Field)
    ensures r.Is? ==> IsSegment(r.value)
  {
    match Find(p, s)
    case NoMatch => Missing
    case Groups(parts) => if which < |parts| then Is(parts[which]) else Missing
  }

  datatype Field = Missing | Is(value: string)

  datatype Found = NotFound | Found(machine: Machine)

  function FindMachine(id: string): (r: Found)
    ensures r.Found? ==> r.machine.Vmss? == Contains(Lower(id), VMSS_MARK)
    ensures r.Found? ==> ProperMachine(r.machine)
  {
    if Contains(Lower(id), VMSS_MARK) then
      match (FindOne(VMSS_NAME, 0, id), FindOne(VMSS_INSTANCE, 1, id))
      case (Is(name), Is(instance)) => Found(Vmss(name, instance))
      case _ => NotFound
    else
      match FindOne(VM_NAME, 0, id)
      case Is(name) => Found(Vm(name))
      case Missing => NotFound
  }

  predicate ProperMachine(m: Machine) {
    match m
    case Vmss(scaleSet, instance) => IsSegment(scaleSet) && IsSegment(instance)
    case Vm(name) => IsSegment(name)
  }

  /** ExtractNodeInfo: whatever it accepts has non-empty, slash-free fields. */
  function ExtractNodeInfo(nodeName: string, id: string): (r: Extracted)
    ensures r.Info? ==>
              && r.info.nodeName == nodeName && r.info.nodeProviderId == id
              && (id == r.info.providerId || id == "azure://" + r.info.providerId)
              && IsSegment(r.info.subscription) && IsSegment(r.info.resourceGroup)
              && ProperMachine(r.info.machine)
              && r.info.machine.Vmss? == Contains(Lower(id), VMSS_MARK)
  {
    match (FindOne(SUBSCRIPTION, 0, id), FindOne(RESOURCE_GROUP, 1, id), FindMachine(id))
    case (Is(sub), Is(rg), Found(machine)) =>
      Info(NodeInfo(nodeName, id, TrimPrefix(id, "azure://"), sub, rg, machine))
    case _ => Unrecognised
  }

  predicate IsSegment(s: string) {
    s != "" && '/' !in s
  }

  /** The node is a machine of Azure: its ID has the Azure scheme, in any casing. */
  predicate IsAzure(id: string) {
    "azure://" <= Lower(id)
  }

  lemma AzureByScheme(id: string)
    ensures IsAzure(id) <==> |id| >= 8 && EqualFold(id[..8], "azure://")
  {
    assert Lower("azure://") == "azure://";
    if |id| >= 8 {
      LowerSplit(id, 8);
    }
  }
}

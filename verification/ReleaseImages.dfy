/** Which images of a release a platform does not need: those with another platform's token in their name. */
module ReleaseImages {
  import opened Passes
  import opened NameOrder

  datatype ImageTag = ImageTag(name: string, from: string)

  // ---- Platforms and tokens ----

  datatype Platform = NoPlatform | BareMetal | AWS | AzureCloud | GCP | IBM | LibvirtHost | NutanixHost | OpenStackCloud
                    | OvirtHost | PowerVirtual | VSphereHost | Unknown

  function PlatformOf(infrastructure: string): Platform {
    match infrastructure
    case "None" => NoPlatform
    case "BareMetal" => BareMetal
    case "AWS" => AWS
    case "Azure" => AzureCloud
    case "GCP" => GCP
    case "IBMCloud" => IBM
    case "Libvirt" => LibvirtHost
    case "Nutanix" => NutanixHost
    case "OpenStack" => OpenStackCloud
    case "oVirt" => OvirtHost
    case "PowerVS" => PowerVirtual
    case "VSphere" => VSphereHost
    case _ => Unknown
  }

  datatype Token = Aws | Azure | Gcp | Ibm | IbmCloud | Libvirt | Nutanix | OpenStack | Ovirt | PowerVs | VSphere

  function Text(token: Token): string {
    match token
    case Aws => "aws-"
    case Azure => "azure-"
    case Gcp => "gcp-"
    case Ibm => "ibm-"
    case IbmCloud => "ibmcloud-"
    case Libvirt => "libvirt-"
    case Nutanix => "nutanix-"
    case OpenStack => "openstack-"
    case Ovirt => "ovirt-"
    case PowerVs => "powervs-"
    case VSphere => "vsphere-"
  }

  /** The alternatives of the pattern of a platform; an unknown one has no pattern. */
  function Pattern(platform: Platform): Option<set<Token>> {
    match platform
    case NoPlatform => Some({Aws, Azure, Gcp, Ibm, IbmCloud, Libvirt, Nutanix, OpenStack, Ovirt, PowerVs, VSphere})
    case BareMetal => Some({Aws, Azure, Gcp, Ibm, IbmCloud, Libvirt, Nutanix, OpenStack, Ovirt, PowerVs, VSphere})
    case AWS => Some({Azure, Gcp, Ibm, IbmCloud, Libvirt, Nutanix, OpenStack, Ovirt, PowerVs, VSphere})
    case AzureCloud => Some({Aws, Gcp, Ibm, IbmCloud, Libvirt, Nutanix, OpenStack, Ovirt, PowerVs, VSphere})
    case GCP => Some({Aws, Azure, Ibm, IbmCloud, Libvirt, Nutanix, OpenStack, Ovirt, PowerVs, VSphere})
    case IBM => Some({Aws, Azure, Gcp, Ibm, Libvirt, Nutanix, OpenStack, Ovirt, PowerVs, VSphere})
    case LibvirtHost => Some({Aws, Azure, Gcp, Ibm, IbmCloud, Nutanix, OpenStack, Ovirt, PowerVs, VSphere})
    case NutanixHost => Some({Aws, Azure, Gcp, Ibm, IbmCloud, Libvirt, OpenStack, Ovirt, PowerVs, VSphere})
    case OpenStackCloud => Some({Aws, Azure, Gcp, Ibm, IbmCloud, Libvirt, Nutanix, Ovirt, PowerVs, VSphere})
    case OvirtHost => Some({Aws, Azure, Gcp, Ibm, IbmCloud, Libvirt, Nutanix, OpenStack, PowerVs, VSphere})
    case PowerVirtual => Some({Aws, Azure, Gcp, Ibm, IbmCloud, Libvirt, Nutanix, OpenStack, Ovirt, VSphere})
    case VSphereHost => Some({Aws, Azure, Gcp, Ibm, IbmCloud, Libvirt, Nutanix, OpenStack, Ovirt, PowerVs})
    case Unknown => None
  }

  // ---- Matching ----

  /** The pattern `token` matches from some position of the name on. */
  predicate Contains(name: string, token: string) {
    token <= name || (name != "" && Contains(name[1..], token))
  }

  predicate MatchString(tokens: set<Token>, name: string) {
    exists token :: token in tokens && Contains(name, Text(token))
  }

  lemma {:induction false} ContainsAnywhere(name: string, token: string)
    ensures Contains(name, token) <==> exists a: string, b: string :: name == a + token + b
  {
    forall a: string, b: string | name == a + token + b ensures |token| <= |name| {
    }
    if token <= name {
      assert name == "" + token + name[|token|..];
    } else if name != "" {
      ContainsAnywhere(name[1..], token);
      if a: string, b: string :| name[1..] == a + token + b {
        assert name == ([name[0]] + a) + token + b;
      }
      if a: string, b: string :| name == a + token + b {
        assert a != "";
        assert name[1..] == a[1..] + token + b;
      }
    }
  }

  // ---- Filtering ----

  predicate Needed(item: ImageTag, platform: Platform) {
    Pattern(platform).Some? ==> !MatchString(Pattern(platform).value, item.name)
  }

  function NeededBy(platform: Platform): ImageTag -> bool {
    (item: ImageTag) => Needed(item, platform)
  }

  function Filter(images: seq<ImageTag>, keep: ImageTag -> bool): seq<ImageTag> {
    if images == [] then []
    else
      var last := images[|images| - 1];
      Filter(images[..|images| - 1], keep) + if keep(last) then [last] else []
  }

  function Kept(images: seq<ImageTag>, platform: Platform): seq<ImageTag> {
    Filter(images, NeededBy(platform))
  }

  method FilterReleaseImages(images: seq<ImageTag>, infrastructure: string) returns (filtered: seq<ImageTag>)
    ensures filtered == Kept(images, PlatformOf(infrastructure))
    ensures forall item :: item in filtered <==> item in images && !Marked(infrastructure, item.name)
  {
    UnmarkedAreKept(images, infrastructure);
    var platform := PlatformOf(infrastructure);
    var pattern := Pattern(platform);
    if pattern.None? {
      FilterNothing(images, NeededBy(platform));
      return images;
    }
    filtered := [];
    ghost var keep := NeededBy(platform);
    for i := 0 to |images|
      invariant filtered == Filter(images[..i], keep)
    {
      assert images[..i + 1][..i] == images[..i];
      if !MatchString(pattern.value, images[i].name) {
        filtered := filtered + [images[i]];
      }
    }
    assert images[..|images|] == images;
  }

  lemma {:induction false} FilterNothing(images: seq<ImageTag>, keep: ImageTag -> bool)
    requires forall item :: item in images ==> keep(item)
    ensures Filter(images, keep) == images
  {
    if images != [] {
      FilterNothing(images[..|images| - 1], keep);
      assert images[|images| - 1] in images;
    }
  }

  lemma {:induction false} FilterSplits(images: seq<ImageTag>, keep: ImageTag -> bool, i: nat)
    requires i < |images|
    ensures var middle := if keep(images[i]) then [images[i]] else [];
            Filter(images, keep) == Filter(images[..i], keep) + middle + Filter(images[i + 1..], keep)
    decreases |images|
  {
    var front := images[..|images| - 1];
    if i < |front| {
      FilterSplits(front, keep, i);
      assert front[..i] == images[..i];
      var rest := images[i + 1..];
      assert rest[..|rest| - 1] == front[i + 1..];
    } else {
      assert images[i + 1..] == [];
    }
  }

  lemma {:induction false} FilterMembers(images: seq<ImageTag>, keep: ImageTag -> bool)
    ensures forall item :: item in Filter(images, keep) <==> item in images && keep(item)
  {
    if images != [] {
      FilterMembers(images[..|images| - 1], keep);
      assert images == images[..|images| - 1] + [images[|images| - 1]];
    }
  }

  lemma {:induction false} FilterBoth(images: seq<ImageTag>, a: ImageTag -> bool, b: ImageTag -> bool,
                                      c: ImageTag -> bool)
    requires forall item :: item in images ==> (c(item) <==> a(item) && b(item))
    ensures Filter(Filter(images, a), b) == Filter(images, c)
  {
    if images != [] {
      var front, last := images[..|images| - 1], images[|images| - 1];
      FilterBoth(front, a, b, c);
      assert last in images;
      var before := Filter(front, a);
      assert (before + [last])[..|before|] == before && before + [] == before;
    }
  }

  lemma FilterOne(item: ImageTag, a: ImageTag -> bool, b: ImageTag -> bool, c: ImageTag -> bool)
    requires a(item) && b(item) && !c(item)
    ensures Filter(Filter([item], a), b) != Filter([item], c)
  {
    FilterNothing([item], a);
    FilterNothing([item], b);
    FilterMembers([item], c);
  }

  // ---- By the texts themselves ----

  /** The texts that are searched for. */
  const TEXTS: set<string> := {"aws-", "azure-", "gcp-", "ibm-", "ibmcloud-", "libvirt-", "nutanix-", "openstack-",
                               "ovirt-", "powervs-", "vsphere-"}

  /** The infrastructure types that keep images of their own. */
  const HOSTS: set<string> := {"AWS", "Azure", "GCP", "IBMCloud", "Libvirt", "Nutanix", "OpenStack", "oVirt", "PowerVS",
                               "VSphere"}

  /** On such an infrastructure this text marks an image that is not needed: any of them on None and BareMetal, any but
      the type itself in small letters and a dash on the others, and none on a type that is not listed. */
  predicate Unneeded(infrastructure: string, text: string) {
    && text in TEXTS
    && (infrastructure == "None" || infrastructure == "BareMetal"
        || (infrastructure in HOSTS && text != ToLower(infrastructure) + "-"))
  }

  lemma HostsAreNamed(infrastructure: string)
    ensures Named(PlatformOf(infrastructure)) <==> infrastructure in HOSTS
  {
  }

  /** The infrastructure type of a named platform. */
  function TypeOf(platform: Platform): string
    requires Named(platform)
  {
    match platform
    case AWS => "AWS"
    case AzureCloud => "Azure"
    case GCP => "GCP"
    case IBM => "IBMCloud"
    case LibvirtHost => "Libvirt"
    case NutanixHost => "Nutanix"
    case OpenStackCloud => "OpenStack"
    case OvirtHost => "oVirt"
    case PowerVirtual => "PowerVS"
    case VSphereHost => "VSphere"
  }

  lemma TypesAre(infrastructure: string)
    requires Named(PlatformOf(infrastructure))
    ensures TypeOf(PlatformOf(infrastructure)) == infrastructure
  {
  }

  lemma SmallLetters(platform: Platform)
    requires Named(platform)
    ensures ToLower(TypeOf(platform)) + "-" == Text(Own(platform))
  {
    var small, text := ToLower(TypeOf(platform)) + "-", Text(Own(platform));
    assert |small| == |text|;
    assert forall i :: 0 <= i < |text| ==> small[i] == text[i];
  }

  /** The one token that a named platform keeps is called like it. */
  lemma OwnIsCalledLikeIt(infrastructure: string)
    requires infrastructure in HOSTS
    ensures Named(PlatformOf(infrastructure))
    ensures Text(Own(PlatformOf(infrastructure))) == ToLower(infrastructure) + "-"
  {
    HostsAreNamed(infrastructure);
    TypesAre(infrastructure);
    SmallLetters(PlatformOf(infrastructure));
  }

  lemma TextsAreApart(token: Token, other: Token)
    ensures Text(token) in TEXTS && (Text(token) == Text(other) ==> token == other)
  {
  }

  lemma EveryTextIsAToken(text: string)
    requires text in TEXTS
    ensures exists token :: Text(token) == text
  {
    assert Text(Aws) == "aws-" && Text(Azure) == "azure-" && Text(Gcp) == "gcp-" && Text(Ibm) == "ibm-";
    assert Text(IbmCloud) == "ibmcloud-" && Text(Libvirt) == "libvirt-" && Text(Nutanix) == "nutanix-";
    assert Text(OpenStack) == "openstack-" && Text(Ovirt) == "ovirt-" && Text(PowerVs) == "powervs-";
    assert Text(VSphere) == "vsphere-";
  }

  lemma ListedMeans(infrastructure: string, token: Token)
    ensures Listed(PlatformOf(infrastructure), token) <==> Unneeded(infrastructure, Text(token))
  {
    PatternsAre(PlatformOf(infrastructure), token);
    HostsAreNamed(infrastructure);
    TextsAreApart(token, token);
    if infrastructure in HOSTS {
      OwnIsCalledLikeIt(infrastructure);
      TextsAreApart(token, Own(PlatformOf(infrastructure)));
    }
  }

  /** One of the texts that are not needed occurs somewhere in the name. */
  ghost predicate Marked(infrastructure: string, name: string) {
    exists text, a: string, b: string :: Unneeded(infrastructure, text) && name == a + text + b
  }

  lemma NeededIsUnmarked(item: ImageTag, infrastructure: string)
    ensures Needed(item, PlatformOf(infrastructure)) <==> !Marked(infrastructure, item.name)
  {
    var platform := PlatformOf(infrastructure);
    NeededMeans(item, platform);
    forall token
      ensures Listed(platform, token) <==> Unneeded(infrastructure, Text(token))
      ensures Contains(item.name, Text(token)) <==> exists a: string, b: string :: item.name == a + Text(token) + b
    {
      ListedMeans(infrastructure, token);
      ContainsAnywhere(item.name, Text(token));
    }
    if text, a: string, b: string :| Unneeded(infrastructure, text) && item.name == a + text + b {
      EveryTextIsAToken(text);
      var token :| Text(token) == text;
      assert item.name == a + Text(token) + b;
    }
  }

  /** Image `i` stays, between those kept before it and those kept behind it, exactly when no text that is not needed on
      the infrastructure occurs anywhere in its name. */
  lemma KeptInOrder(images: seq<ImageTag>, infrastructure: string, i: nat)
    requires i < |images|
    ensures var platform := PlatformOf(infrastructure);
            var middle := if Marked(infrastructure, images[i].name) then [] else [images[i]];
            Kept(images, platform) == Kept(images[..i], platform) + middle + Kept(images[i + 1..], platform)
  {
    FilterSplits(images, NeededBy(PlatformOf(infrastructure)), i);
    NeededIsUnmarked(images[i], infrastructure);
  }

  lemma UnmarkedAreKept(images: seq<ImageTag>, infrastructure: string)
    ensures forall item :: item in Kept(images, PlatformOf(infrastructure)) <==>
              item in images && !Marked(infrastructure, item.name)
  {
    FilterMembers(images, NeededBy(PlatformOf(infrastructure)));
    forall item: ImageTag ensures Needed(item, PlatformOf(infrastructure)) <==> !Marked(infrastructure, item.name) {
      NeededIsUnmarked(item, infrastructure);
    }
  }

  /** Filtering again for the same platform changes nothing. */
  lemma FilterTwice(images: seq<ImageTag>, platform: Platform)
    ensures Kept(Kept(images, platform), platform) == Kept(images, platform)
  {
    FilterMembers(images, NeededBy(platform));
    FilterNothing(Kept(images, platform), NeededBy(platform));
  }

  // ---- Two platforms ----

  ghost predicate Listed(platform: Platform, token: Token) {
    Pattern(platform).Some? && token in Pattern(platform).value
  }

  predicate Named(platform: Platform) {
    !platform.NoPlatform? && !platform.BareMetal? && !platform.Unknown?
  }

  /** The one token that a named platform keeps. */
  function Own(platform: Platform): Token
    requires Named(platform)
  {
    match platform
    case AWS => Aws
    case AzureCloud => Azure
    case GCP => Gcp
    case IBM => IbmCloud
    case LibvirtHost => Libvirt
    case NutanixHost => Nutanix
    case OpenStackCloud => OpenStack
    case OvirtHost => Ovirt
    case PowerVirtual => PowerVs
    case VSphereHost => VSphere
  }

  /** A named platform filters all tokens but its own; the others filter all or none. */
  lemma PatternsAre(platform: Platform, token: Token)
    ensures Listed(platform, token) <==> !platform.Unknown? && (Named(platform) ==> token != Own(platform))
  {
  }

  /** The two platforms together list every token. */
  ghost predicate Exhausts(a: Platform, b: Platform) {
    forall token :: Listed(a, token) || Listed(b, token)
  }

  lemma ExhaustsMeans(a: Platform, b: Platform)
    ensures Exhausts(a, b) <==>
              a.NoPlatform? || a.BareMetal? || b.NoPlatform? || b.BareMetal? || (Named(a) && Named(b) && a != b)
  {
    forall token ensures Listed(a, token) <==> !a.Unknown? && (Named(a) ==> token != Own(a)) {
      PatternsAre(a, token);
    }
    forall token ensures Listed(b, token) <==> !b.Unknown? && (Named(b) ==> token != Own(b)) {
      PatternsAre(b, token);
    }
    if Named(a) {
      assert !Listed(a, Own(a));
    }
    if Named(b) {
      assert !Listed(b, Own(b));
    }
    assert a.Unknown? ==> !Listed(a, Aws);
    assert b.Unknown? ==> !Listed(b, Aws);
  }

  /** The main theorem on filtering. Filtering for one type and then for another equals the filter of type None, on
      every list, exactly when one of them is None or BareMetal, or both are named platforms and differ. */
  lemma TwoPlatformsAreNone(a: Platform, b: Platform)
    ensures (forall images :: Kept(Kept(images, a), b) == Kept(images, NoPlatform)) <==>
              a.NoPlatform? || a.BareMetal? || b.NoPlatform? || b.BareMetal? || (Named(a) && Named(b) && a != b)
  {
    ExhaustsMeans(a, b);
    if Exhausts(a, b) {
      forall images ensures Kept(Kept(images, a), b) == Kept(images, NoPlatform) {
        forall item | item in images ensures Needed(item, NoPlatform) <==> Needed(item, a) && Needed(item, b) {
          TokensExhausted(item, a, b);
        }
        FilterBoth(images, NeededBy(a), NeededBy(b), NeededBy(NoPlatform));
      }
    } else {
      var token :| !Listed(a, token) && !Listed(b, token);
      SurvivesBoth(token, a, b);
    }
  }

  lemma TokensExhausted(item: ImageTag, a: Platform, b: Platform)
    requires Exhausts(a, b)
    ensures Needed(item, NoPlatform) <==> Needed(item, a) && Needed(item, b)
  {
    forall token ensures Listed(NoPlatform, token) {
      PatternsAre(NoPlatform, token);
    }
    NeededMeans(item, a);
    NeededMeans(item, b);
    NeededMeans(item, NoPlatform);
  }

  lemma NeededMeans(item: ImageTag, platform: Platform)
    ensures Needed(item, platform) <==> forall token :: Listed(platform, token) ==> !Contains(item.name, Text(token))
  {
  }

  /** An image that is named after a token survives every filter that does not list the token. */
  lemma SurvivesBoth(token: Token, a: Platform, b: Platform)
    requires !Listed(a, token) && !Listed(b, token)
    ensures var images := [ImageTag(Text(token), "")]; Kept(Kept(images, a), b) != Kept(images, NoPlatform)
  {
    var item := ImageTag(Text(token), "");
    OnlyItself(token);
    NeededMeans(item, a);
    NeededMeans(item, b);
    NeededMeans(item, NoPlatform);
    PatternsAre(NoPlatform, token);
    FilterOne(item, NeededBy(a), NeededBy(b), NeededBy(NoPlatform));
  }

  /** No token occurs in another one. */
  lemma OnlyItself(token: Token)
    ensures forall other :: Contains(Text(token), Text(other)) <==> other == token
  {
    forall other ensures Contains(Text(token), Text(other)) <==> other == token {
      TextIsDashedOnce(token);
      TextIsDashedOnce(other);
      if Contains(Text(token), Text(other)) {
        SuffixOnly(Text(token), Text(other));
        if token != other { EndsDiffer(token, other); }
      }
    }
  }

  lemma TextIsDashedOnce(token: Token)
    ensures DashedOnce(Text(token)) && |Text(token)| > 3
  {
  }

  /** The last letters tell the tokens apart, and the first one where that fails. */
  lemma EndsDiffer(token: Token, other: Token)
    requires token != other && |Text(other)| <= |Text(token)|
    ensures Text(token)[|Text(token)| - |Text(other)|..] != Text(other)
  {
    var x, y := Text(token), Text(other);
    assert x[|x| - 2] != y[|y| - 2] || x[|x| - 3] != y[|y| - 3] || x[|x| - |y|] != y[0];
  }

  /** A dash at the end and nowhere else. */
  ghost predicate DashedOnce(text: string) {
    text != "" && forall i :: 0 <= i < |text| ==> (text[i] == '-' <==> i == |text| - 1)
  }

  lemma {:induction false} SuffixOnly(x: string, y: string)
    requires DashedOnce(x) && DashedOnce(y) && Contains(x, y)
    ensures |y| <= |x| && x[|x| - |y|..] == y
  {
    if y <= x {
      assert x[|y| - 1] == y[|y| - 1];
    } else {
      assert x[1..] != "";
      SuffixOnly(x[1..], y);
    }
  }
}

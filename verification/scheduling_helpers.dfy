/**
 * Scheduling helpers of the core/v1 API: the priority of a pod and the
 * failure-zone key of a node.
 */
module SchedulingHelpers {
  import opened Wrappers
  import opened GoInt

  /** The part of a pod's spec that matters here: `Priority *int32`. */
  datatype PodSpec = PodSpec(priority: Option<int32>)
  datatype Pod = Pod(spec: PodSpec)

  /** The static default a pod without a resolved priority gets. */
  const DefaultPriority: int32 := 0

  /** The priority of a pod: its own value when set, the static default otherwise. */
  function PodPriority(pod: Pod): (p: int32)
    ensures pod.spec.priority.Some? ==> p == pod.spec.priority.value
    ensures pod.spec.priority.None? ==> p == DefaultPriority
  {
    match pod.spec.priority
    case Some(v) => v
    case None => DefaultPriority
  }

  /** A node's labels; `None` is a nil map, which differs from an empty one. */
  type Labels = map<string, string>
  datatype Node = Node(labels: Option<Labels>)

  // Well-known topology label keys of the core/v1 API.
  const LabelZoneFailureDomain: string := "failure-domain.beta.kubernetes.io/zone"
  const LabelZoneFailureDomainStable: string := "topology.kubernetes.io/zone"
  const LabelZoneRegion: string := "failure-domain.beta.kubernetes.io/region"
  const LabelZoneRegionStable: string := "topology.kubernetes.io/region"

  /**
   * Looks `preferred` up and, only when that key is absent, `fallback`;
   * Go's map index yields "" for a missing key. A present preferred key
   * wins even when its value is "".
   */
  function LabelWithFallback(labels: Labels, preferred: string, fallback: string): (v: string)
    ensures preferred in labels ==> v == labels[preferred]
    ensures preferred !in labels && fallback in labels ==> v == labels[fallback]
    ensures preferred !in labels && fallback !in labels ==> v == ""
  {
    if preferred in labels then labels[preferred]
    else if fallback in labels then labels[fallback]
    else ""
  }

  function ZoneOf(labels: Labels): string {
    LabelWithFallback(labels, LabelZoneFailureDomain, LabelZoneFailureDomainStable)
  }

  function RegionOf(labels: Labels): string {
    LabelWithFallback(labels, LabelZoneRegion, LabelZoneRegionStable)
  }

  /** Placed between region and zone; its NUL keeps a colon in a region from confusing the split. */
  const ZoneKeySeparator: string := ":\0:"

  /** The key of a (region, zone) pair: "" when both are empty. */
  function JoinZoneKey(region: string, zone: string): string {
    if region == "" && zone == "" then "" else region + ZoneKeySeparator + zone
  }

  /** The failure-zone key of a node, "" for a node without zone information. */
  function GetZoneKey(node: Node): (k: string)
    ensures node.labels.None? ==> k == ""
    ensures node.labels.Some? ==>
      k == JoinZoneKey(RegionOf(node.labels.value), ZoneOf(node.labels.value))
    ensures k == "" <==>
      node.labels.None? || (RegionOf(node.labels.value) == "" && ZoneOf(node.labels.value) == "")
    ensures k != "" ==>
      k == RegionOf(node.labels.value) + ZoneKeySeparator + ZoneOf(node.labels.value)
  {
    match node.labels
    case None => ""
    case Some(labels) => JoinZoneKey(RegionOf(labels), ZoneOf(labels))
  }

  /** The separator starts at position `j` of `s`. */
  predicate SeparatorAt(s: string, j: nat) {
    j + |ZoneKeySeparator| <= |s| && s[j..j + |ZoneKeySeparator|] == ZoneKeySeparator
  }

  /** The first position at or after `i` where the separator starts. */
  function FindSeparatorFrom(s: string, i: nat): (r: Option<nat>)
    requires i <= |s|
    ensures r.Some? ==> i <= r.value && SeparatorAt(s, r.value)
    ensures r.Some? ==> forall j: nat :: i <= j < r.value ==> !SeparatorAt(s, j)
    ensures r.None? ==> forall j: nat :: i <= j ==> !SeparatorAt(s, j)
    decreases |s| - i
  {
    if i + |ZoneKeySeparator| > |s| then None
    else if SeparatorAt(s, i) then Some(i)
    else FindSeparatorFrom(s, i + 1)
  }

  /** Splits a non-empty key at the first separator into (region, zone). */
  function SplitZoneKey(k: string): Option<(string, string)> {
    match FindSeparatorFrom(k, 0)
    case None => None
    case Some(i) => Some((k[..i], k[i + |ZoneKeySeparator|..]))
  }

  /** A separator cannot start inside a NUL-free region: its NUL would fall in the region or on the inserted colon. */
  lemma NoSeparatorInsideRegion(region: string, zone: string, j: nat)
    requires '\0' !in region && j < |region|
    ensures !SeparatorAt(region + ZoneKeySeparator + zone, j)
  {
    var k := region + ZoneKeySeparator + zone;
    if j + 1 < |region| {
      assert k[j + 1] == region[j + 1];
    } else {
      assert k[j + 1] == ZoneKeySeparator[0];
    }
    assert k[j + 1] != '\0';
    assert j + |ZoneKeySeparator| <= |k| ==> k[j..j + |ZoneKeySeparator|][1] == k[j + 1];
  }

  /**
   * When the region holds no NUL, the first separator in the joined key is
   * the one that was inserted, so splitting recovers both parts (the zone
   * may hold anything).
   */
  lemma SplitJoinRoundTrip(region: string, zone: string)
    requires '\0' !in region
    ensures SplitZoneKey(region + ZoneKeySeparator + zone) == Some((region, zone))
  {
    var k := region + ZoneKeySeparator + zone;
    var n := |region|;
    assert k[n..n + 3] == ZoneKeySeparator;
    assert SeparatorAt(k, n);
    var r := FindSeparatorFrom(k, 0);
    assert r.Some?;
    var v := r.value;
    forall j: nat | j < n ensures !SeparatorAt(k, j) {
      NoSeparatorInsideRegion(region, zone, j);
    }
    assert v == n;
    assert k[..n] == region;
    assert k[n + 3..] == zone;
  }

  /** Distinct NUL-free (region, zone) pairs give distinct keys, "" included. */
  lemma {:induction false} JoinZoneKeyInjective(r1: string, z1: string, r2: string, z2: string)
    requires '\0' !in r1 && '\0' !in r2
    requires JoinZoneKey(r1, z1) == JoinZoneKey(r2, z2)
    ensures r1 == r2 && z1 == z2
  {
    if (r1 == "" && z1 == "") != (r2 == "" && z2 == "") {
      assert false;
    } else {
      SplitJoinRoundTrip(r1, z1);
      SplitJoinRoundTrip(r2, z2);
    }
  }

  /** Two labelled nodes share a zone key only when they share region and zone. */
  lemma GetZoneKeyIdentifiesZone(n1: Node, n2: Node)
    requires n1.labels.Some? && n2.labels.Some?
    requires '\0' !in RegionOf(n1.labels.value) && '\0' !in RegionOf(n2.labels.value)
    requires GetZoneKey(n1) == GetZoneKey(n2)
    ensures RegionOf(n1.labels.value) == RegionOf(n2.labels.value)
    ensures ZoneOf(n1.labels.value) == ZoneOf(n2.labels.value)
  {
    JoinZoneKeyInjective(RegionOf(n1.labels.value), ZoneOf(n1.labels.value),
                         RegionOf(n2.labels.value), ZoneOf(n2.labels.value));
  }

  /** A non-empty key always contains the separator and splits back into region and zone. */
  lemma GetZoneKeySplits(node: Node)
    requires node.labels.Some? && '\0' !in RegionOf(node.labels.value)
    requires GetZoneKey(node) != ""
    ensures SplitZoneKey(GetZoneKey(node)) == Some((RegionOf(node.labels.value), ZoneOf(node.labels.value)))
  {
    SplitJoinRoundTrip(RegionOf(node.labels.value), ZoneOf(node.labels.value));
  }

  /** The beta labels win over the stable ones even when their value is empty. */
  lemma BetaLabelsWin(labels: Labels)
    requires LabelZoneFailureDomain in labels && LabelZoneRegion in labels
    requires labels[LabelZoneFailureDomain] == "" && labels[LabelZoneRegion] == ""
    ensures GetZoneKey(Node(Some(labels))) == ""
  {
  }
}

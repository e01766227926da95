/**
 * The inventory tool: scans the configured namespaces, turns every workload
 * and Service it finds into a service-graph entry, links each Service to the
 * workloads its selector picks, and records which cloud the nodes run on.
 *
 * The Kubernetes list calls are not made here: what each call returned (or
 * that it failed) is a parameter, and so is the text Python prints for a
 * node's label dictionary. Replica counts, containers, ports, annotations,
 * resource totals and creation times are not part of the entries modelled.
 */
module Inventory {
  import opened Wrappers
  import opened Strings

  // ---------------------------------------------------------------------------
  // Service-graph entries

  /** The `type` of an entry. */
  datatype ServiceKind = Deployment | StatefulSet | DaemonSet | Service
  {
    function TypeName(): string {
      match this
      case Deployment => "deployment"
      case StatefulSet => "statefulset"
      case DaemonSet => "daemonset"
      case Service => "service"
    }

    /** The types a Service selector can pick: deployment, statefulset, daemonset. */
    predicate IsWorkload() {
      !Service?
    }

    /** The position of the kind in the order namespaces are scanned. */
    function Rank(): nat {
      match this
      case Deployment => 0
      case StatefulSet => 1
      case DaemonSet => 2
      case Service => 3
    }
  }

  /**
   * One entry of the service graph. `selector` holds the Service's selector
   * items in dictionary order; workloads have none.
   */
  datatype ServiceEntry = ServiceEntry(
    id: string,
    name: string,
    namespace: string,
    kind: ServiceKind,
    labels: map<string, string>,
    selector: seq<(string, string)>,
    critical: bool)

  /** An edge of the graph: a Service whose selector matches a workload. */
  datatype Relationship = Relationship(
    fromId: string,
    toId: string,
    relType: string,
    namespace: string)

  // ---------------------------------------------------------------------------
  // Critical services

  const CriticalKeywords: seq<string> :=
    ["redis", "mysql", "postgres", "database", "cache", "frontend", "api"]

  /** `any(k in s for k in keys)` */
  function ContainsAny(s: string, keys: seq<string>): (r: bool)
    ensures r <==> exists k :: 0 <= k < |keys| && Contains(s, keys[k])
  {
    if keys == [] then false
    else Contains(s, keys[0]) || ContainsAny(s, keys[1..])
  }

  /**
   * A service is critical when its lower-cased name contains one of the seven
   * keywords; the namespace plays no part.
   */
  function IsCriticalService(name: string, namespace: string): (r: bool)
    ensures r <==> exists k :: 0 <= k < |CriticalKeywords| && Contains(Lower(name), CriticalKeywords[k])
  {
    ContainsAny(Lower(name), CriticalKeywords)
  }

  /** A critical name stays critical inside a longer name, in any namespace. */
  lemma CriticalUnderExtension(p: string, name: string, q: string, namespace: string, other: string)
    requires IsCriticalService(name, namespace)
    ensures IsCriticalService(p + name + q, other)
  {
    var k :| 0 <= k < |CriticalKeywords| && Contains(Lower(name), CriticalKeywords[k]);
    LowerAppend(p + name, q);
    LowerAppend(p, name);
    ContainsExtended(Lower(p), Lower(name), Lower(q), CriticalKeywords[k]);
    assert Contains(Lower(p + name + q), CriticalKeywords[k]);
  }

  /** The test ignores the case of the name. */
  lemma CriticalIgnoresCase(name: string, namespace: string)
    ensures IsCriticalService(Lower(name), namespace) == IsCriticalService(name, namespace)
  {
    assert Lower(Lower(name)) == Lower(name);
  }

  // ---------------------------------------------------------------------------
  // Selector matching

  /** Every selector key is a label of the workload, with the same value. */
  predicate Matches(labels: map<string, string>, selector: seq<(string, string)>) {
    forall k :: 0 <= k < |selector| ==> selector[k].0 in labels && labels[selector[k].0] == selector[k].1
  }

  /** Checks the selector items in order and stops at the first mismatch. */
  method LabelsMatchSelector(labels: map<string, string>, selector: seq<(string, string)>) returns (b: bool)
    ensures b <==> Matches(labels, selector)
  {
    var k := 0;
    while k < |selector|
      invariant 0 <= k <= |selector|
      invariant Matches(labels, selector[..k])
    {
      var (key, value) := selector[k];
      if key !in labels || labels[key] != value {
        return false;
      }
      k := k + 1;
    }
    assert selector[..k] == selector;
    return true;
  }

  /** The empty selector matches every workload. */
  lemma EmptySelectorMatchesAll(labels: map<string, string>)
    ensures Matches(labels, [])
  {
  }

  // ---------------------------------------------------------------------------
  // Relationships

  /** `source` is a Service with a non-empty selector that picks `target`. */
  predicate Selects(source: ServiceEntry, target: ServiceEntry) {
    && source.kind == Service
    && |source.selector| > 0
    && target.kind.IsWorkload()
    && target.namespace == source.namespace
    && Matches(target.labels, source.selector)
  }

  function Link(source: ServiceEntry, target: ServiceEntry): Relationship {
    Relationship(source.id, target.id, "selector_match", source.namespace)
  }

  /** The edges `source` contributes, scanning the first `n` entries as targets. */
  function RelationshipsFrom(source: ServiceEntry, services: seq<ServiceEntry>, n: nat): seq<Relationship>
    requires n <= |services|
  {
    if n == 0 then []
    else
      RelationshipsFrom(source, services, n - 1)
        + (if Selects(source, services[n - 1]) then [Link(source, services[n - 1])] else [])
  }

  /** At most one edge per scanned target, each from `source`, of type `selector_match`, in its namespace. */
  lemma {:induction false} RelationshipsFromShape(source: ServiceEntry, services: seq<ServiceEntry>, n: nat)
    requires n <= |services|
    ensures var r := RelationshipsFrom(source, services, n);
      && |r| <= n
      && forall k :: 0 <= k < |r| ==>
           r[k].fromId == source.id && r[k].relType == "selector_match" && r[k].namespace == source.namespace
  {
    if n > 0 {
      RelationshipsFromShape(source, services, n - 1);
    }
  }

  /** The edges of the first `n` sources, source after source. */
  function Relationships(services: seq<ServiceEntry>, n: nat): seq<Relationship>
    requires n <= |services|
  {
    if n == 0 then []
    else Relationships(services, n - 1) + RelationshipsFrom(services[n - 1], services, |services|)
  }

  /** An entry that is not a Service with a selector contributes no edge. */
  lemma {:induction false} NonSelectorEmitsNothing(source: ServiceEntry, services: seq<ServiceEntry>, n: nat)
    requires n <= |services|
    requires source.kind != Service || |source.selector| == 0
    ensures RelationshipsFrom(source, services, n) == []
  {
    if n > 0 {
      NonSelectorEmitsNothing(source, services, n - 1);
    }
  }

  lemma {:induction false} RelationshipsFromMembers(source: ServiceEntry, services: seq<ServiceEntry>, n: nat, rel: Relationship)
    requires n <= |services|
    ensures rel in RelationshipsFrom(source, services, n) <==>
      exists j :: 0 <= j < n && Selects(source, services[j]) && rel == Link(source, services[j])
  {
    if n > 0 {
      RelationshipsFromMembers(source, services, n - 1, rel);
    }
  }

  /**
   * An edge is emitted exactly when some Service among the entries selects some
   * workload among them: same namespace, every selector item among its labels.
   */
  lemma {:induction false} RelationshipsMembers(services: seq<ServiceEntry>, n: nat, rel: Relationship)
    requires n <= |services|
    ensures rel in Relationships(services, n) <==>
      exists i, j :: 0 <= i < n && 0 <= j < |services| && Selects(services[i], services[j])
        && rel == Link(services[i], services[j])
  {
    if n > 0 {
      var prev := Relationships(services, n - 1);
      var last := RelationshipsFrom(services[n - 1], services, |services|);
      assert Relationships(services, n) == prev + last;
      RelationshipsMembers(services, n - 1, rel);
      RelationshipsFromMembers(services[n - 1], services, |services|, rel);
      if rel in prev {
        var i, j :| 0 <= i < n - 1 && 0 <= j < |services| && Selects(services[i], services[j])
          && rel == Link(services[i], services[j]);
        assert 0 <= i < n;
      } else if rel in last {
        var j :| 0 <= j < |services| && Selects(services[n - 1], services[j]) && rel == Link(services[n - 1], services[j]);
        assert 0 <= n - 1 < n;
      } else {
        forall i, j | 0 <= i < n && 0 <= j < |services| && Selects(services[i], services[j])
          ensures rel != Link(services[i], services[j])
        {
          if i == n - 1 {
            assert j < |services|;
          }
        }
      }
    }
  }

  /** Edges come out source after source: those of a prefix of the sources first. */
  lemma {:induction false} RelationshipsSourceMajor(services: seq<ServiceEntry>, m: nat, n: nat)
    requires m <= n <= |services|
    ensures Relationships(services, m) <= Relationships(services, n)
    decreases n
  {
    if m < n {
      RelationshipsSourceMajor(services, m, n - 1);
      RelationshipsStep(services, n - 1);
      PrefixOfConcat(Relationships(services, m), Relationships(services, n - 1),
                     RelationshipsFrom(services[n - 1], services, |services|));
    }
  }

  /** The nested loop over sources and targets, appending each match. */
  method BuildServiceRelationships(services: seq<ServiceEntry>) returns (rels: seq<Relationship>)
    ensures rels == Relationships(services, |services|)
  {
    rels := [];
    var i := 0;
    while i < |services|
      invariant 0 <= i <= |services|
      invariant rels == Relationships(services, i)
    {
      var source := services[i];
      RelationshipsStep(services, i);
      rels := AppendSourceEdges(rels, source, services);
      i := i + 1;
    }
  }

  /**
   * One pass of the outer loop: a Service with a selector appends the
   * workloads it selects, in entry order; any other entry appends nothing.
   */
  method AppendSourceEdges(before: seq<Relationship>, source: ServiceEntry, services: seq<ServiceEntry>)
    returns (rels: seq<Relationship>)
    ensures rels == before + RelationshipsFrom(source, services, |services|)
  {
    rels := before;
    if !(source.kind == Service && |source.selector| > 0) {
      NonSelectorEmitsNothing(source, services, |services|);
      EmptyConcat(before);
      return;
    }
    var j := 0;
    while j < |services|
      invariant 0 <= j <= |services|
      invariant rels == before + RelationshipsFrom(source, services, j)
    {
      var target := services[j];
      ghost var step := if Selects(source, target) then [Link(source, target)] else [];
      ConcatAssoc(before, RelationshipsFrom(source, services, j), step);
      if target.kind.IsWorkload() && target.namespace == source.namespace {
        var matched := LabelsMatchSelector(target.labels, source.selector);
        if matched {
          rels := rels + [Link(source, target)];
        }
      }
      assert rels == before + RelationshipsFrom(source, services, j) + step;
      j := j + 1;
    }
  }

  lemma RelationshipsStep(services: seq<ServiceEntry>, i: nat)
    requires i < |services|
    ensures Relationships(services, i + 1) == Relationships(services, i) + RelationshipsFrom(services[i], services, |services|)
  {
  }

  lemma EmptyConcat<T>(a: seq<T>)
    ensures a + [] == a
  {
  }

  lemma PrefixOfConcat<T>(a: seq<T>, b: seq<T>, c: seq<T>)
    requires a <= b
    ensures a <= b + c
  {
    assert (b + c)[..|a|] == b[..|a|];
  }

  lemma ConcatAssoc<T>(a: seq<T>, b: seq<T>, c: seq<T>)
    ensures (a + b) + c == a + (b + c)
  {
  }

  // ---------------------------------------------------------------------------
  // Cloud provider

  /** The provider a node's label text names, checking EKS, then GKE, then AKS. */
  function ProviderMarker(text: string): Option<string> {
    if Contains(text, "eks.amazonaws.com") then Some("aws-eks")
    else if Contains(text, "gke.io") then Some("gcp-gke")
    else if Contains(text, "aks.azure.com") then Some("azure-aks")
    else None
  }

  /** `p` is the marker of the first node that has one, or "unknown" if none has. */
  predicate IsFirstProvider(texts: seq<string>, p: string) {
    || (p == "unknown" && forall i :: 0 <= i < |texts| ==> ProviderMarker(texts[i]).None?)
    || (exists i :: 0 <= i < |texts| && ProviderMarker(texts[i]) == Some(p)
         && forall j :: 0 <= j < i ==> ProviderMarker(texts[j]).None?)
  }

  /** Scans the nodes' label texts in order and returns at the first marker. */
  method DetectProvider(texts: seq<string>) returns (provider: string)
    ensures IsFirstProvider(texts, provider)
  {
    var i := 0;
    while i < |texts|
      invariant 0 <= i <= |texts|
      invariant forall j :: 0 <= j < i ==> ProviderMarker(texts[j]).None?
    {
      var marker := ProviderMarker(texts[i]);
      if marker.Some? {
        return marker.value;
      }
      i := i + 1;
    }
    return "unknown";
  }

  /** The description above names one provider only. */
  lemma FirstProviderUnique(texts: seq<string>, p: string, q: string)
    requires IsFirstProvider(texts, p) && IsFirstProvider(texts, q)
    ensures p == q
  {
  }


  /** What the version call and the node list returned. */
  datatype ClusterFacts = ClusterFacts(gitVersion: string, platform: string, nodeLabelTexts: seq<string>)

  /** The `cluster` block of the metadata; `ClusterInfoError` is `{"error": ...}`. */
  datatype ClusterInfo =
    | ClusterInfo(kubernetesVersion: string, platform: string, nodeCount: nat, provider: string)
    | ClusterInfoError

  /** `None` stands for a failing version or node call. */
  method GetClusterInfo(facts: Option<ClusterFacts>) returns (info: ClusterInfo)
    ensures facts.None? <==> info.ClusterInfoError?
    ensures facts.Some? ==>
      && info.kubernetesVersion == facts.value.gitVersion
      && info.platform == facts.value.platform
      && info.nodeCount == |facts.value.nodeLabelTexts|
      && IsFirstProvider(facts.value.nodeLabelTexts, info.provider)
  {
    if facts.None? {
      return ClusterInfoError;
    }
    var provider := DetectProvider(facts.value.nodeLabelTexts);
    info := ClusterInfo(facts.value.gitVersion, facts.value.platform, |facts.value.nodeLabelTexts|, provider);
  }

  // ---------------------------------------------------------------------------
  // Scanning one namespace

  /** A listed object, or one whose fields could not be read (extraction gives None). */
  datatype RawObject =
    | RawObject(name: string, labels: map<string, string>, selector: seq<(string, string)>)
    | Unreadable

  /** What one list call returned; `ListFailed` is an `ApiException`. */
  datatype Listing = Listed(items: seq<RawObject>) | ListFailed

  datatype NamespaceListings = NamespaceListings(
    deployments: Listing,
    statefulSets: Listing,
    daemonSets: Listing,
    services: Listing)
  {
    function Of(kind: ServiceKind): Listing {
      match kind
      case Deployment => deployments
      case StatefulSet => statefulSets
      case DaemonSet => daemonSets
      case Service => services
    }
  }

  /** The `_extract_*_info` step for one object. */
  function Extract(raw: RawObject, namespace: string, kind: ServiceKind): Option<ServiceEntry> {
    match raw
    case Unreadable => None
    case RawObject(name, labels, selector) =>
      Some(ServiceEntry(namespace + "/" + name, name, namespace, kind, labels,
        if kind == Service then selector else [], IsCriticalService(name, namespace)))
  }

  /** The entries the first `n` listed objects give, unreadable ones dropped. */
  function ExtractedPrefix(items: seq<RawObject>, n: nat, namespace: string, kind: ServiceKind): (r: seq<ServiceEntry>)
    requires n <= |items|
    ensures |r| <= n
    ensures forall k :: 0 <= k < |r| ==>
      && r[k].namespace == namespace && r[k].kind == kind
      && r[k].id == namespace + "/" + r[k].name
      && r[k].critical == IsCriticalService(r[k].name, namespace)
  {
    if n == 0 then []
    else
      var e := Extract(items[n - 1], namespace, kind);
      ExtractedPrefix(items, n - 1, namespace, kind) + (if e.Some? then [e.value] else [])
  }

  /** The entries one list call gives; a failed call gives none. */
  function Extracted(listing: Listing, namespace: string, kind: ServiceKind): seq<ServiceEntry> {
    match listing
    case ListFailed => []
    case Listed(items) => ExtractedPrefix(items, |items|, namespace, kind)
  }

  /** Deployments, then StatefulSets, then DaemonSets, then Services. */
  function NamespaceServices(namespace: string, listings: NamespaceListings): seq<ServiceEntry> {
    Extracted(listings.deployments, namespace, Deployment)
      + Extracted(listings.statefulSets, namespace, StatefulSet)
      + Extracted(listings.daemonSets, namespace, DaemonSet)
      + Extracted(listings.services, namespace, Service)
  }

  /** Every entry of a listing belongs to the namespace and kind it was listed under. */
  lemma ExtractedShape(listing: Listing, namespace: string, kind: ServiceKind)
    ensures forall e :: e in Extracted(listing, namespace, kind) ==>
      && e.namespace == namespace && e.kind == kind
      && e.id == namespace + "/" + e.name
      && e.critical == IsCriticalService(e.name, namespace)
  {
    var r := Extracted(listing, namespace, kind);
    forall e | e in r
      ensures e.namespace == namespace && e.kind == kind
      ensures e.id == namespace + "/" + e.name && e.critical == IsCriticalService(e.name, namespace)
    {
      var k :| 0 <= k < |r| && r[k] == e;
    }
  }

  /**
   * A namespace scan yields entries of that namespace only, with ids
   * "<namespace>/<name>", grouped by kind in scan order.
   */
  lemma NamespaceServicesShape(namespace: string, listings: NamespaceListings)
    ensures forall e :: e in NamespaceServices(namespace, listings) ==>
      e.namespace == namespace && e.id == namespace + "/" + e.name
    ensures var r := NamespaceServices(namespace, listings);
      forall p, q :: 0 <= p < q < |r| ==> r[p].kind.Rank() <= r[q].kind.Rank()
  {
    var d := Extracted(listings.deployments, namespace, Deployment);
    var s := Extracted(listings.statefulSets, namespace, StatefulSet);
    var ds := Extracted(listings.daemonSets, namespace, DaemonSet);
    var sv := Extracted(listings.services, namespace, Service);
    ExtractedShape(listings.deployments, namespace, Deployment);
    ExtractedShape(listings.statefulSets, namespace, StatefulSet);
    ExtractedShape(listings.daemonSets, namespace, DaemonSet);
    ExtractedShape(listings.services, namespace, Service);
    RankedConcat(d, s, ds, sv, namespace);
  }

  /** An entry of `namespace` with the id the scan gives it. */
  predicate Scanned(e: ServiceEntry, namespace: string) {
    e.namespace == namespace && e.id == namespace + "/" + e.name
  }

  /** Four groups of one kind each, concatenated in kind order, are ordered by kind. */
  lemma RankedConcat(d: seq<ServiceEntry>, s: seq<ServiceEntry>, ds: seq<ServiceEntry>, sv: seq<ServiceEntry>,
                     namespace: string)
    requires forall e :: e in d ==> Scanned(e, namespace) && e.kind == Deployment
    requires forall e :: e in s ==> Scanned(e, namespace) && e.kind == StatefulSet
    requires forall e :: e in ds ==> Scanned(e, namespace) && e.kind == DaemonSet
    requires forall e :: e in sv ==> Scanned(e, namespace) && e.kind == Service
    ensures forall e :: e in d + s + ds + sv ==> Scanned(e, namespace)
    ensures var r := d + s + ds + sv;
      forall p, q :: 0 <= p < q < |r| ==> r[p].kind.Rank() <= r[q].kind.Rank()
  {
    var r := d + s + ds + sv;
    forall k | 0 <= k < |r|
      ensures Scanned(r[k], namespace)
      ensures r[k].kind.Rank() == (if k < |d| then 0 else if k < |d| + |s| then 1
                                   else if k < |d| + |s| + |ds| then 2 else 3)
    {
      if k < |d| {
        assert r[k] == d[k];
        assert r[k] in d;
      } else if k < |d| + |s| {
        assert r[k] == s[k - |d|];
        assert r[k] in s;
      } else if k < |d| + |s| + |ds| {
        assert r[k] == ds[k - |d| - |s|];
        assert r[k] in ds;
      } else {
        assert r[k] == sv[k - |d| - |s| - |ds|];
        assert r[k] in sv;
      }
    }
  }

  /** Appends what one listing gives, object by object. */
  method AppendExtracted(acc: seq<ServiceEntry>, listing: Listing, namespace: string, kind: ServiceKind)
    returns (out: seq<ServiceEntry>)
    ensures out == acc + Extracted(listing, namespace, kind)
  {
    out := acc;
    if listing.ListFailed? {
      return;
    }
    var items := listing.items;
    var k := 0;
    while k < |items|
      invariant 0 <= k <= |items|
      invariant out == acc + ExtractedPrefix(items, k, namespace, kind)
    {
      var e := Extract(items[k], namespace, kind);
      if e.Some? {
        out := out + [e.value];
      }
      k := k + 1;
    }
  }

  /** The four list calls of one namespace, each failing on its own. */
  method FetchNamespaceServices(namespace: string, listings: NamespaceListings) returns (services: seq<ServiceEntry>)
    ensures services == NamespaceServices(namespace, listings)
  {
    services := AppendExtracted([], listings.deployments, namespace, Deployment);
    services := AppendExtracted(services, listings.statefulSets, namespace, StatefulSet);
    services := AppendExtracted(services, listings.daemonSets, namespace, DaemonSet);
    services := AppendExtracted(services, listings.services, namespace, Service);
  }

  // ---------------------------------------------------------------------------
  // The whole scan

  datatype K8sConfig = K8sConfig(namespaces: Option<seq<string>>, targetServices: Option<seq<string>>)

  /** The parsed stack file; only its `k8s` block is read. */
  datatype StackConfig = StackConfig(k8s: Option<K8sConfig>)

  /** `k8s.namespaces`, defaulting to `["default"]`. */
  function ScannedNamespaces(config: StackConfig): (r: seq<string>)
    ensures config.k8s.None? || config.k8s.value.namespaces.None? ==> r == ["default"]
    ensures config.k8s.Some? && config.k8s.value.namespaces.Some? ==> r == config.k8s.value.namespaces.value
  {
    match config.k8s
    case None => ["default"]
    case Some(k8s) => k8s.namespaces.GetOr(["default"])
  }

  /**
   * The entries of the first `n` namespaces; `fetch` gives `None` for a
   * namespace whose scan raised, which is skipped.
   */
  function AllServices(namespaces: seq<string>, n: nat, fetch: string -> Option<NamespaceListings>): seq<ServiceEntry>
    requires n <= |namespaces|
  {
    if n == 0 then []
    else
      var listings := fetch(namespaces[n - 1]);
      AllServices(namespaces, n - 1, fetch)
        + (if listings.Some? then NamespaceServices(namespaces[n - 1], listings.value) else [])
  }

  /** Every scanned entry comes from one of the scanned namespaces, under its own id. */
  lemma {:induction false} AllServicesFromScannedNamespaces(namespaces: seq<string>, n: nat,
                                                          fetch: string -> Option<NamespaceListings>)
    requires n <= |namespaces|
    ensures forall e :: e in AllServices(namespaces, n, fetch) ==>
      e.namespace in namespaces[..n] && e.id == e.namespace + "/" + e.name
  {
    if n > 0 {
      AllServicesFromScannedNamespaces(namespaces, n - 1, fetch);
      var listings := fetch(namespaces[n - 1]);
      if listings.Some? {
        NamespaceServicesShape(namespaces[n - 1], listings.value);
      }
      assert namespaces[..n] == namespaces[..n - 1] + [namespaces[n - 1]];
    }
  }

  datatype Metadata = Metadata(
    generatedAt: string,
    cluster: ClusterInfo,
    namespacesScanned: seq<string>,
    totalServices: nat)

  datatype Topology = Topology(metadata: Metadata, services: seq<ServiceEntry>, relationships: seq<Relationship>)

  /** The inventory run; `now` is the generation time. */
  method Run(config: StackConfig, now: string, facts: Option<ClusterFacts>,
             fetch: string -> Option<NamespaceListings>) returns (topology: Topology)
    ensures topology.metadata.generatedAt == now
    ensures topology.metadata.namespacesScanned == ScannedNamespaces(config)
    ensures topology.metadata.totalServices == |topology.services|
    ensures facts.None? <==> topology.metadata.cluster.ClusterInfoError?
    ensures topology.services == AllServices(ScannedNamespaces(config), |ScannedNamespaces(config)|, fetch)
    ensures topology.relationships == Relationships(topology.services, |topology.services|)
  {
    var namespaces := ScannedNamespaces(config);
    var cluster := GetClusterInfo(facts);
    var services := [];
    var i := 0;
    while i < |namespaces|
      invariant 0 <= i <= |namespaces|
      invariant services == AllServices(namespaces, i, fetch)
    {
      var listings := fetch(namespaces[i]);
      if listings.Some? {
        var found := FetchNamespaceServices(namespaces[i], listings.value);
        services := services + found;
      }
      i := i + 1;
    }
    var relationships := BuildServiceRelationships(services);
    topology := Topology(Metadata(now, cluster, namespaces, |services|), services, relationships);
  }
}

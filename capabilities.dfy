/**
 * The closed set of capabilities (fritz_node_exporter/capability.py) and the
 * registry discovery walks (fritz_node_exporter/capabilities/__init__.py),
 * with the dispatch of `is_supported` and `get_metrics` over the variants and
 * the specification functions of discovery and of a device's metrics.
 */
module Capabilities {
  import opened Remote
  import opened Identities
  import opened Metrics
  import DeviceInfoCapability
  import WanDslInfoCapability

  datatype Capability = DeviceInfo | WanDslInfo

  /** `ALL_CAPABILITIES`, in registration order. */
  const Registry: seq<Capability> := [DeviceInfo, WanDslInfo]

  function ServiceActionOf(c: Capability): ServiceAction {
    match c
    case DeviceInfo => DeviceInfoCapability.SERVICE_ACTION
    case WanDslInfo => WanDslInfoCapability.SERVICE_ACTION
  }

  /** What `c.is_supported(device)` returns for a device with connection `conn`. */
  predicate IsSupported(c: Capability, conn: Connection) {
    match c
    case DeviceInfo => DeviceInfoCapability.IsSupported(conn)
    case WanDslInfo => WanDslInfoCapability.IsSupported(conn)
  }

  /** The device identity after `c.is_supported(device)`: only a successful DeviceInfo check writes it. */
  function IdentityAfterCheck(c: Capability, conn: Connection, id: Identity): Identity {
    if c == DeviceInfo && DeviceInfoCapability.IsSupported(conn) then DeviceInfoCapability.ReportedIdentity(conn) else id
  }

  /** `c.get_metrics(device)`, as a finite sequence. */
  function GetMetrics(c: Capability, conn: Connection, id: Identity): seq<MetricFamily> {
    match c
    case DeviceInfo => DeviceInfoCapability.GetMetrics(conn)
    case WanDslInfo => WanDslInfoCapability.GetMetrics(conn, id)
  }

  /** The capabilities of `cs` that are supported, in the order of `cs`. */
  function Discover(cs: seq<Capability>, conn: Connection): seq<Capability> {
    if cs == [] then []
    else Discover(cs[..|cs| - 1], conn) + (if IsSupported(cs[|cs| - 1], conn) then [cs[|cs| - 1]] else [])
  }

  /** The identity after checking every capability of `cs` in order, starting from `id`. */
  function IdentityAfter(cs: seq<Capability>, conn: Connection, id: Identity): Identity {
    if cs == [] then id
    else IdentityAfterCheck(cs[|cs| - 1], conn, IdentityAfter(cs[..|cs| - 1], conn, id))
  }

  /** `get_all_metric_values`: every capability's metrics, concatenated in capability order. */
  function MetricsOf(cs: seq<Capability>, conn: Connection, id: Identity): (r: seq<MetricFamily>)
    ensures forall f :: f in r ==> WellLabelled(f)
  {
    if cs == [] then [] else GetMetrics(cs[0], conn, id) + MetricsOf(cs[1..], conn, id)
  }

  // ---------------------------------------------------------------------
  // Checks and metrics of a single capability

  /**
   * When its remote call yields no mapping (no session, or `CallException`),
   * a capability is unsupported, leaves the identity alone and reports nothing.
   */
  lemma NoResponseNoCapability(c: Capability, conn: Connection, id: Identity)
    requires !Call(conn, ServiceActionOf(c)).Response?
    ensures !IsSupported(c, conn)
    ensures IdentityAfterCheck(c, conn, id) == id
    ensures GetMetrics(c, conn, id) == []
  {
  }

  // ---------------------------------------------------------------------
  // Discovery

  lemma {:induction false} DiscoverAppend(s: seq<Capability>, t: seq<Capability>, conn: Connection)
    ensures Discover(s + t, conn) == Discover(s, conn) + Discover(t, conn)
    decreases |t|
  {
    if t == [] {
      assert s + t == s;
    } else {
      var t' := t[..|t| - 1];
      assert (s + t)[..|s + t| - 1] == s + t';
      assert (s + t)[|s + t| - 1] == t[|t| - 1];
      DiscoverAppend(s, t', conn);
    }
  }

  /** A capability is discovered exactly when it is listed and supported. */
  lemma {:induction false} DiscoverMembers(cs: seq<Capability>, conn: Connection, c: Capability)
    ensures c in Discover(cs, conn) <==> c in cs && IsSupported(c, conn)
    decreases |cs|
  {
    if cs != [] {
      var init := cs[..|cs| - 1];
      assert cs == init + [cs[|cs| - 1]];
      DiscoverMembers(init, conn, c);
    }
  }

  /** Discovery never grows the list it filters. */
  lemma {:induction false} DiscoverLength(cs: seq<Capability>, conn: Connection)
    ensures |Discover(cs, conn)| <= |cs|
    decreases |cs|
  {
    if cs != [] {
      DiscoverLength(cs[..|cs| - 1], conn);
    }
  }

  /** Discovering the registry gives DeviceInfo and then WanDslInfo, each exactly when it is supported. */
  lemma DiscoveredInRegistryOrder(conn: Connection)
    ensures Discover(Registry, conn) ==
      (if IsSupported(DeviceInfo, conn) then [DeviceInfo] else []) +
      (if IsSupported(WanDslInfo, conn) then [WanDslInfo] else [])
  {
    assert Registry[..1] == [DeviceInfo];
    assert [DeviceInfo][..0] == [];
    assert Discover([DeviceInfo], conn) == (if IsSupported(DeviceInfo, conn) then [DeviceInfo] else []);
  }

  /** A device ends discovery with no capability exactly when no registered capability is supported. */
  lemma DiscoveredNoneIff(conn: Connection)
    ensures Discover(Registry, conn) == [] <==> forall c :: c in Registry ==> !IsSupported(c, conn)
  {
    DiscoveredInRegistryOrder(conn);
  }

  /** After discovery the identity is the one DeviceInfo reports when it is supported, and otherwise unchanged. */
  lemma IdentityAfterDiscovery(conn: Connection, id: Identity)
    ensures IdentityAfter(Registry, conn, id) ==
      if DeviceInfoCapability.IsSupported(conn) then DeviceInfoCapability.ReportedIdentity(conn) else id
  {
    assert Registry[..1] == [DeviceInfo];
    assert [DeviceInfo][..0] == [];
    assert IdentityAfter([DeviceInfo], conn, id) == IdentityAfterCheck(DeviceInfo, conn, id);
  }

  // ---------------------------------------------------------------------
  // A device's metrics

  lemma {:induction false} MetricsOfAppend(s: seq<Capability>, t: seq<Capability>, conn: Connection, id: Identity)
    ensures MetricsOf(s + t, conn, id) == MetricsOf(s, conn, id) + MetricsOf(t, conn, id)
    decreases |s|
  {
    if s != [] {
      assert (s + t)[1..] == s[1..] + t;
      MetricsOfAppend(s[1..], t, conn, id);
    } else {
      assert s + t == t;
    }
  }

  /** A metric family is reported exactly when one of the capabilities reports it. */
  lemma {:induction false} MetricsOfMembers(cs: seq<Capability>, conn: Connection, id: Identity, f: MetricFamily)
    ensures f in MetricsOf(cs, conn, id) <==> exists c :: c in cs && f in GetMetrics(c, conn, id)
    decreases |cs|
  {
    if cs != [] {
      MetricsOfMembers(cs[1..], conn, id, f);
      if f in MetricsOf(cs[1..], conn, id) {
        var c :| c in cs[1..] && f in GetMetrics(c, conn, id);
        assert c in cs;
      }
      if exists c :: c in cs && f in GetMetrics(c, conn, id) {
        var c :| c in cs && f in GetMetrics(c, conn, id);
        if c != cs[0] {
          assert c in cs[1..];
        }
      }
    }
  }

  /** Without a session, a device reports no metrics at all, whatever it discovered. */
  lemma {:induction false} MetricsOfDisconnected(cs: seq<Capability>, id: Identity)
    ensures MetricsOf(cs, NoSession, id) == []
    decreases |cs|
  {
    if cs != [] {
      NoResponseNoCapability(cs[0], NoSession, id);
      MetricsOfDisconnected(cs[1..], id);
    }
  }
}

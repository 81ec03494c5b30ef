/**
 * A single Fritz!Box and the collection the exporter scrapes
 * (fritz_node_exporter/device.py).
 *
 * A `FritzBox` is constructed with a session, runs discovery over the
 * capability registry unless told to skip it, and from then on reports the
 * metrics of the capabilities it discovered.  Its identity starts as the
 * configured host name and "UNKNOWN" twice; a successful DeviceInfo check is
 * the only thing that writes it.
 */
module Device {
  import opened Remote
  import opened Identities
  import opened Metrics
  import opened Capabilities
  import DeviceInfoCapability
  import WanDslInfoCapability

  /**
   * The fields of a device's configuration the core reads.  The user name and
   * password only serve to open the connection, which is not modelled.
   */
  datatype DeviceConfig = DeviceConfig(name: string, hostname: string)

  class FritzBox {
    const config: DeviceConfig
    var connection: Connection
    var capabilities: seq<Capability>
    var name: string
    var swversion: string
    var serialno: string

    function CurrentIdentity(): Identity
      reads this
    {
      Identity(name, swversion, serialno)
    }

    /**
     * `FritzBox(config, skip_capability_discovery)` once `_connect` has opened
     * a session whose answers are `session`.
     */
    constructor (config: DeviceConfig, session: ResponseTable, skipCapabilityDiscovery: bool)
      ensures this.config == config && connection == Session(session)
      ensures capabilities == if skipCapabilityDiscovery then [] else Discover(Registry, connection)
      ensures CurrentIdentity() ==
        if skipCapabilityDiscovery then Initial(config.hostname)
        else IdentityAfter(Registry, connection, Initial(config.hostname))
    {
      this.config := config;
      connection := Session(session);
      capabilities := [];
      name := config.hostname;
      swversion := UNKNOWN;
      serialno := UNKNOWN;
      new;
      if !skipCapabilityDiscovery {
        DiscoverCapabilities();
      }
    }

    /** `_discover_capabilities`: walk the registry and append every supported capability. */
    method DiscoverCapabilities()
      modifies this`capabilities, this`name, this`swversion, this`serialno
      ensures capabilities == old(capabilities) + Discover(Registry, connection)
      ensures CurrentIdentity() == IdentityAfter(Registry, connection, old(CurrentIdentity()))
    {
      for i := 0 to |Registry|
        invariant capabilities == old(capabilities) + Discover(Registry[..i], connection)
        invariant CurrentIdentity() == IdentityAfter(Registry[..i], connection, old(CurrentIdentity()))
      {
        var capability := Registry[i];
        assert Registry[..i + 1][..i] == Registry[..i];
        var supported := IsSupported(capability);
        if supported {
          capabilities := capabilities + [capability];
        }
      }
      assert Registry[..|Registry|] == Registry;
    }

    /**
     * `capability.is_supported(self)` for either capability.  For DeviceInfo,
     * a complete response also sets the device's name, software version and
     * serial number; nothing else of the device changes.
     */
    method IsSupported(capability: Capability) returns (supported: bool)
      modifies this`name, this`swversion, this`serialno
      ensures supported == Capabilities.IsSupported(capability, connection)
      ensures CurrentIdentity() == IdentityAfterCheck(capability, connection, old(CurrentIdentity()))
    {
      match capability
      case DeviceInfo =>
        var metricData := DeviceInfoCapability.Query(connection);
        if metricData.None? || metricData.value.AnyIsNone() {
          return false;
        }
        name := metricData.value.modelname.value;
        swversion := metricData.value.swversion.value;
        serialno := metricData.value.serialNo.value;
        return true;
      case WanDslInfo =>
        var metricData := WanDslInfoCapability.Query(connection);
        return metricData.Some?;
    }

    /** The session is lost: from now on `call` returns `None`. */
    method Disconnect()
      modifies this`connection
      ensures connection == NoSession
    {
      connection := NoSession;
    }

    /** `has_capabilities`. */
    predicate HasCapabilities()
      reads this
    {
      |capabilities| > 0
    }

    /** `get_all_metric_values`, recomputed on every scrape. */
    function GetAllMetricValues(): (r: seq<MetricFamily>)
      reads this
      ensures forall f :: f in r ==> WellLabelled(f)
    {
      MetricsOf(capabilities, connection, CurrentIdentity())
    }
  }

  /** Every device's metrics, concatenated in the order of `boxes`. */
  function Gather(boxes: seq<FritzBox>): (r: seq<MetricFamily>)
    reads boxes
    ensures forall f :: f in r ==> WellLabelled(f)
  {
    if boxes == [] then [] else boxes[0].GetAllMetricValues() + Gather(boxes[1..])
  }

  lemma {:induction false} GatherAppend(boxes: seq<FritzBox>, box: FritzBox)
    ensures Gather(boxes + [box]) == Gather(boxes) + box.GetAllMetricValues()
    decreases |boxes|
  {
    if boxes == [] {
      assert [box][1..] == [];
    } else {
      assert (boxes + [box])[1..] == boxes[1..] + [box];
      GatherAppend(boxes[1..], box);
    }
  }

  class FritzBoxCollection {
    var boxes: seq<FritzBox>

    /** No device without capabilities is ever held. */
    ghost predicate Valid()
      reads this, boxes
    {
      forall b :: b in boxes ==> b.HasCapabilities()
    }

    constructor ()
      ensures boxes == [] && Valid() && Collect() == []
    {
      boxes := [];
    }

    /** `add`: keep the device exactly when it has at least one capability. */
    method Add(device: FritzBox)
      requires Valid()
      modifies this
      ensures Valid()
      ensures boxes == if device.HasCapabilities() then old(boxes) + [device] else old(boxes)
      ensures Collect() == old(Collect()) + if device.HasCapabilities() then device.GetAllMetricValues() else []
    {
      if device.HasCapabilities() {
        GatherAppend(boxes, device);
        boxes := boxes + [device];
      }
    }

    /** `collect`: one scrape, over every device in the order they were added. */
    function Collect(): (r: seq<MetricFamily>)
      reads this, boxes
      ensures forall f :: f in r ==> WellLabelled(f)
    {
      Gather(boxes)
    }
  }
}

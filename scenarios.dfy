/**
 * End-to-end runs of discovery and scraping against response tables of a
 * given shape: full answers, empty answers, a failing WANDSLInterfaceConfig1
 * call, and the devices of tests/test_device.py and
 * tests/capability/test_device_info.py.  Numbers are answered the way the
 * device prints them, as `str(n)`.
 */
module Scenarios {
  import opened Wrappers
  import opened Utils
  import opened Remote
  import opened Identities
  import opened Metrics
  import opened Capabilities
  import DeviceInfoCapability
  import WanDslInfoCapability
  import Device

  /** A full DeviceInfo1/GetInfo answer. */
  function DeviceInfoAnswer(id: Identity, uptime: int): map<string, string> {
    map["NewModelName" := id.name, "NewSoftwareVersion" := id.swversion,
        "NewSerialNumber" := id.serialno, "NewUpTime" := IntToString(uptime)]
  }

  /** A full WANDSLInterfaceConfig1/GetInfo answer. */
  function WanDslAnswer(status: string, upCurrent: int, upMax: int, downCurrent: int, downMax: int): map<string, string> {
    map["NewStatus" := status,
        "NewUpstreamCurrRate" := IntToString(upCurrent), "NewUpstreamMaxRate" := IntToString(upMax),
        "NewDownstreamCurrRate" := IntToString(downCurrent), "NewDownstreamMaxRate" := IntToString(downMax)]
  }

  function Table(deviceInfo: Answer, wanDsl: Answer): ResponseTable {
    map[DeviceInfoCapability.SERVICE_ACTION := deviceInfo, WanDslInfoCapability.SERVICE_ACTION := wanDsl]
  }

  function UptimeFamily(id: Identity, uptime: int): MetricFamily {
    MetricFamily(Counter, "fritz_uptime", "Fritz!Box uptime", "seconds", DeviceInfoCapability.UPTIME_LABELS,
                 [Sample([Some(id.name), Some(id.swversion), Some(id.serialno)], uptime)])
  }

  function DslFamilies(id: Identity, enabled: int, upCurrent: int, upMax: int, downCurrent: int, downMax: int): seq<MetricFamily> {
    var who := [Some(id.name), Some(id.swversion), Some(id.serialno)];
    [ MetricFamily(Gauge, "fritz_dsl_enabled", "Fritz!Box DSL enabled", "", WanDslInfoCapability.ENABLED_LABELS,
                   [Sample(who, enabled)]),
      MetricFamily(Gauge, "fritz_dsl_rate", "Fritz!Box DSL data rate", "kbps", WanDslInfoCapability.RATE_LABELS,
                   [ Sample(who + [Some("up"), Some("current")], upCurrent),
                     Sample(who + [Some("up"), Some("max")], upMax),
                     Sample(who + [Some("down"), Some("current")], downCurrent),
                     Sample(who + [Some("down"), Some("max")], downMax) ]) ]
  }

  /** The record WanDslInfo's query builds from a full answer. */
  lemma DslRecord(status: string, upCurrent: int, upMax: int, downCurrent: int, downMax: int)
    ensures WanDslInfoCapability.FromResponse(WanDslAnswer(status, upCurrent, upMax, downCurrent, downMax)) ==
      WanDslInfoCapability.MetricData(status == "Up", downCurrent, downMax, upCurrent, upMax)
  {
    var data := WanDslAnswer(status, upCurrent, upMax, downCurrent, downMax);
    assert Get(data, "NewStatus") == Some(status);
    assert Get(data, "NewUpstreamCurrRate") == Some(IntToString(upCurrent));
    assert Get(data, "NewUpstreamMaxRate") == Some(IntToString(upMax));
    assert Get(data, "NewDownstreamCurrRate") == Some(IntToString(downCurrent));
    assert Get(data, "NewDownstreamMaxRate") == Some(IntToString(downMax));
    SafeStrToIntRoundTrip(upCurrent, 0);
    SafeStrToIntRoundTrip(upMax, 0);
    SafeStrToIntRoundTrip(downCurrent, 0);
    SafeStrToIntRoundTrip(downMax, 0);
  }

  /** What a scrape of WanDslInfo reports from a full answer. */
  lemma DslMetrics(conn: Connection, id: Identity, status: string, upCurrent: int, upMax: int, downCurrent: int, downMax: int)
    requires Call(conn, WanDslInfoCapability.SERVICE_ACTION) == Response(WanDslAnswer(status, upCurrent, upMax, downCurrent, downMax))
    ensures WanDslInfoCapability.GetMetrics(conn, id) ==
      DslFamilies(id, if status == "Up" then 1 else 0, upCurrent, upMax, downCurrent, downMax)
  {
    DslRecord(status, upCurrent, upMax, downCurrent, downMax);
  }

  /** The record DeviceInfo's query builds from a full answer. */
  lemma DeviceInfoRecord(id: Identity, uptime: int)
    ensures DeviceInfoCapability.FromResponse(DeviceInfoAnswer(id, uptime)) ==
      DeviceInfoCapability.MetricData(Some(id.name), Some(id.swversion), Some(id.serialno), uptime)
  {
    var data := DeviceInfoAnswer(id, uptime);
    assert Get(data, "NewModelName") == Some(id.name);
    assert Get(data, "NewSoftwareVersion") == Some(id.swversion);
    assert Get(data, "NewSerialNumber") == Some(id.serialno);
    assert DeviceInfoCapability.PyStr(Get(data, "NewUpTime")) == IntToString(uptime);
    SafeStrToIntRoundTrip(uptime, 0);
  }

  /** What a scrape of DeviceInfo reports from a full answer. */
  lemma UptimeMetrics(conn: Connection, id: Identity, uptime: int)
    requires Call(conn, DeviceInfoCapability.SERVICE_ACTION) == Response(DeviceInfoAnswer(id, uptime))
    ensures DeviceInfoCapability.IsSupported(conn) && DeviceInfoCapability.ReportedIdentity(conn) == id
    ensures DeviceInfoCapability.GetMetrics(conn) == [UptimeFamily(id, uptime)]
  {
    DeviceInfoRecord(id, uptime);
  }

  /**
   * Both queries answered in full: both capabilities are discovered, the
   * identity is the reported one, and a scrape yields the uptime, the link
   * state and the four rates matched to their direction and type, all
   * labelled with the reported identity.
   */
  lemma FullAnswers(hostname: string, id: Identity, uptime: int, status: string,
                  upCurrent: int, upMax: int, downCurrent: int, downMax: int)
    ensures var conn := Session(Table(Values(DeviceInfoAnswer(id, uptime)),
                                      Values(WanDslAnswer(status, upCurrent, upMax, downCurrent, downMax))));
      && Discover(Registry, conn) == [DeviceInfo, WanDslInfo]
      && IdentityAfter(Registry, conn, Initial(hostname)) == id
      && MetricsOf([DeviceInfo, WanDslInfo], conn, id) ==
           [UptimeFamily(id, uptime)] + DslFamilies(id, if status == "Up" then 1 else 0, upCurrent, upMax, downCurrent, downMax)
  {
    var conn := Session(Table(Values(DeviceInfoAnswer(id, uptime)),
                              Values(WanDslAnswer(status, upCurrent, upMax, downCurrent, downMax))));
    assert Call(conn, DeviceInfoCapability.SERVICE_ACTION) == Response(DeviceInfoAnswer(id, uptime));
    assert Call(conn, WanDslInfoCapability.SERVICE_ACTION) == Response(WanDslAnswer(status, upCurrent, upMax, downCurrent, downMax));
    UptimeMetrics(conn, id, uptime);
    DslMetrics(conn, id, status, upCurrent, upMax, downCurrent, downMax);
    DiscoveredInRegistryOrder(conn);
    IdentityAfterDiscovery(conn, Initial(hostname));
    MetricsOfAppend([DeviceInfo], [WanDslInfo], conn, id);
    assert [DeviceInfo] + [WanDslInfo] == [DeviceInfo, WanDslInfo];
    assert MetricsOf([DeviceInfo], conn, id) == [UptimeFamily(id, uptime)];
    assert MetricsOf([WanDslInfo], conn, id) == WanDslInfoCapability.GetMetrics(conn, id);
  }

  /** A FritzBox7590 running v7.50, serial ABC123: uptime 100, link up, rates 1000, 2000, 5000 and 10000. */
  lemma FullAnswersExample(hostname: string)
    ensures var id := Identity("FritzBox7590", "v7.50", "ABC123");
      var conn := Session(Table(Values(DeviceInfoAnswer(id, 100)), Values(WanDslAnswer("Up", 1000, 2000, 5000, 10000))));
      && Discover(Registry, conn) == [DeviceInfo, WanDslInfo]
      && MetricsOf([DeviceInfo, WanDslInfo], conn, id) == [UptimeFamily(id, 100)] + DslFamilies(id, 1, 1000, 2000, 5000, 10000)
  {
    FullAnswers(hostname, Identity("FritzBox7590", "v7.50", "ABC123"), 100, "Up", 1000, 2000, 5000, 10000);
  }

  /**
   * Every query answered with an empty mapping: DeviceInfo is not supported,
   * but WanDslInfo is, because its query yields a record for any mapping; the
   * identity keeps its defaults and the scrape reports the link as down and
   * every rate as 0.
   */
  lemma EmptyAnswers(hostname: string)
    ensures var conn := Session(Table(Values(map[]), Values(map[])));
      && Discover(Registry, conn) == [WanDslInfo]
      && IdentityAfter(Registry, conn, Initial(hostname)) == Initial(hostname)
      && MetricsOf([WanDslInfo], conn, Initial(hostname)) == DslFamilies(Initial(hostname), 0, 0, 0, 0, 0)
  {
    var conn := Session(Table(Values(map[]), Values(map[])));
    var id := Initial(hostname);
    assert Call(conn, DeviceInfoCapability.SERVICE_ACTION) == Response(map[]);
    assert Call(conn, WanDslInfoCapability.SERVICE_ACTION) == Response(map[]);
    DiscoveredInRegistryOrder(conn);
    IdentityAfterDiscovery(conn, id);
  }

  /** A failing WANDSLInterfaceConfig1 query: only DeviceInfo is kept, and a scrape yields the uptime alone. */
  lemma WanDslCallFails(hostname: string, id: Identity, uptime: int, error: FritzError)
    ensures var conn := Session(Table(Values(DeviceInfoAnswer(id, uptime)), Fails(error)));
      && Discover(Registry, conn) == [DeviceInfo]
      && IdentityAfter(Registry, conn, Initial(hostname)) == id
      && MetricsOf([DeviceInfo], conn, id) == [UptimeFamily(id, uptime)]
  {
    var conn := Session(Table(Values(DeviceInfoAnswer(id, uptime)), Fails(error)));
    assert Call(conn, DeviceInfoCapability.SERVICE_ACTION) == Response(DeviceInfoAnswer(id, uptime));
    assert Call(conn, WanDslInfoCapability.SERVICE_ACTION) == CallException(error);
    UptimeMetrics(conn, id, uptime);
    DiscoveredInRegistryOrder(conn);
    IdentityAfterDiscovery(conn, Initial(hostname));
  }

  /**
   * A DeviceInfo answer without NewModelName (tests/capability/test_device_info.py:38-58):
   * not supported, and the identity stays as it was.
   */
  lemma MissingModelNameUnsupported(id: Identity)
    ensures var table := map[DeviceInfoCapability.SERVICE_ACTION :=
                               Values(map["NewSoftwareVersion" := "12345", "NewSerialNumber" := "ABCDE"])];
      && !Capabilities.IsSupported(DeviceInfo, Session(table))
      && IdentityAfterCheck(DeviceInfo, Session(table), id) == id
  {
    var table := map[DeviceInfoCapability.SERVICE_ACTION :=
                       Values(map["NewSoftwareVersion" := "12345", "NewSerialNumber" := "ABCDE"])];
    assert Call(Session(table), DeviceInfoCapability.SERVICE_ACTION).data == table[DeviceInfoCapability.SERVICE_ACTION].values;
  }

  /**
   * Construction, discovery, adding to the collection and scraping for the
   * devices of tests/test_device.py:128-182, which answer DeviceInfo1 with its
   * identity and everything else with an empty mapping.
   */
  method NameAfterDiscovery()
  {
    var info := map["NewModelName" := "MockedFritzBox", "NewSoftwareVersion" := "v1.2.3.4", "NewSerialNumber" := "ABCDE"];
    var table := Table(Values(info), Values(map[]));
    var conn := Session(table);
    assert Call(conn, DeviceInfoCapability.SERVICE_ACTION) == Response(info);
    assert Call(conn, WanDslInfoCapability.SERVICE_ACTION) == Response(map[]);
    DiscoveredInRegistryOrder(conn);
    IdentityAfterDiscovery(conn, Initial("fritz.box"));

    var box := new Device.FritzBox(Device.DeviceConfig("MyFritz!Box", "fritz.box"), table, false);
    assert box.name == "MockedFritzBox";
    assert box.capabilities == [DeviceInfo, WanDslInfo];

    var skipped := new Device.FritzBox(Device.DeviceConfig("MyFritz!Box", "fritz.box"), table, true);
    assert skipped.capabilities == [] && skipped.name == "fritz.box" && skipped.serialno == UNKNOWN;

    var collection := new Device.FritzBoxCollection();
    collection.Add(skipped);
    assert collection.boxes == [];
    collection.Add(box);
    assert collection.boxes == [box];
    assert collection.Collect() == box.GetAllMetricValues();

    box.Disconnect();
    MetricsOfDisconnected(box.capabilities, box.CurrentIdentity());
    assert collection.Collect() == [];
  }
}

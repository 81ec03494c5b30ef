/**
 * The DeviceInfo capability (fritz_node_exporter/capabilities/device_info.py):
 * service "DeviceInfo1", action "GetInfo".  It is supported when the device
 * reports its model name, software version and serial number, and it reports
 * the device's uptime as a counter.
 *
 * The functions here are pure in the device's connection.  The identity write
 * that `is_supported` performs on the device is `Device.FritzBox.IsSupported`,
 * which assigns `ReportedIdentity`.
 */
module DeviceInfoCapability {
  import opened Wrappers
  import opened Utils
  import opened Remote
  import opened Identities
  import opened Metrics

  const SERVICE_ACTION := ServiceAction("DeviceInfo1", "GetInfo")

  const UPTIME_LABELS := ["modelname", "softwareversion", "serialno"]

  /** The record `_query` builds from the response. */
  datatype MetricData = MetricData(modelname: Option<string>, swversion: Option<string>, serialNo: Option<string>, uptime: int) {

    /** `any_is_none`: one of the three identity fields is missing. */
    predicate AnyIsNone() {
      modelname.None? || swversion.None? || serialNo.None?
    }
  }

  /** Python's `str()` of what `dict.get` returned: `None` prints as "None". */
  function PyStr(v: Option<string>): string {
    match v
    case Some(s) => s
    case None => "None"
  }

  function FromResponse(data: map<string, string>): MetricData {
    MetricData(
      Get(data, "NewModelName"),
      Get(data, "NewSoftwareVersion"),
      Get(data, "NewSerialNumber"),
      SafeStrToInt(Some(PyStr(Get(data, "NewUpTime")))))
  }

  /** `_query`: `None` when the call returns `None` or raises `CallException`. */
  function Query(conn: Connection): (r: Option<MetricData>)
    ensures r.Some? <==> Call(conn, SERVICE_ACTION).Response?
  {
    match Call(conn, SERVICE_ACTION)
    case Response(data) => Some(FromResponse(data))
    case Disconnected => None
    case CallException(_) => None
  }

  /** What `is_supported` returns. */
  predicate IsSupported(conn: Connection) {
    Query(conn).Some? && !Query(conn).value.AnyIsNone()
  }

  /** The identity `is_supported` writes to the device when it returns true. */
  function ReportedIdentity(conn: Connection): Identity
    requires IsSupported(conn)
  {
    var md := Query(conn).value;
    Identity(md.modelname.value, md.swversion.value, md.serialNo.value)
  }

  /** `get_metrics`: the uptime counter, or nothing when the query yields `None`. */
  function GetMetrics(conn: Connection): (r: seq<MetricFamily>)
    ensures r == [] <==> !Call(conn, SERVICE_ACTION).Response?
    ensures |r| <= 1
    ensures forall f :: f in r ==>
      && f.kind == Counter && f.name == "fritz_uptime" && f.unit == "seconds"
      && f.labelNames == UPTIME_LABELS && |f.samples| == 1 && WellLabelled(f)
  {
    match Query(conn)
    case None => []
    case Some(md) =>
      [MetricFamily(Counter, "fritz_uptime", "Fritz!Box uptime", "seconds", UPTIME_LABELS,
                    [Sample([md.modelname, md.swversion, md.serialNo], md.uptime)])]
  }

  // ---------------------------------------------------------------------

  /**
   * DeviceInfo is supported exactly when the call returns a mapping holding
   * all three of NewModelName, NewSoftwareVersion and NewSerialNumber; the
   * identity it reports is theirs.
   */
  lemma SupportedIff(conn: Connection)
    ensures IsSupported(conn) <==>
      && Call(conn, SERVICE_ACTION).Response?
      && var data := Call(conn, SERVICE_ACTION).data;
      && "NewModelName" in data && "NewSoftwareVersion" in data && "NewSerialNumber" in data
    ensures IsSupported(conn) ==>
      var data := Call(conn, SERVICE_ACTION).data;
      ReportedIdentity(conn) == Identity(data["NewModelName"], data["NewSoftwareVersion"], data["NewSerialNumber"])
  {
  }

  /** The uptime field never decides support. */
  lemma UptimeDoesNotGateSupport(data: map<string, string>, uptime: string)
    ensures FromResponse(data).AnyIsNone() == FromResponse(data - {"NewUpTime"}).AnyIsNone()
    ensures FromResponse(data).AnyIsNone() == FromResponse(data["NewUpTime" := uptime]).AnyIsNone()
  {
  }

  /** A missing uptime reads as 0: `str(None)` is "None", which `int()` rejects. */
  lemma MissingUptimeIsZero(data: map<string, string>)
    requires "NewUpTime" !in data
    ensures FromResponse(data).uptime == 0
  {
    SafeStrToIntForeignChar("None", 0, 0);
  }

  /** An uptime the device prints as the integer `n` reads as `n`. */
  lemma UptimeValue(data: map<string, string>, n: int)
    requires "NewUpTime" in data && data["NewUpTime"] == IntToString(n)
    ensures FromResponse(data).uptime == n
  {
    SafeStrToIntRoundTrip(n, 0);
  }

  /**
   * On a response, the one uptime sample is labelled with the response's own
   * three fields (not the device's identity fields) and carries the uptime.
   */
  lemma UptimeSample(conn: Connection)
    requires Call(conn, SERVICE_ACTION).Response?
    ensures var data := Call(conn, SERVICE_ACTION).data;
      GetMetrics(conn)[0].samples[0] == Sample(
        [Get(data, "NewModelName"), Get(data, "NewSoftwareVersion"), Get(data, "NewSerialNumber")],
        FromResponse(data).uptime)
  {
  }

  /** When DeviceInfo is supported, its uptime sample is labelled with the identity it reports. */
  lemma UptimeLabelsAreReportedIdentity(conn: Connection)
    requires IsSupported(conn)
    ensures var id := ReportedIdentity(conn);
      GetMetrics(conn)[0].samples[0].labelValues == [Some(id.name), Some(id.swversion), Some(id.serialno)]
  {
  }
}

/**
 * The WanDslInfo capability (fritz_node_exporter/capabilities/wan_dsl_info.py):
 * service "WANDSLInterfaceConfig1", action "GetInfo".  It is supported when
 * the call returns a mapping, whatever the mapping holds, and it reports
 * whether the DSL link is up and the four line rates, labelled with the
 * device's identity.
 */
module WanDslInfoCapability {
  import opened Wrappers
  import opened Utils
  import opened Remote
  import opened Identities
  import opened Metrics

  const SERVICE_ACTION := ServiceAction("WANDSLInterfaceConfig1", "GetInfo")

  const ENABLED_LABELS := ["modelname", "softwareversion", "serialno"]
  const RATE_LABELS := ["modelname", "softwareversion", "serialno", "direction", "type"]

  /** The record `_query` builds from the response. */
  datatype MetricData = MetricData(
    dslIsUp: bool,
    downstreamCurrentRate: int,
    downstreamMaxRate: int,
    upstreamCurrentRate: int,
    upstreamMaxRate: int)

  function FromResponse(data: map<string, string>): MetricData {
    MetricData(
      Get(data, "NewStatus") == Some("Up"),
      SafeStrToInt(Get(data, "NewDownstreamCurrRate")),
      SafeStrToInt(Get(data, "NewDownstreamMaxRate")),
      SafeStrToInt(Get(data, "NewUpstreamCurrRate")),
      SafeStrToInt(Get(data, "NewUpstreamMaxRate")))
  }

  /** `_query`: `None` when the call returns `None` or raises `CallException`. */
  function Query(conn: Connection): (r: Option<MetricData>)
    ensures r.Some? <==> Call(conn, SERVICE_ACTION).Response?
  {
    match Call(conn, SERVICE_ACTION)
    case Response(data) => Some(FromResponse(data))
    case Disconnected => None
    case CallException(_) => None
  }

  /** What `is_supported` returns. */
  predicate IsSupported(conn: Connection) {
    Query(conn).Some?
  }

  /** The label values every sample starts with: the device's identity at scrape time. */
  function IdentityLabels(id: Identity): seq<Option<string>> {
    [Some(id.name), Some(id.swversion), Some(id.serialno)]
  }

  /** `get_metrics`: the `fritz_dsl_enabled` and `fritz_dsl_rate` gauges, or nothing when the query yields `None`. */
  function GetMetrics(conn: Connection, id: Identity): (r: seq<MetricFamily>)
    ensures r == [] <==> !Call(conn, SERVICE_ACTION).Response?
    ensures r != [] ==>
      && |r| == 2
      && r[0].kind == Gauge && r[0].name == "fritz_dsl_enabled" && r[0].unit == ""
      && r[0].labelNames == ENABLED_LABELS && |r[0].samples| == 1
      && r[1].kind == Gauge && r[1].name == "fritz_dsl_rate" && r[1].unit == "kbps"
      && r[1].labelNames == RATE_LABELS && |r[1].samples| == 4
    ensures forall f :: f in r ==> WellLabelled(f)
  {
    match Query(conn)
    case None => []
    case Some(md) =>
      var who := IdentityLabels(id);
      [ MetricFamily(Gauge, "fritz_dsl_enabled", "Fritz!Box DSL enabled", "", ENABLED_LABELS,
                     [Sample(who, if md.dslIsUp then 1 else 0)]),
        MetricFamily(Gauge, "fritz_dsl_rate", "Fritz!Box DSL data rate", "kbps", RATE_LABELS,
                     [ Sample(who + [Some("up"), Some("current")], md.upstreamCurrentRate),
                       Sample(who + [Some("up"), Some("max")], md.upstreamMaxRate),
                       Sample(who + [Some("down"), Some("current")], md.downstreamCurrentRate),
                       Sample(who + [Some("down"), Some("max")], md.downstreamMaxRate) ]) ]
  }

  // ---------------------------------------------------------------------

  /** The order of the four rate samples: (up, current), (up, max), (down, current), (down, max). */
  function RateKey(k: nat): (string, string)
    requires k < 4
  {
    [("up", "current"), ("up", "max"), ("down", "current"), ("down", "max")][k]
  }

  /** The response field each (direction, type) pair is read from. */
  function RateField(direction: string, rateType: string): string {
    if direction == "up" then
      (if rateType == "current" then "NewUpstreamCurrRate" else "NewUpstreamMaxRate")
    else
      (if rateType == "current" then "NewDownstreamCurrRate" else "NewDownstreamMaxRate")
  }

  /** WanDslInfo is supported exactly when the call returns a mapping; an empty one counts. */
  lemma SupportedIff(conn: Connection)
    ensures IsSupported(conn) <==> Call(conn, SERVICE_ACTION).Response?
    ensures conn.Session? && SERVICE_ACTION in conn.table && conn.table[SERVICE_ACTION] == Values(map[]) ==> IsSupported(conn)
  {
  }

  /** The link counts as up exactly when NewStatus is the string "Up". */
  lemma DslIsUpIff(data: map<string, string>)
    ensures FromResponse(data).dslIsUp <==> "NewStatus" in data && data["NewStatus"] == "Up"
  {
  }

  /**
   * On a response, `fritz_dsl_enabled` is 1 exactly when the link is up and 0
   * otherwise, and the k-th rate sample is labelled with the k-th
   * (direction, type) pair and carries `safe_str_to_int` of that pair's field.
   */
  lemma {:induction false} SampleValues(conn: Connection, id: Identity)
    requires Call(conn, SERVICE_ACTION).Response?
    ensures var data := Call(conn, SERVICE_ACTION).data;
      var r := GetMetrics(conn, id);
      && r[0].samples[0].value == (if FromResponse(data).dslIsUp then 1 else 0)
      && forall k :: 0 <= k < 4 ==>
           && r[1].samples[k].labelValues[3..] == [Some(RateKey(k).0), Some(RateKey(k).1)]
           && r[1].samples[k].value == SafeStrToInt(Get(data, RateField(RateKey(k).0, RateKey(k).1)))
  {
    var r := GetMetrics(conn, id);
    var who := IdentityLabels(id);
    forall k | 0 <= k < 4
      ensures r[1].samples[k].labelValues[3..] == [Some(RateKey(k).0), Some(RateKey(k).1)]
    {
      assert r[1].samples[k].labelValues == who + [Some(RateKey(k).0), Some(RateKey(k).1)];
    }
  }

  /** Every sample's first three label values are the device's name, software version and serial number. */
  lemma {:induction false} SamplesCarryIdentity(conn: Connection, id: Identity)
    ensures forall f, s :: f in GetMetrics(conn, id) && s in f.samples ==>
      s.labelValues[..3] == IdentityLabels(id)
  {
    var r := GetMetrics(conn, id);
    var who := IdentityLabels(id);
    forall f, s | f in r && s in f.samples
      ensures s.labelValues[..3] == who
    {
      if s !in r[0].samples {
        var k :| 0 <= k < 4 && s == r[1].samples[k];
        assert s.labelValues == who + [Some(RateKey(k).0), Some(RateKey(k).1)];
      }
    }
  }

  /** A rate field that is missing or not an integer reads as 0, without an error. */
  lemma UnreadableRateIsZero(data: map<string, string>, direction: string, rateType: string)
    requires var field := RateField(direction, rateType);
      field !in data || ParseInt(data[field]).None?
    ensures var md := FromResponse(data);
      0 == if direction == "up" then
             (if rateType == "current" then md.upstreamCurrentRate else md.upstreamMaxRate)
           else
             (if rateType == "current" then md.downstreamCurrentRate else md.downstreamMaxRate)
  {
  }
}

# fritz_node_exporter: capability discovery and metric mapping, in Dafny

This project models the capability-discovery and metric-collection core of
fritz_node_exporter. The exporter is a Prometheus exporter for Fritz!Box
routers. The model covers four things:

- A `FritzBox` device calls remote service/actions through its session and
  discovers which capabilities it supports, walking the registry
  `[DeviceInfo, WanDslInfo]` once.
- The DeviceInfo capability writes the device's name, software version and
  serial number when its check succeeds.
- On each scrape, each discovered capability turns one remote answer into
  metric families.
- A `FritzBoxCollection` keeps only devices with at least one capability and
  concatenates their metrics.

Number fields are read with `safe_str_to_int`. It is modelled as
Python's `int()` (`Utils.ParseInt`) plus a default. Lemmas about it state the
round trip `int(str(n)) == n` and the grammar of what `int()` accepts. They
also state that everything else reads as the default. The interpreter's
limit on the number of digits is not modelled (see "Left out").

The remote side is an oracle. A `Remote.Connection` is either no session or
a session with a response table. The table maps each `ServiceAction` to a
mapping of string values or to one of fritzconnection's two protocol
errors, `FritzServiceError` and `FritzActionError`. A pair the table does
not list fails as fritzconnection reports it: an unknown service gives
`FritzServiceError` and an unknown action of a known service gives
`FritzActionError`. `Remote.Call` is `FritzBox.call`. It returns the mapping,
returns `Disconnected` for `None`, or returns `CallException` carrying the
cause.

Layout, one module per source file:

- `utils.dfy` (`Utils`): utils.py.
- `remote.dfy` (`Remote`): service_action.py and `FritzBox.call`.
- `identities.dfy` (`Identities`): the identity defaults.
- `metrics.dfy` (`Metrics`): prometheus metric families as values.
- `device_info.dfy` (`DeviceInfoCapability`) and `wan_dsl_info.dfy`
  (`WanDslInfoCapability`): the two capability files.
- `capabilities.dfy` (`Capabilities`): capability.py as a closed datatype,
  the registry of capabilities/__init__.py, and the specification functions
  of discovery (`Discover`, `IdentityAfter`) and of a device's metrics
  (`MetricsOf`).
- `device.dfy` (`Device`): the classes `FritzBox` and `FritzBoxCollection`.
- `scenarios.dfy` (`Scenarios`): end-to-end lemmas and one client method.

The capability modules are pure functions of the device's connection. In
Python, `is_supported(device)` writes the device's identity. In the model
that write is `Device.FritzBox.IsSupported`, a method whose `modifies`
clause names only the three identity fields. Dafny modules cannot depend on
each other in a cycle, which the Python code avoids with `TYPE_CHECKING`.

Two points where the model follows the code rather than a reading of it:

- tests/test_device.py:106-125 (`test_failed_discovery`) answers every call
  with `{}` and expects no capabilities. The code keeps WanDslInfo in that
  case: its `_query` builds a record from any mapping, so `is_supported` is
  true. `Scenarios.EmptyAnswers` proves what the code does: `[WanDslInfo]` is
  discovered, the identity keeps its defaults, and a scrape reports the link
  down with every rate 0. That device passes `FritzBoxCollection.add`.
- The DeviceInfo uptime sample is labelled with the three fields of the
  response it just got, not with the device's identity fields.
  `DeviceInfoCapability.UptimeLabelsAreReportedIdentity` shows that the two
  agree when the capability is supported.

## Model

| member | source | states |
|---|---|---|
| Utils.ParseDigitsCorrect | fritz_node_exporter/utils.py:10-11 | The digit scanner behind `int()` accepts exactly the strings of digits in which every underscore stands between two digits. It returns their place value, underscores ignored. |
| Utils.ParseInt | fritz_node_exporter/utils.py:11 | `int(s)` for a string: strip space and tab to carriage return, then an optional sign and the digit grammar; `None` where `int` raises `ValueError`. Its meaning is stated by the lemmas below. |
| Utils.SafeStrToInt | fritz_node_exporter/utils.py:5-14 | `None` gives the default; otherwise `int(s)` when it succeeds and the default when it raises. Its meaning is stated by the lemmas below. |
| Utils.ParseIntRoundTrip | fritz_node_exporter/utils.py:10-11 | `int(str(n)) == n` for every integer, negative ones included, with no limit on the number of digits. |
| Utils.SafeStrToIntRoundTrip | fritz_node_exporter/utils.py:5-14 | `safe_str_to_int` of the decimal rendering of any integer is that integer, whatever the default. |
| Utils.ParseIntComplete | fritz_node_exporter/utils.py:10-11 | Whitespace (space, tab to carriage return), an optional `+` or `-`, well-formed digits and whitespace again convert to the signed value of the digits. |
| Utils.ParseIntSound | fritz_node_exporter/utils.py:10-13 | Whatever `int()` accepts is, once stripped of space and tab to carriage return, an optional sign followed by well-formed digits, and the result is their signed value. |
| Utils.SafeStrToIntForeignChar | fritz_node_exporter/utils.py:12-14 | A string with any character that is not a digit, underscore, sign or whitespace gives the default, without an error. |
| Utils.SafeStrToIntBlank | fritz_node_exporter/utils.py:12-14 | The empty string, and a string of whitespace alone, give the default. |
| Utils.SeparatorIsNotPadding | fritz_node_exporter/utils.py:10-13 | A number preceded by U+001C, or followed by U+001F, gives the default: `int()` does not skip the information separators, although `str.isspace()` accepts them. |
| Utils.SafeStrToIntMissing | fritz_node_exporter/utils.py:5-8 | `None` gives the default, and the default is 0 unless one is given. |
| Utils.StripSpaces | fritz_node_exporter/utils.py:10 | Stripping removes exactly the surrounding whitespace (space, tab to carriage return) of a string whose ends are not whitespace, as `int()` does with an ASCII string before reading. |
| Remote.Call | fritz_node_exporter/device.py:36-66 | No session gives `Disconnected` (`None`), not an error. With a session, a listed mapping is returned unchanged. A listed service or action error, or a pair the device does not know, becomes the one `CallException` kind, carrying the listed error as its cause. |
| Remote.Get | fritz_node_exporter/capabilities/device_info.py:87-90 | `dict.get`: a value exactly when the key is present, and then the stored one. |
| Identities.Initial | fritz_node_exporter/device.py:28-30 | Before any capability writes it, the identity is the configured host name, and "UNKNOWN" as software version and serial number. |
| DeviceInfoCapability.MetricData.AnyIsNone | fritz_node_exporter/capabilities/device_info.py:27-31 | `any_is_none`: one of model name, software version and serial number is missing. |
| DeviceInfoCapability.FromResponse | fritz_node_exporter/capabilities/device_info.py:86-91 | The record built from a mapping: the three fields as `dict.get` returns them, and the uptime as `safe_str_to_int(str(...))`. Characterised by UptimeDoesNotGateSupport, MissingUptimeIsZero and UptimeValue. |
| DeviceInfoCapability.IsSupported | fritz_node_exporter/capabilities/device_info.py:43-56 | A record was built and none of its three identity fields is missing. Characterised by SupportedIff. |
| DeviceInfoCapability.Query | fritz_node_exporter/capabilities/device_info.py:80-93 | Queries DeviceInfo1/GetInfo. The record is absent exactly when that call gives no mapping, whether it returned `None` or raised `CallException`. |
| DeviceInfoCapability.SupportedIff | fritz_node_exporter/capabilities/device_info.py:27-54 | DeviceInfo is supported exactly when the call returns a mapping holding NewModelName, NewSoftwareVersion and NewSerialNumber. The identity it reports is those three values. |
| DeviceInfoCapability.UptimeDoesNotGateSupport | fritz_node_exporter/capabilities/device_info.py:47-49 | Removing or replacing NewUpTime never changes whether a field is missing. |
| DeviceInfoCapability.MissingUptimeIsZero | fritz_node_exporter/capabilities/device_info.py:90 | A missing uptime reads as 0, since `str(None)` is not an integer. |
| DeviceInfoCapability.UptimeValue | fritz_node_exporter/capabilities/device_info.py:90 | An uptime the device prints as `n` reads as `n`. |
| DeviceInfoCapability.GetMetrics | fritz_node_exporter/capabilities/device_info.py:58-78 | Nothing when the query yields `None`. Otherwise exactly one counter family `fritz_uptime`, unit "seconds", labels modelname, softwareversion, serialno, with one sample that has a value per label. |
| DeviceInfoCapability.UptimeSample | fritz_node_exporter/capabilities/device_info.py:69-76 | The one sample carries the response's own three fields as label values (possibly `None`) and the uptime as value. |
| DeviceInfoCapability.UptimeLabelsAreReportedIdentity | fritz_node_exporter/capabilities/device_info.py:50-54 | When DeviceInfo is supported, its sample's labels are exactly the identity its check writes to the device. |
| WanDslInfoCapability.FromResponse | fritz_node_exporter/capabilities/wan_dsl_info.py:107-115 | The record built from a mapping: link up when NewStatus is "Up", and the four rates through `safe_str_to_int`. Characterised by DslIsUpIff and UnreadableRateIsZero. |
| WanDslInfoCapability.IsSupported | fritz_node_exporter/capabilities/wan_dsl_info.py:36-43 | A record was built. Characterised by SupportedIff. |
| WanDslInfoCapability.Query | fritz_node_exporter/capabilities/wan_dsl_info.py:101-117 | Queries WANDSLInterfaceConfig1/GetInfo. The record is absent exactly when that call gives no mapping. |
| WanDslInfoCapability.SupportedIff | fritz_node_exporter/capabilities/wan_dsl_info.py:36-43 | WanDslInfo is supported exactly when the call returns a mapping, whatever it holds. An empty mapping counts. |
| WanDslInfoCapability.DslIsUpIff | fritz_node_exporter/capabilities/wan_dsl_info.py:108 | The link is up exactly when NewStatus is present and equal to "Up". |
| WanDslInfoCapability.UnreadableRateIsZero | fritz_node_exporter/capabilities/wan_dsl_info.py:109-114 | A rate field that is missing or not an integer reads as 0. |
| WanDslInfoCapability.GetMetrics | fritz_node_exporter/capabilities/wan_dsl_info.py:45-99 | Nothing when the query yields `None`. Otherwise exactly two gauge families in order: `fritz_dsl_enabled` without a unit and with one sample, then `fritz_dsl_rate` with unit "kbps", labels ending in direction and type, and four samples. Every sample has a value per label. |
| WanDslInfoCapability.SampleValues | fritz_node_exporter/capabilities/wan_dsl_info.py:71-94 | `fritz_dsl_enabled` is 1 exactly when the link is up, else 0. The k-th rate sample is labelled (up, current), (up, max), (down, current), (down, max) in that order and carries `safe_str_to_int` of the matching response field. |
| WanDslInfoCapability.SamplesCarryIdentity | fritz_node_exporter/capabilities/wan_dsl_info.py:71-94 | Every sample's first three label values are the device's name, software version and serial number at scrape time. |
| Capabilities.NoResponseNoCapability | fritz_node_exporter/capabilities/device_info.py:43-93 | For either capability, a call that gives no mapping means unsupported, the identity left alone, and no metrics: the `None` returns of `_query`, `is_supported` and `get_metrics` in device_info.py (47-49, 69-71, 82-85) and wan_dsl_info.py (40-43, 66-68, 103-105). |
| Capabilities.Discover | fritz_node_exporter/device.py:94-108 | The capabilities of a list that are supported, in list order; the specification of the discovery loop. Characterised by DiscoverAppend, DiscoverMembers, DiscoverLength and DiscoveredInRegistryOrder. |
| Capabilities.DiscoverAppend | fritz_node_exporter/device.py:94-108 | Discovery over a concatenated list is the concatenation of the discoveries, so it keeps list order. |
| Capabilities.DiscoverMembers | fritz_node_exporter/device.py:94-108 | A capability is discovered exactly when it is listed and supported. |
| Capabilities.DiscoverLength | fritz_node_exporter/device.py:94-108 | Discovery never grows the list it walks. |
| Capabilities.DiscoveredInRegistryOrder | fritz_node_exporter/capabilities/__init__.py:6 | Discovering the registry gives DeviceInfo if supported, then WanDslInfo if supported, in that order. |
| Capabilities.DiscoveredNoneIff | fritz_node_exporter/device.py:145-148 | A device ends discovery without capabilities exactly when no registered capability is supported. |
| Capabilities.IdentityAfterDiscovery | fritz_node_exporter/capabilities/device_info.py:43-56 | After discovery the identity is the one DeviceInfo reports if it is supported, and otherwise the identity before discovery. |
| Capabilities.MetricsOf | fritz_node_exporter/device.py:150-152 | Every family a device reports gives each sample one value per label name. |
| Capabilities.MetricsOfAppend | fritz_node_exporter/device.py:150-152 | A device's metrics over a concatenated capability list are the concatenation of the metrics, in capability order. |
| Capabilities.MetricsOfMembers | fritz_node_exporter/device.py:150-152 | A family is reported exactly when one of the device's capabilities reports it. |
| Capabilities.MetricsOfDisconnected | fritz_node_exporter/device.py:38-44 | Without a session, a device reports no metrics, whatever it discovered. |
| Device.FritzBox.constructor | fritz_node_exporter/device.py:23-34 | With discovery skipped, no capabilities and the default identity. Otherwise the capabilities are the registry filtered by support, and the identity is what discovery leaves, starting from the defaults. |
| Device.FritzBox.DiscoverCapabilities | fritz_node_exporter/device.py:92-108 | The loop only appends. Afterwards the capabilities are the old ones followed by the supported registry entries in registry order, and the identity is what checking each entry in turn leaves. |
| Device.FritzBox.IsSupported | fritz_node_exporter/capabilities/device_info.py:43-56 | Returns whether the capability is supported. Only a successful DeviceInfo check writes name, software version and serial number, and nothing else of the device changes. |
| Device.FritzBox.Disconnect | tests/test_device.py:48 | The session becomes absent. |
| Device.FritzBox.HasCapabilities | fritz_node_exporter/device.py:145-148 | At least one capability was discovered. |
| Device.FritzBox.GetAllMetricValues | fritz_node_exporter/device.py:150-152 | The device's metrics over its capabilities and current identity; every family gives each sample one value per label name. |
| Device.Gather | fritz_node_exporter/device.py:170-172 | Every family collected from a list of devices gives each sample one value per label name, which needs the same fact of every remaining device. |
| Device.GatherAppend | fritz_node_exporter/device.py:170-172 | Collecting over one more device appends that device's metrics. |
| Device.FritzBoxCollection.constructor | fritz_node_exporter/device.py:156-157 | A new collection holds no device, and collecting from it yields nothing. |
| Device.FritzBoxCollection.Collect | fritz_node_exporter/device.py:170-172 | One scrape over the held devices, in the order they were added; every family it yields is well labelled. |
| Device.FritzBoxCollection.Add | fritz_node_exporter/device.py:159-168 | Appends the device exactly when it has capabilities, and otherwise leaves the list unchanged. The next scrape yields the old metrics followed by the new device's. No held device lacks capabilities. |
| Scenarios.FullAnswers | fritz_node_exporter/device.py:92-152 | Full answers to both queries: both capabilities are discovered, the identity is the reported one, and a scrape yields the uptime, the link state and the four rates, all labelled with that identity. |
| Scenarios.FullAnswersExample | fritz_node_exporter/device.py:92-152 | A FritzBox7590 with software v7.50, serial ABC123, uptime 100, link up and rates 1000, 2000, 5000 and 10000 reports exactly those values. |
| Scenarios.EmptyAnswers | tests/test_device.py:106-125 | Empty answers everywhere: the code discovers WanDslInfo (not nothing, as that test expects). The identity keeps its defaults, and a scrape reports 0 for the link and every rate. |
| Scenarios.WanDslCallFails | fritz_node_exporter/capabilities/wan_dsl_info.py:101-117 | A protocol error on the WANDSLInterfaceConfig1 query: only DeviceInfo is kept, and a scrape yields the uptime alone. |
| Scenarios.MissingModelNameUnsupported | tests/capability/test_device_info.py:38-58 | A DeviceInfo answer without NewModelName is unsupported and leaves the identity as it was. |
| Scenarios.NameAfterDiscovery | tests/test_device.py:128-182 | For the device that answers DeviceInfo1 with its identity and everything else with `{}`: discovery sets the name and keeps both capabilities, skipped discovery keeps none and the defaults, the collection refuses the skipped device and keeps the other, and after the session is lost a scrape yields nothing. |

## Left out

- Opening the connection (`_connect`, fritz_node_exporter/device.py:68-90) and its `ConnectionError`: this is network code in fritzconnection. The constructor receives the session's response table instead, so it models only a successful connection. The user name and password of the configuration are not modelled for the same reason.
- What the device answers does not change during a session. A real device's uptime grows between scrapes; in the model, a later answer would need a new table.
- fritzconnection can return values that are not strings. The model's answers hold strings only, so `str()` of the uptime matters only for a missing field.
- Generators are finite sequences. Python runs each capability's remote call lazily while the scrape is consumed. With a fixed table the order of the calls cannot change the result.
- The blanket `except Exception` of both `get_metrics`: with the table oracle, nothing in those bodies raises except `CallException`, which `_query` already catches. `call` (fritz_node_exporter/device.py:57) wraps only `FritzServiceError` and `FritzActionError`. Any other exception from `call_action`, such as a transport error, escapes `is_supported` and makes construction fail, while `get_metrics` swallows it. The response table cannot produce such an exception, so neither path is modelled.
- Utils.ParseInt: Python's `int()` skips only space and tab to carriage return among the ASCII characters, and the model does the same for every string. U+001C to U+001F are rejected in any string, as in the model. `int()` first turns every non-ASCII character that `str.isspace()` accepts into a space, and every non-ASCII decimal digit into its ASCII digit, copying ASCII characters unchanged. The model does not do this, so a string with non-ASCII whitespace or digits that `int()` accepts gives the default.
- Utils.ParseIntRoundTrip: states the round trip for integers of any length. CPython 3.11 and later, and the 3.7.14, 3.8.14, 3.9.14 and 3.10.7 releases, refuse to convert strings of more than 4300 digits by default (`sys.set_int_max_str_digits`); `int()` then raises `ValueError` and `safe_str_to_int` returns the default. The limit is an interpreter setting, not part of the source.
- Utils.SafeStrToIntRoundTrip: the same interpreter digit limit is not modelled.
- Utils.ParseIntComplete: the same interpreter digit limit is not modelled.
- prometheus_client: the serialisation, and its renaming of a family by its unit (`fritz_uptime` becomes `fritz_uptime_seconds`), are library behaviour. The model keeps the name, help text, unit, label names and samples as they are passed.
- Logging: every log call is left out, since none affects a result.
- fritz_node_exporter/__main__.py (argument parsing, the single-call debug path, the HTTP server and the event loop), config.py and call_helper.py are process setup and I/O, not part of this model.
- `Device.FritzBox.Disconnect` is not an operation of the source: the test at tests/test_device.py:48 clears the session field directly, and the model gives that write a name.

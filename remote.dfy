/**
 * The remote-call boundary of a Fritz!Box: a service/action pair
 * (fritz_node_exporter/service_action.py), what the device answers, and
 * `FritzBox.call` of fritz_node_exporter/device.py, which turns that answer
 * into a result mapping, "no data" or the uniform `CallException`.
 *
 * The fritzconnection library is replaced by a response table: for each
 * service/action the device either returns a mapping of named string values
 * or fails with one of the library's two protocol errors.
 */
module Remote {
  import opened Wrappers

  datatype ServiceAction = ServiceAction(service: string, action: string)

  /** The two protocol errors of fritzconnection that `call` wraps. */
  datatype FritzError = ServiceError | ActionError

  datatype Answer = Values(values: map<string, string>) | Fails(error: FritzError)

  type ResponseTable = map<ServiceAction, Answer>

  /** `_fritz_connection`: a session with its response table, or none. */
  datatype Connection = NoSession | Session(table: ResponseTable)

  /**
   * What `call` does: return a mapping, return `None` (`Disconnected`), or
   * raise `CallException` carrying the library error as its cause.
   */
  datatype CallOutcome = Disconnected | Response(data: map<string, string>) | CallException(cause: FritzError)

  /**
   * What the device answers to `sa`.  fritzconnection reports a service the
   * device does not offer as `FritzServiceError` and an action its service does
   * not offer as `FritzActionError`.
   */
  function AnswerTo(table: ResponseTable, sa: ServiceAction): Answer {
    if sa in table then table[sa]
    else if exists k | k in table :: k.service == sa.service then Fails(ActionError)
    else Fails(ServiceError)
  }

  /** `FritzBox.call(service_action)`. */
  function Call(conn: Connection, sa: ServiceAction): (r: CallOutcome)
    ensures r.Disconnected? <==> conn.NoSession?
    ensures r.Response? <==> conn.Session? && sa in conn.table && conn.table[sa].Values?
    ensures r.Response? ==> r.data == conn.table[sa].values
    ensures conn.Session? && sa in conn.table && conn.table[sa].Fails? ==> r == CallException(conn.table[sa].error)
    ensures conn.Session? && sa !in conn.table ==> r.CallException?
  {
    match conn
    case NoSession => Disconnected
    case Session(table) =>
      match AnswerTo(table, sa)
      case Values(m) => Response(m)
      case Fails(e) => CallException(e)
  }

  /** `dict.get(key)`. */
  function Get(m: map<string, string>, key: string): (r: Option<string>)
    ensures r.Some? <==> key in m
    ensures r.Some? ==> r.value == m[key]
  {
    if key in m then Some(m[key]) else None
  }
}

/** The identity a `FritzBox` reports in its metric labels (fritz_node_exporter/device.py). */
module Identities {

  datatype Identity = Identity(name: string, swversion: string, serialno: string)

  const UNKNOWN := "UNKNOWN"

  /** Identity before any capability writes it: the configured host name, and "UNKNOWN" twice. */
  function Initial(hostname: string): (id: Identity)
    ensures id.name == hostname && id.swversion == UNKNOWN && id.serialno == UNKNOWN
  {
    Identity(hostname, UNKNOWN, UNKNOWN)
  }
}

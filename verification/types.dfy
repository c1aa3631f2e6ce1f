/**
  The values the GROOT front end works on: the C integer widths it uses, node
  addresses, the four-flag sensor table and the query header as groot.c reads
  and writes it.
 */
module GrootTypes {

  /** `uint8_t` */
  newtype uint8 = x: int | 0 <= x < 0x100

  /** `uint16_t` */
  newtype uint16 = x: int | 0 <= x < 0x1_0000

  /** A Rime address (`rimeaddr_t`): its bytes. `rimeaddr_cmp` compares them
      byte by byte, which is equality of the sequences. */
  type Address = seq<uint8>

  /** The protocol version every GROOT header must carry (`GROOT_VERSION`). */
  const GROOT_VERSION: uint8 := 1

  /** The two magic bytes, the characters 'G' and 'T'. */
  const MAGIC_FIRST: uint8 := 'G' as int as uint8
  const MAGIC_SECOND: uint8 := 'T' as int as uint8

  /** `GROOT_SENSORS`: one `uint8_t` flag per sensor kind, non-zero meaning
      "present" (for a node) or "required" (for a query). */
  datatype Sensors = Sensors(co2: uint8, no: uint8, temp: uint8, humidity: uint8)

  /** The message types the receive handler dispatches on. Every other code
      of the header's type byte is `Other`. */
  datatype MessageType = Other | Subscribe | Unsubscribe | NewMote | Publish

  /** The protocol stamp at the front of every header. */
  datatype Protocol = Protocol(version: uint8, magic0: uint8, magic1: uint8)

  /** `GROOT_HEADER`, with the fields groot.c reads and writes. */
  datatype Header = Header(
    protocol: Protocol,
    isClusterHead: uint8,
    msgType: MessageType,
    queryId: uint16,
    sampleId: uint16,
    sampleRate: uint16,
    aggregator: uint8,
    sensorsRequired: Sensors,
    esender: Address)

  /** An entry of the query registry, as the registry search reads it: the
      query's id and the address of the sink that created it. */
  datatype QueryKey = QueryKey(queryId: uint16, esender: Address)
}

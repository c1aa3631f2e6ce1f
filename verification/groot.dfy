/**
  The GROOT protocol front end of groot.c: header validation, the registry
  search for duplicate queries, the construction of a Subscribe header and
  the dispatch of an inbound header on its message type.
 */
module Groot {
  import opened GrootTypes

  /** `is_groot_protocol`: 1 for a header stamped with the current version and
      the magic bytes 'G','T', 0 for any other stamp. */
  function IsGrootProtocol(hdr: Header): (ok: uint8)
    ensures ok == 0 || ok == 1
    ensures ok == 1 <==> hdr.protocol == Protocol(GROOT_VERSION, MAGIC_FIRST, MAGIC_SECOND)
  {
    if hdr.protocol.version != GROOT_VERSION then 0
    else if hdr.protocol.magic0 != MAGIC_FIRST || hdr.protocol.magic1 != MAGIC_SECOND then 0
    else 1
  }

  /** The composite key (query id, creating sink) is already in the registry:
      one entry matches on BOTH fields. */
  predicate Registered(queries: seq<QueryKey>, queryId: uint16, esender: Address)
  {
    exists i :: 0 <= i < |queries| && queries[i].queryId == queryId && queries[i].esender == esender
  }

  /** The registry search compares whole keys: matching on both fields is
      the same as the key being one of the registry's entries. */
  lemma RegisteredIsKeyMembership(queries: seq<QueryKey>, queryId: uint16, esender: Address)
    ensures Registered(queries, queryId, esender) <==> QueryKey(queryId, esender) in queries
  {
  }

  /** `copy_sensors`: overwrites the four flags of `target` with those of
      `origin`, one field at a time; returns the updated target. */
  method CopySensors(origin: Sensors, target: Sensors) returns (copied: Sensors)
    ensures copied == origin
  {
    copied := target;
    copied := copied.(co2 := origin.co2);
    copied := copied.(no := origin.no);
    copied := copied.(temp := origin.temp);
    copied := copied.(humidity := origin.humidity);
  }

  /** The header `groot_subscribe_snd` transmits for a query created by the
      node at `nodeAddr`. */
  function SubscribeHeader(queryId: uint16, sampleRate: uint16, dataRequired: Sensors,
                           aggregator: uint8, nodeAddr: Address): (hdr: Header)
    ensures IsGrootProtocol(hdr) == 1
    ensures hdr.msgType == Subscribe
    ensures QueryKey(hdr.queryId, hdr.esender) == QueryKey(queryId, nodeAddr)
  {
    Header(Protocol(GROOT_VERSION, MAGIC_FIRST, MAGIC_SECOND), 0, Subscribe,
           queryId, 0, sampleRate, aggregator, dataRequired, nodeAddr)
  }

  /** `groot_subscribe_snd`: fills an uninitialised header field by field and
      hands it to the transport; returns 0 together with that header. The
      node's own address, which the source reads from Rime, is a parameter. */
  method SubscribeSnd(queryId: uint16, sampleRate: uint16, dataRequired: Sensors,
                      aggregator: uint8, nodeAddr: Address) returns (status: int, hdr: Header)
    ensures status == 0
    ensures IsGrootProtocol(hdr) == 1
    ensures hdr.protocol.version == GROOT_VERSION
    ensures hdr.protocol.magic0 == MAGIC_FIRST && hdr.protocol.magic1 == MAGIC_SECOND
    ensures hdr.msgType == Subscribe
    ensures hdr.isClusterHead == 0 && hdr.sampleId == 0
    ensures hdr.queryId == queryId && hdr.sampleRate == sampleRate && hdr.aggregator == aggregator
    ensures hdr.sensorsRequired == dataRequired
    ensures hdr.esender == nodeAddr
    ensures hdr == SubscribeHeader(queryId, sampleRate, dataRequired, aggregator, nodeAddr)
  {
    // `GROOT_HEADER hdr;` is an automatic variable: its contents are indeterminate
    hdr := *;
    hdr := hdr.(protocol := hdr.protocol.(version := GROOT_VERSION));
    hdr := hdr.(protocol := hdr.protocol.(magic0 := MAGIC_FIRST));
    hdr := hdr.(protocol := hdr.protocol.(magic1 := MAGIC_SECOND));
    hdr := hdr.(isClusterHead := 0);
    hdr := hdr.(msgType := Subscribe);
    hdr := hdr.(queryId := queryId);
    hdr := hdr.(sampleId := 0);
    hdr := hdr.(sampleRate := sampleRate);
    hdr := hdr.(aggregator := aggregator);
    var required := CopySensors(dataRequired, hdr.sensorsRequired);
    hdr := hdr.(sensorsRequired := required);
    hdr := hdr.(esender := nodeAddr);
    status := 0;
  }

  /** What `groot_subscribe_rcv` answers for `hdr` against the registry
      `queries`: 1 when the header is accepted, 0 when it is dropped. */
  function ReceiveVerdict(queries: seq<QueryKey>, hdr: Header): (r: int)
    ensures r == 0 || r == 1
    ensures r == 1 <==>
      && IsGrootProtocol(hdr) == 1
      && hdr.msgType != Other
      && (hdr.msgType == Subscribe ==> !Registered(queries, hdr.queryId, hdr.esender))
  {
    if IsGrootProtocol(hdr) == 0 then 0
    else
      match hdr.msgType
      case Subscribe => if Registered(queries, hdr.queryId, hdr.esender) then 0 else 1
      case Unsubscribe => 1
      case NewMote => 1
      case Publish => 1
      case Other => 0
  }

  /** A Subscribe built by a sink is accepted by a receiving node exactly when
      that node has not yet registered the (query id, sink) key. */
  lemma SubscribeAcceptedIffNew(queries: seq<QueryKey>, queryId: uint16, sampleRate: uint16,
                                dataRequired: Sensors, aggregator: uint8, nodeAddr: Address)
    ensures ReceiveVerdict(queries, SubscribeHeader(queryId, sampleRate, dataRequired, aggregator, nodeAddr)) == 1
        <==> !Registered(queries, queryId, nodeAddr)
  {
  }

  /** With an empty registry, as `groot_init` leaves it, the verdict depends
      on the stamp and the type only. */
  lemma EmptyRegistryVerdict(hdr: Header)
    ensures ReceiveVerdict([], hdr) == 1 <==> IsGrootProtocol(hdr) == 1 && hdr.msgType != Other
  {
  }

  /** The node-wide state of groot.c: the sensors this node supports and the
      registry of known queries (`queries_list`). */
  class Groot {
    var supportedSensors: Sensors
    var queries: seq<QueryKey>

    /** The static storage before `groot_init` runs: all flags zero and an
        empty list. */
    constructor ()
      ensures supportedSensors == Sensors(0, 0, 0, 0)
      ensures queries == []
    {
      supportedSensors := Sensors(0, 0, 0, 0);
      queries := [];
    }

    /** `groot_init`: records the node's sensors and empties the registry. */
    method Init(sensors: Sensors)
      modifies this
      ensures supportedSensors == sensors
      ensures queries == []
    {
      supportedSensors := CopySensors(sensors, supportedSensors);
      queries := [];
    }

    /** `is_new_query`: a linear search of the registry; 0 when an entry has
        both the query id and the sink address, 1 otherwise. Reads only. */
    method IsNewQuery(queryId: uint16, esender: Address) returns (r: uint8)
      ensures r == 0 || r == 1
      ensures queries == [] ==> r == 1
      ensures r == 0 <==> Registered(queries, queryId, esender)
    {
      if |queries| == 0 {
        return 1;
      }
      var i := 0;
      while i < |queries|
        invariant 0 <= i <= |queries|
        invariant forall j :: 0 <= j < i ==> queries[j].queryId != queryId || queries[j].esender != esender
      {
        if queries[i].queryId == queryId && queries[i].esender == esender {
          return 0;
        }
        i := i + 1;
      }
      return 1;
    }

    /** `groot_subscribe_rcv` on an already decoded header: drops a header
        with a foreign stamp before looking at its type, drops a Subscribe
        for a known key and any unknown type, and accepts the rest. The
        registry is left as it was. */
    method SubscribeRcv(hdr: Header) returns (r: int)
      ensures r == ReceiveVerdict(queries, hdr)
    {
      if IsGrootProtocol(hdr) == 0 {
        return 0;
      }
      match hdr.msgType {
        case Subscribe =>
          var isNew := IsNewQuery(hdr.queryId, hdr.esender);
          if isNew == 0 {
            return 0;
          }
        case Unsubscribe =>
        case NewMote =>
        case Publish =>
        case Other =>
          return 0;
      }
      return 1;
    }
  }
}

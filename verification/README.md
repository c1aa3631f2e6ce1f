# GROOT protocol front end, modelled in Dafny

GROOT (in the Enfield repository) is a query-dissemination protocol for
Contiki sensor motes. A sink floods a *Subscribe* query naming the sensors it
wants, a sample rate and an aggregator. Every mote then checks the query
header and decides whether it has seen that query before. `groot.c` holds the
working part of this protocol:

- header validation: the protocol version must be 1 and the magic bytes
  'G','T';
- duplicate-query detection: a linear search of the query registry on the key
  (query id, address of the sink that created the query);
- the construction of the Subscribe header a sink broadcasts;
- the inbound handler, which validates a header and dispatches on its message
  type.

The model has three modules:

- `GrootTypes` (`types.dfy`): the C integer widths (`uint8`, `uint16`), Rime
  addresses, the four-flag `Sensors` table, the message types, the `Header`
  with the fields `groot.c` reads and writes, and the registry key `QueryKey`.
- `Groot` (`groot.dfy`): the functions of `groot.c`. The node-wide globals
  (`supported_sensors`, `queries_list`) are the fields of the class
  `Groot.Groot`. The specification functions `IsGrootProtocol`, `Registered`,
  `SubscribeHeader` and `ReceiveVerdict` state what the operations compute.
  The methods are proved against them.
- `GrootFindings` (`findings.dfy`): the registry loop of `is_new_query` as
  written, and the defect shown under Findings.

Notes on the source:

- `groot.h` declares a `groot_header` whose fields differ from the ones
  `groot.c` uses, and `GROOT_HEADER` is not defined in the files modelled.
  The model follows the fields `groot.c` reads and writes.
- `groot.h:10` defines `GROOT_VERSION` as `1` followed by a stray semicolon.
  The model takes the evident value 1.
- The message-type constants are not defined in the files modelled. They
  become the enumeration `MessageType`, where `Other` stands for every
  unrecognised code.
- The protocol design describes registry insertion, tree formation,
  aggregation and loop-guard checks. `groot.c` does none of these: the
  insertion at `groot.c:151` is only a comment, so the registry stays as
  `groot_init` left it. The model follows the code.

## Model

| member | source | states |
|---|---|---|
| `Groot.IsGrootProtocol` | groot.c:51-60 | Returns 0 or 1. It returns 1 exactly when the header's version is `GROOT_VERSION` and its magic bytes are 'G','T'. Any other version or magic byte gives 0. |
| `Groot.RegisteredIsKeyMembership` | groot.c:68-74 | Matching a registry entry on both query id and sink address is the same as the whole key being an entry of the registry. An entry that matches on only one field does not count. |
| `Groot.CopySensors` | groot.c:42-48 | After the copy, all four target flags (co2, no, temp, humidity) equal the origin's. The origin is a value, so it is unchanged. |
| `Groot.SubscribeHeader` | groot.c:99-117 | The Subscribe header a sink builds passes the protocol check. It has type Subscribe, and its registry key is (the query id argument, the sink's own address). |
| `Groot.SubscribeSnd` | groot.c:99-124 | Starting from an uninitialised header, the method sets version `GROOT_VERSION`, magic 'G','T', type Subscribe, `is_cluster_head` 0 and `sample_id` 0. It takes the query id, sample rate and aggregator from its arguments, sets the required sensors to `data_required` and `esender` to the node's address. The header passes `is_groot_protocol`, and the status returned is 0. |
| `Groot.ReceiveVerdict` | groot.c:127-172 | The verdict is 0 or 1. It is 1 exactly when the header passes the protocol check, its type is one of Subscribe, Unsubscribe, NewMote or Publish, and, for a Subscribe, the (query id, esender) key is not registered. |
| `Groot.SubscribeAcceptedIffNew` | groot.c:141-148 | A receiver accepts a sink's Subscribe header exactly when it has not registered that header's (query id, sink) key. |
| `Groot.EmptyRegistryVerdict` | groot.c:62-66 | On the empty registry that `groot_init` leaves, every correctly stamped header of a known type is accepted. |
| `Groot.Groot.constructor` | groot.c:12-16 | Before `groot_init` runs, the static globals hold all-zero sensor flags and an empty query list. |
| `Groot.Groot.Init` | groot.c:88-96 | After `groot_init`, `supported_sensors` equals the argument and the registry is empty. |
| `Groot.Groot.IsNewQuery` | groot.c:62-77 | The method returns 0 or 1, and returns 1 on an empty registry. It returns 0 exactly when some registry entry matches both the query id and the sink address. It changes no state. |
| `Groot.Groot.SubscribeRcv` | groot.c:127-172 | The result equals `ReceiveVerdict` on the current registry. A bad stamp gives 0 before the type is examined, and an unknown type gives 0. A Subscribe gives 0 for a known key and 1 otherwise. Unsubscribe, NewMote and Publish give 1. The registry is not changed: the method has no `modifies` clause. |
| `GrootFindings.AsWrittenSpins` | groot.c:69 | In the loop as written, a registry whose first entry does not match the key never produces a return value, for any number of iterations. |
| `GrootFindings.AsWrittenMissesSecondEntry` | groot.c:62-77 | Take a two-entry registry. For the key of its second entry, which is registered, the loop as written never returns 0. For an unregistered key, it never returns 1. |

## Left out

- Debug output (`print_raw_packetbuf`, `print_hdr`, every `printf`): pure output.
- `packet_loader_hdr`, `broadcast_send` and the read of the header through `packetbuf_dataptr`: these are Contiki packet-buffer and Rime calls. `SubscribeSnd` returns the header it would transmit, and `SubscribeRcv` takes an already decoded header. The connection arguments and the unused `from` argument are dropped.
- The node's own address (`rimeaddr_node_addr`) is owned by Rime. It is a parameter of `SubscribeSnd`.
- `Address` is a sequence of bytes. The Rime address width is not part of this model.
- The `MEMB` pools and `GROOT_QUERY_LIMIT` / `GROOT_CHILD_LIMIT`: nothing allocates from the pools, and the limits are not defined in the files modelled.
- The registry entries are read through a `GROOT_HEADER` pointer (groot.c:68). Their real item type is not part of this model, so each entry is modelled as the key the search compares.
- The unused local `new_qry` and the registry insertion, which is only a comment in `groot_subscribe_rcv`.
- The empty stubs `groot_intent_*`, `groot_unsubscribe_*`, `groot_alternate_*` and `groot_publish_*` (groot.c:174-212) have no behaviour. Tree formation, aggregation, alteration and unsubscribe handling are therefore not modelled.
- The channel set-up and callbacks of groot-sensor.c and groot-sink.c, the process threads of enfield-sink.c and enfield-sensor.c, and the declaration-only headers: these are transport and bootstrap glue.
- `Groot.CopySensors`: modelled on values. The method returns the updated target instead of writing through a pointer, so aliasing between origin and target is not captured. An aliased copy leaves the same flags anyway.
- `GrootFindings.AsWrittenSpins`: the as-written loop runs under a fuel bound. "Never returns" is stated as "still looping after any number of iterations".

## Findings

| source | as written | input that shows it | evidently intended | confidence | as-written member | corrected member |
|---|---|---|---|---|---|---|
| groot.c:69 | The loop steps with `list_item_next(queries_list)`, which passes the list handle instead of the current item. In Contiki this reads the list's head pointer, so the cursor returns to the first entry on every step. | A registry holding (1, [1]) then (2, [2]), queried for (2, [2]): the key is registered but the loop never returns. The bug is latent because nothing inserts into the registry yet. | Step with `list_item_next(i)`, visiting every entry once. | not executed; relies on the behaviour of Contiki's `list_item_next`, which is not part of this model | `GrootFindings.AsWrittenMissesSecondEntry` | `Groot.Groot.IsNewQuery` |

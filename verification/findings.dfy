/**
  The registry loop of `is_new_query` as groot.c writes it. Its step
  `i = list_item_next(queries_list)` passes the list handle instead of the
  current item. Contiki's `list_item_next` returns the `next` pointer stored
  at the address it is given, and a list handle points at the list's head
  pointer, so every step sets the cursor back to the head. The loop only
  ever inspects the first entry: when that entry does not match, it never
  returns. `Groot.Groot.IsNewQuery` is the search as intended, stepping to
  the following entry.
 */
module GrootFindings {
  import opened GrootTypes
  import Groot

  /** Where a run of the loop stands after a bounded number of iterations. */
  datatype LoopState = Looping | Returned(code: uint8)

  /** At most `fuel` iterations of the loop from the entry at `cursor`;
      `|queries|` plays the role of NULL. */
  function AsWrittenLoop(queries: seq<QueryKey>, queryId: uint16, esender: Address,
                         cursor: nat, fuel: nat): LoopState
    requires cursor <= |queries|
    decreases fuel
  {
    if fuel == 0 then Looping
    else if cursor == |queries| then Returned(1)
    else if queries[cursor].queryId == queryId && queries[cursor].esender == esender then Returned(0)
    // list_item_next(queries_list) reads the head pointer: back to entry 0
    else AsWrittenLoop(queries, queryId, esender, 0, fuel - 1)
  }

  /** `is_new_query` as written, run for at most `fuel` loop iterations. */
  function IsNewQueryAsWritten(queries: seq<QueryKey>, queryId: uint16, esender: Address,
                               fuel: nat): LoopState
  {
    if |queries| == 0 then Returned(1) else AsWrittenLoop(queries, queryId, esender, 0, fuel)
  }

  /** Once the first entry does not match, no number of iterations ends the
      loop, whatever the rest of the registry holds. */
  lemma {:induction false} AsWrittenSpins(queries: seq<QueryKey>, queryId: uint16,
                                          esender: Address, fuel: nat)
    requires |queries| > 0
    requires queries[0].queryId != queryId || queries[0].esender != esender
    ensures AsWrittenLoop(queries, queryId, esender, 0, fuel) == Looping
  {
    if fuel > 0 {
      AsWrittenSpins(queries, queryId, esender, fuel - 1);
    }
  }

  /** A registry of two entries: the key of the second one is registered,
      yet the loop as written never reports it, and for a key that is not
      registered it never reports 1 either. */
  lemma AsWrittenMissesSecondEntry(fuel: nat)
    ensures Groot.Registered([QueryKey(1, [1]), QueryKey(2, [2])], 2, [2])
    ensures IsNewQueryAsWritten([QueryKey(1, [1]), QueryKey(2, [2])], 2, [2], fuel) == Looping
    ensures !Groot.Registered([QueryKey(1, [1]), QueryKey(2, [2])], 3, [3])
    ensures IsNewQueryAsWritten([QueryKey(1, [1]), QueryKey(2, [2])], 3, [3], fuel) == Looping
  {
    var queries := [QueryKey(1, [1]), QueryKey(2, [2])];
    assert queries[1].queryId == 2 && queries[1].esender == [2];
    AsWrittenSpins(queries, 2, [2], fuel);
    AsWrittenSpins(queries, 3, [3], fuel);
  }
}

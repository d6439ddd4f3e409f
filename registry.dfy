/**
 * The purchase-status registry of main.py: a process-wide dictionary from request
 * id to the record of one scheduled batch. Scheduling inserts a pending record,
 * the background run marks it completed or failed, and the status endpoint reads it.
 */
module Registry {
  import opened Wrappers
  import Text
  import Purchase

  datatype Status = Pending | Completed | Error

  /** One stored record: its status, the request's lots and times, the batch results and the error text. */
  datatype Entry = Entry(status: Status, lots: seq<int>, purchaseTimes: seq<int>,
                         results: Option<seq<Purchase.LotResult>>, error: Option<string>)

  /** The answer to a schedule request. */
  datatype ScheduleReply = ScheduleReply(status: string, requestId: string, message: string)

  /** The answer to a status request: the stored record itself, or "not_found". */
  datatype StatusReply = NotFound(status: string, message: string) | Found(entry: Entry)

  /** How the awaited batch call ended: with its results, or by raising. */
  datatype BatchRun = Returned(results: seq<Purchase.LotResult>) | Raised(message: string)

  const ScheduledSuffix: string := " lots schedulés pour achat"
  const InvalidIdMessage: string := "ID de requête invalide"

  /** The confirmation text for `count` scheduled lots: the count in decimal, then the suffix. */
  function ScheduledMessage(count: nat): (m: string)
    ensures |m| > |ScheduledSuffix| && m[|m| - |ScheduledSuffix|..] == ScheduledSuffix
    ensures Text.IsDecimal(m[..|m| - |ScheduledSuffix|])
    ensures Text.DecimalValue(m[..|m| - |ScheduledSuffix|]) == count
  {
    var digits := Text.DecimalString(count);
    Text.DecimalRoundTrip(count);
    assert (digits + ScheduledSuffix)[..|digits|] == digits;
    digits + ScheduledSuffix
  }

  /** The status/field consistency every stored record keeps. */
  predicate WellFormed(e: Entry)
  {
    (e.status == Pending ==> e.results.None? && e.error.None?) &&
    (e.status == Completed ==> e.results.Some?) &&
    (e.status == Error ==> e.error.Some?)
  }

  class PurchaseRegistry {
    var entries: map<string, Entry>

    ghost predicate Valid()
      reads this
    {
      forall id :: id in entries ==> WellFormed(entries[id])
    }

    constructor ()
      ensures Valid() && entries == map[]
    {
      entries := map[];
    }

    /**
     * schedule_purchases: stores a pending record under a fresh id and confirms
     * the number of lots; no other record changes.
     */
    method Schedule(requestId: string, lots: seq<int>, purchaseTimes: seq<int>) returns (reply: ScheduleReply)
      requires Valid()
      requires requestId !in entries
      modifies this
      ensures Valid()
      ensures entries == old(entries)[requestId := Entry(Pending, lots, purchaseTimes, None, None)]
      ensures entries.Keys == old(entries).Keys + {requestId}
      ensures forall id :: id in old(entries) ==> id in entries && entries[id] == old(entries)[id]
      ensures reply == ScheduleReply("success", requestId, ScheduledMessage(|lots|))
    {
      entries := entries[requestId := Entry(Pending, lots, purchaseTimes, None, None)];
      reply := ScheduleReply("success", requestId, ScheduledMessage(|lots|));
    }

    /** get_purchase_status: the stored record for a known id, "not_found" for any other. */
    function Lookup(requestId: string): (r: StatusReply)
      reads this
      requires Valid()
      ensures r.NotFound? <==> requestId !in entries
      ensures r.NotFound? ==> r == NotFound("not_found", InvalidIdMessage)
      ensures r.Found? ==> requestId in entries && r.entry == entries[requestId]
      ensures r.Found? && r.entry.status == Pending ==> r.entry.results.None? && r.entry.error.None?
      ensures r.Found? && r.entry.status == Completed ==> r.entry.results.Some?
      ensures r.Found? && r.entry.status == Error ==> r.entry.error.Some?
    {
      if requestId in entries then Found(entries[requestId]) else NotFound("not_found", InvalidIdMessage)
    }

    /**
     * perform_purchases, after the batch call: a returned batch marks the record
     * completed with its results, a raised one marks it failed with the message.
     * The lots and times stay; only the record of `requestId` changes.
     */
    method PerformPurchases(requestId: string, run: BatchRun)
      requires Valid()
      requires requestId in entries
      modifies this
      ensures Valid()
      ensures entries.Keys == old(entries).Keys
      ensures forall id :: id in old(entries) && id != requestId ==> entries[id] == old(entries)[id]
      ensures run.Returned? ==>
        entries[requestId] == old(entries)[requestId].(status := Completed, results := Some(run.results))
      ensures run.Raised? ==>
        entries[requestId] == old(entries)[requestId].(status := Error, error := Some(run.message))
    {
      var entry := entries[requestId];
      match run
      case Returned(results) =>
        entries := entries[requestId := entry.(status := Completed, results := Some(results))];
      case Raised(message) =>
        entries := entries[requestId := entry.(status := Error, error := Some(message))];
    }
  }

  /**
   * A schedule, a lookup and a completed run, one after another: the lookup sees the
   * pending record, the run completes it and the scheduled lots and times survive.
   */
  method ScheduleThenComplete(registry: PurchaseRegistry, requestId: string, lots: seq<int>, times: seq<int>,
                              results: seq<Purchase.LotResult>)
    returns (before: StatusReply, after: StatusReply)
    requires registry.Valid() && requestId !in registry.entries
    modifies registry
    ensures registry.Valid()
    ensures before == Found(Entry(Pending, lots, times, None, None))
    ensures after == Found(Entry(Completed, lots, times, Some(results), None))
  {
    var _ := registry.Schedule(requestId, lots, times);
    before := registry.Lookup(requestId);
    registry.PerformPurchases(requestId, Returned(results));
    after := registry.Lookup(requestId);
  }
}

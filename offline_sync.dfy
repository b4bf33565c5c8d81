/** The drain step of the offline queue: while online and idle, the head of
    the pending list is sent to the server; success drops it, a 4xx rejection
    moves it to the error list, and any other failure leaves it to be retried. */
module OfflineSync {
  import opened Wrappers
  import opened Inventory
  import Seqs

  /** How the `createProduct` call ended: created, or failed with the status
      (absent for a network failure) and the server's message, if any. */
  datatype CreateOutcome = Created | Failed(status: Option<int>, message: Option<string>)

  const DEFAULT_VALIDATION_MESSAGE: string := "Error de validación"

  /** `error.status && error.status >= 400 && error.status < 500`. */
  predicate IsClientError(outcome: CreateOutcome)
  {
    outcome.Failed? && outcome.status.Some? && 400 <= outcome.status.value < 500
  }

  /** `error.data?.message || 'Error de validación'`: an absent or empty message
      gives the default. */
  function ErrorMessage(message: Option<string>): (r: string)
    ensures r != ""
    ensures message.Some? && message.value != "" ==> r == message.value
  {
    if message.Some? && message.value != "" then message.value else DEFAULT_VALIDATION_MESSAGE
  }

  class SyncManager {
    const queue: InventoryQueue
    /** The `isSyncing` ref. */
    var isSyncing: bool
    /** The head entry whose request is in flight. */
    var inFlight: Option<PendingProduct>

    ghost predicate Valid()
      reads this
    {
      isSyncing <==> inFlight.Some?
    }

    constructor (queue: InventoryQueue)
      ensures Valid() && this.queue == queue && !isSyncing
    {
      this.queue := queue;
      isSyncing := false;
      inFlight := None;
    }

    /** The start of `syncNext`: nothing while a request is in flight, while
        offline or with an empty queue; otherwise the head entry is taken and
        its product, without temp id or timestamp, is the request to send. */
    method StartSync(isOnline: bool) returns (request: Option<ProductDraft>)
      requires Valid()
      modifies this
      ensures Valid()
      ensures old(isSyncing) || !isOnline || |queue.pending| == 0 ==>
        request.None? && isSyncing == old(isSyncing) && inFlight == old(inFlight)
      ensures !old(isSyncing) && isOnline && |queue.pending| > 0 ==>
        && isSyncing && inFlight == Some(queue.pending[0])
        && request == Some(queue.pending[0].product)
    {
      if isSyncing || !isOnline || |queue.pending| == 0 {
        return None;
      }
      isSyncing := true;
      var item := queue.pending[0];
      inFlight := Some(item);
      request := Some(item.product);
    }

    /** The end of `syncNext`: on success the entry is removed from the
        pending list; on a 4xx it moves to the error list with the server's
        message or the default; on any other failure the queue is left as it
        is, so the same head is tried again later. The in-flight flag is
        cleared in every case. */
    method FinishSync(outcome: CreateOutcome)
      requires Valid() && isSyncing
      modifies this, queue
      ensures Valid() && !isSyncing
      ensures var tempId := old(inFlight).value.tempId;
        && (outcome.Created? ==>
              queue.pending == Seqs.Filter(old(queue.pending), Seqs.KeyIsNot(PendingTempId, tempId))
              && queue.errors == old(queue.errors))
        && (IsClientError(outcome) && Seqs.IndexOfKey(old(queue.pending), PendingTempId, tempId).Some? ==>
              queue.pending == Seqs.Filter(old(queue.pending), Seqs.KeyIsNot(PendingTempId, tempId))
              && queue.errors == old(queue.errors) + [ErrorProduct(
                   old(queue.pending)[Seqs.IndexOfKey(old(queue.pending), PendingTempId, tempId).value],
                   ErrorMessage(outcome.message))])
        && (IsClientError(outcome) && Seqs.IndexOfKey(old(queue.pending), PendingTempId, tempId).None? ==>
              queue.pending == old(queue.pending) && queue.errors == old(queue.errors))
        && (outcome.Failed? && !IsClientError(outcome) ==>
              queue.pending == old(queue.pending) && queue.errors == old(queue.errors))
    {
      var tempId := inFlight.value.tempId;
      if outcome.Created? {
        queue.RemovePendingProduct(tempId);
      } else if IsClientError(outcome) {
        queue.MoveToError(tempId, ErrorMessage(outcome.message));
      }
      isSyncing := false;
      inFlight := None;
    }
  }

  /** A queue whose head is accepted loses exactly that head when temp ids are
      unique: the next call sends the following entry. */
  lemma {:induction false} SuccessAdvancesQueue(pending: seq<PendingProduct>)
    requires |pending| > 0 && Seqs.UniqueKeys(pending, PendingTempId)
    ensures Seqs.Filter(pending, Seqs.KeyIsNot(PendingTempId, pending[0].tempId)) == pending[1..]
  {
    Seqs.FilterOutUnique(pending, PendingTempId, 0);
  }
}

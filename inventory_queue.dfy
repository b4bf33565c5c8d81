/** The offline product queue of the inventory screen: products created while
    offline wait in `pending`; those the server rejects move to `errors` with a
    message, from where they can be retried or discarded. */
module Inventory {
  import opened Wrappers
  import Seqs
  import Text

  /** A `CreateProductRequest` as the dashboard builds it. */
  datatype ProductDraft = ProductDraft(
    name: string,
    description: string,
    price: real,
    sku: string,
    stock: int,
    vertical: string,
    sellerId: Option<string>,
    tags: seq<string>,
    imageUrl: string,
    attributes: map<string, string>)

  /** A queued product: the request plus its local id and enqueue time. */
  datatype PendingProduct = PendingProduct(product: ProductDraft, tempId: string, timestamp: int)

  /** A rejected product: the queued entry plus the server's message. */
  datatype ErrorProduct = ErrorProduct(entry: PendingProduct, error: string)

  function PendingTempId(p: PendingProduct): string
  {
    p.tempId
  }

  function ErrorTempId(e: ErrorProduct): string
  {
    e.entry.tempId
  }

  /** The local id `temp-<time>-<random suffix>`. */
  function TempId(time: int, suffix: string): (r: string)
    ensures |r| > 5 && r[..5] == "temp-"
  {
    "temp-" + Text.IntToDecimal(time) + "-" + suffix
  }

  /** Taking an entry out of a list with unique temp ids shortens it by exactly one. */
  lemma {:induction false} FilterOutShortens<T(!new)>(xs: seq<T>, key: T -> string, k: nat)
    requires Seqs.UniqueKeys(xs, key) && k < |xs|
    ensures |Seqs.Filter(xs, Seqs.KeyIsNot(key, key(xs[k])))| == |xs| - 1
  {
    Seqs.FilterOutUnique(xs, key, k);
  }

  class InventoryQueue {
    var pending: seq<PendingProduct>
    var errors: seq<ErrorProduct>

    /** An empty queue; the copy kept in browser storage is not modelled. */
    constructor ()
      ensures pending == [] && errors == []
    {
      pending := [];
      errors := [];
    }

    /** `addPendingProduct`: exactly one entry, carrying the request, a fresh
        `temp-` id and the time, is appended; the error list is untouched. */
    method AddPendingProduct(product: ProductDraft, now: int, randomSuffix: string, timestamp: int)
      modifies this
      ensures pending == old(pending) + [PendingProduct(product, TempId(now, randomSuffix), timestamp)]
      ensures errors == old(errors)
    {
      pending := pending + [PendingProduct(product, TempId(now, randomSuffix), timestamp)];
    }

    /** `removePendingProduct`: the entries with that temp id leave the
        pending list, the others keep their order; the error list is untouched. */
    method RemovePendingProduct(tempId: string)
      modifies this
      ensures pending == Seqs.Filter(old(pending), Seqs.KeyIsNot(PendingTempId, tempId))
      ensures errors == old(errors)
    {
      pending := Seqs.Filter(pending, Seqs.KeyIsNot(PendingTempId, tempId));
    }

    /** `moveToError`: the first pending entry with that temp id leaves the
        pending list and is appended, unchanged, to the error list with the
        message; nothing happens when no pending entry has that id. */
    method MoveToError(tempId: string, error: string)
      modifies this
      ensures Seqs.IndexOfKey(old(pending), PendingTempId, tempId).None? ==>
        pending == old(pending) && errors == old(errors)
      ensures Seqs.IndexOfKey(old(pending), PendingTempId, tempId).Some? ==>
        && pending == Seqs.Filter(old(pending), Seqs.KeyIsNot(PendingTempId, tempId))
        && errors == old(errors) + [ErrorProduct(old(pending)[Seqs.IndexOfKey(old(pending), PendingTempId, tempId).value], error)]
      ensures Seqs.UniqueKeys(old(pending), PendingTempId) ==> |pending| + |errors| == old(|pending| + |errors|)
    {
      match Seqs.IndexOfKey(pending, PendingTempId, tempId)
      case None =>
      case Some(k) =>
        var product := pending[k];
        if Seqs.UniqueKeys(pending, PendingTempId) {
          FilterOutShortens(pending, PendingTempId, k);
        }
        pending := Seqs.Filter(pending, Seqs.KeyIsNot(PendingTempId, tempId));
        errors := errors + [ErrorProduct(product, error)];
    }

    /** `removeErrorProduct`: the entries with that temp id leave the error
        list; the pending list is untouched. */
    method RemoveErrorProduct(tempId: string)
      modifies this
      ensures errors == Seqs.Filter(old(errors), Seqs.KeyIsNot(ErrorTempId, tempId))
      ensures pending == old(pending)
    {
      errors := Seqs.Filter(errors, Seqs.KeyIsNot(ErrorTempId, tempId));
    }

    /** `retryErrorProduct`: the first error entry with that temp id leaves the
        error list and its queued entry, without the message, is appended to
        the pending list; nothing happens when no error entry has that id. */
    method RetryErrorProduct(tempId: string)
      modifies this
      ensures Seqs.IndexOfKey(old(errors), ErrorTempId, tempId).None? ==>
        pending == old(pending) && errors == old(errors)
      ensures Seqs.IndexOfKey(old(errors), ErrorTempId, tempId).Some? ==>
        && errors == Seqs.Filter(old(errors), Seqs.KeyIsNot(ErrorTempId, tempId))
        && pending == old(pending) + [old(errors)[Seqs.IndexOfKey(old(errors), ErrorTempId, tempId).value].entry]
      ensures Seqs.UniqueKeys(old(errors), ErrorTempId) ==> |pending| + |errors| == old(|pending| + |errors|)
    {
      match Seqs.IndexOfKey(errors, ErrorTempId, tempId)
      case None =>
      case Some(k) =>
        var product := errors[k];
        if Seqs.UniqueKeys(errors, ErrorTempId) {
          FilterOutShortens(errors, ErrorTempId, k);
        }
        errors := Seqs.Filter(errors, Seqs.KeyIsNot(ErrorTempId, tempId));
        pending := pending + [product.entry];
    }
  }

  /** Moving an entry to the error list and retrying it brings it back, with
      every field of the queued product intact, at the end of the pending list. */
  lemma {:induction false} MoveThenRetry(pending: seq<PendingProduct>, errors: seq<ErrorProduct>, k: nat, error: string)
    requires k < |pending|
    requires Seqs.IndexOfKey(errors, ErrorTempId, pending[k].tempId).None?
    ensures var errors' := errors + [ErrorProduct(pending[k], error)];
      && Seqs.IndexOfKey(errors', ErrorTempId, pending[k].tempId) == Some(|errors|)
      && errors'[|errors|].entry == pending[k]
      && Seqs.Filter(errors', Seqs.KeyIsNot(ErrorTempId, pending[k].tempId)) == errors
  {
    var id := pending[k].tempId;
    var moved := ErrorProduct(pending[k], error);
    var errors' := errors + [moved];
    var keep := Seqs.KeyIsNot(ErrorTempId, id);
    assert forall i :: 0 <= i < |errors| ==> ErrorTempId(errors'[i]) != id;
    assert ErrorTempId(errors'[|errors|]) == id;
    forall i | 0 <= i < |errors| ensures keep(errors[i]) {
      assert ErrorTempId(errors[i]) != id;
    }
    Seqs.FilterKeepsAll(errors, keep);
    Seqs.FilterAppend(errors, [moved], keep);
    assert Seqs.Filter([moved], keep) == [];
    assert Seqs.Filter(errors', keep) == errors + [];
  }
}

/** The inventory reservation engine of the products service: every product
    carries two counters, `stock` and `reservedStock`; `reserveStock` moves
    units from available to reserved item by item with a conditional update and
    rolls back on failure, `releaseStock` gives reserved units back and
    `confirmStock` spends them. */
module Products {
  import opened Wrappers

  /** The two counters of one product document. */
  datatype Counters = Counters(stock: int, reserved: int) {
    /** Units that can still be sold: `stock - reservedStock`. */
    function Available(): int { stock - reserved }
  }

  /** One element of a `StockOperationDto`. The DTO only says `IsNumber`, so a
      quantity may be zero or negative. */
  datatype StockItem = StockItem(productId: string, quantity: int)

  /** NotFoundException, and the two BadRequestExceptions of `reserveStock`. */
  datatype StockError =
    | NotFound(productId: string)
    | InsufficientStock(productId: string)
    | ConcurrentUpdate(productId: string)

  /** The three `$inc` updates. */
  datatype StockOp = Reserve | Release | Confirm

  /** The product collection, keyed by product id. */
  type Store = map<string, Counters>

  /** `0 <= reservedStock <= stock` for every product (the schema's `min: 0`
      on both counters, and never more reserved than owned). */
  ghost predicate Valid(s: Store)
  {
    forall id :: id in s ==> 0 <= s[id].reserved <= s[id].stock
  }

  /** The counters after one `$inc` of `op` by `q`. */
  function Shift(c: Counters, op: StockOp, q: int): Counters
  {
    match op
    case Reserve => Counters(c.stock, c.reserved + q)
    case Release => Counters(c.stock, c.reserved - q)
    case Confirm => Counters(c.stock - q, c.reserved - q)
  }

  /** One `findByIdAndUpdate` with `$inc`: an id that is not in the store is
      left alone (no upsert, no error). */
  function Apply(s: Store, item: StockItem, op: StockOp): Store
  {
    if item.productId in s then s[item.productId := Shift(s[item.productId], op, item.quantity)] else s
  }

  /** The updates of `op` for the items, applied in list order. */
  function ApplyAll(s: Store, items: seq<StockItem>, op: StockOp): Store
  {
    if |items| == 0 then s
    else Apply(ApplyAll(s, items[..|items| - 1], op), items[|items| - 1], op)
  }

  /** Sum of the quantities the items request for product `id`. */
  function TotalFor(items: seq<StockItem>, id: string): int
  {
    if |items| == 0 then 0
    else TotalFor(items[..|items| - 1], id)
         + (if items[|items| - 1].productId == id then items[|items| - 1].quantity else 0)
  }

  /** Some item names product `id`. */
  predicate Named(items: seq<StockItem>, id: string)
  {
    exists k :: 0 <= k < |items| && items[k].productId == id
  }

  /** The effect of a list of updates on one product is one update by the total
      quantity requested for it: reserve raises `reservedStock` by that total,
      release lowers it (with no clamp at zero), confirm lowers both counters.
      No product is added or removed, and a product no item names is unchanged. */
  lemma {:induction false} ApplyAllAt(s: Store, items: seq<StockItem>, op: StockOp)
    ensures ApplyAll(s, items, op).Keys == s.Keys
    ensures forall id :: id in s ==> ApplyAll(s, items, op)[id] == Shift(s[id], op, TotalFor(items, id))
    ensures forall id :: id in s && !Named(items, id) ==> ApplyAll(s, items, op)[id] == s[id]
  {
    if |items| > 0 {
      var init := items[..|items| - 1];
      ApplyAllAt(s, init, op);
      forall id | id in s && !Named(items, id)
        ensures TotalFor(items, id) == 0
      {
        NotNamedTotal(items, id);
      }
    } else {
      forall id | id in s ensures s[id] == Shift(s[id], op, 0) { }
    }
  }

  /** A product that no item names has a total of zero. */
  lemma {:induction false} NotNamedTotal(items: seq<StockItem>, id: string)
    requires !Named(items, id)
    ensures TotalFor(items, id) == 0
  {
    if |items| > 0 {
      var init := items[..|items| - 1];
      assert !Named(init, id) by {
        forall k | 0 <= k < |init| ensures init[k].productId != id {
          assert init[k] == items[k];
        }
      }
      NotNamedTotal(init, id);
    }
  }

  /** The check `reserveStock` makes for one item before updating it. */
  function Check(s: Store, item: StockItem): Outcome<StockError>
  {
    if item.productId !in s then Fail(NotFound(item.productId))
    else if s[item.productId].Available() < item.quantity then Fail(InsufficientStock(item.productId))
    else Pass
  }

  /** What `reserveStock` reports when no other request writes meanwhile: the
      first item whose product is missing or short, checked against the
      counters left by the items before it. */
  function ReserveOutcome(s: Store, items: seq<StockItem>): Outcome<StockError>
  {
    if |items| == 0 then Pass
    else
      var init := items[..|items| - 1];
      var o := ReserveOutcome(s, init);
      if o.Fail? then o else Check(ApplyAll(s, init, Reserve), items[|items| - 1])
  }

  /** Once a prefix of the items fails, the whole list fails with the same error. */
  lemma {:induction false} FailureIsFinal(s: Store, items: seq<StockItem>, k: nat)
    requires k <= |items| && ReserveOutcome(s, items[..k]).Fail?
    ensures ReserveOutcome(s, items) == ReserveOutcome(s, items[..k])
  {
    if k < |items| {
      var init := items[..|items| - 1];
      assert init[..k] == items[..k];
      FailureIsFinal(s, init, k);
    } else {
      assert items[..k] == items;
    }
  }

  /** Releasing exactly the items just reserved restores every counter. This
      is the rollback of `reserveStock`, and the saga's release after a failed
      payment. */
  lemma ReleaseUndoesReserve(s: Store, items: seq<StockItem>)
    ensures ApplyAll(ApplyAll(s, items, Reserve), items, Release) == s
  {
    var mid := ApplyAll(s, items, Reserve);
    ApplyAllAt(s, items, Reserve);
    ApplyAllAt(mid, items, Release);
  }

  /** With non-negative quantities, a reservation that succeeds keeps
      `0 <= reservedStock <= stock`: each item is reserved only when the
      available quantity covers it. */
  lemma {:induction false} ReserveKeepsValid(s: Store, items: seq<StockItem>)
    requires Valid(s)
    requires forall k :: 0 <= k < |items| ==> items[k].quantity >= 0
    requires ReserveOutcome(s, items) == Pass
    ensures Valid(ApplyAll(s, items, Reserve))
  {
    if |items| > 0 {
      var init := items[..|items| - 1];
      ReserveKeepsValid(s, init);
    }
  }

  /** Releasing keeps the invariant when, for every product, the total released
      is between zero and what is reserved. */
  lemma ReleaseKeepsValid(s: Store, items: seq<StockItem>)
    requires Valid(s)
    requires forall id :: id in s ==> 0 <= TotalFor(items, id) <= s[id].reserved
    ensures Valid(ApplyAll(s, items, Release))
  {
    ApplyAllAt(s, items, Release);
  }

  /** Confirming keeps the invariant under the same condition as releasing. */
  lemma ConfirmKeepsValid(s: Store, items: seq<StockItem>)
    requires Valid(s)
    requires forall id :: id in s ==> 0 <= TotalFor(items, id) <= s[id].reserved
    ensures Valid(ApplyAll(s, items, Confirm))
  {
    ApplyAllAt(s, items, Confirm);
  }

  /** Confirming lowers `stock` and `reservedStock` together, so the available
      quantity of every product is unchanged. */
  lemma ConfirmKeepsAvailable(s: Store, items: seq<StockItem>)
    ensures forall id :: id in s ==>
      id in ApplyAll(s, items, Confirm) && ApplyAll(s, items, Confirm)[id].Available() == s[id].Available()
  {
    ApplyAllAt(s, items, Confirm);
  }

  /** No request raced the one at hand between a read and its conditional update. */
  predicate NoRace(interleaved: seq<Option<Counters>>)
  {
    forall k :: 0 <= k < |interleaved| ==> interleaved[k].None?
  }

  /** Every quantity requested is non-negative. */
  predicate NonNegative(items: seq<StockItem>)
  {
    forall k :: 0 <= k < |items| ==> items[k].quantity >= 0
  }

  /** Every write another request lands meanwhile leaves its product valid. */
  predicate RacesValid(interleaved: seq<Option<Counters>>)
  {
    forall k :: 0 <= k < |interleaved| && interleaved[k].Some? ==>
      0 <= interleaved[k].value.reserved <= interleaved[k].value.stock
  }

  /** Storing valid counters keeps the store valid. */
  lemma SetKeepsValid(s: Store, id: string, c: Counters)
    requires Valid(s) && 0 <= c.reserved <= c.stock
    ensures Valid(s[id := c])
  {
  }

  /** The write another request lands on item `i`'s product, if any. */
  function RaceAt(interleaved: seq<Option<Counters>>, i: nat): Option<Counters>
  {
    if i < |interleaved| then interleaved[i] else None
  }

  /** Why the item failed in store `s`, with `race` the write that landed
      between its read and its update. */
  predicate FailureAt(s: Store, item: StockItem, race: Option<Counters>, e: StockError)
  {
    && e.productId == item.productId
    && match e
       case NotFound(_) => item.productId !in s
       case InsufficientStock(_) => item.productId in s && s[item.productId].Available() < item.quantity
       case ConcurrentUpdate(_) =>
         race.Some? && item.productId in s && s[item.productId] == race.value && race.value.Available() < item.quantity
  }

  /** What one pass of the `reserveStock` loop reports, and the store it leaves. */
  datatype Attempted = Attempted(failure: Option<StockError>, after: Store)

  /** One pass of the `reserveStock` loop on store `s`: read the product
      (NotFound), check the available quantity (InsufficientStock), let the
      other request's write `race` land, then run the conditional update
      (ConcurrentUpdate when the available quantity no longer covers it). */
  function Attempt(s: Store, item: StockItem, race: Option<Counters>): (r: Attempted)
    ensures r.after.Keys == s.Keys
    ensures forall id :: id in s && id != item.productId ==> r.after[id] == s[id]
    ensures r.failure.None? <==>
      Check(s, item) == Pass && (race.Some? ==> race.value.Available() >= item.quantity)
    ensures r.failure.Some? ==> FailureAt(r.after, item, race, r.failure.value)
    ensures race.None? && r.failure.Some? ==> r.after == s && Check(s, item) == Fail(r.failure.value)
    ensures race.None? && r.failure.None? ==> r.after == Apply(s, item, Reserve)
    ensures Valid(s) && item.quantity >= 0 && (race.Some? ==> 0 <= race.value.reserved <= race.value.stock) && r.failure.None? ==>
      Valid(r.after)
  {
    var pid := item.productId;
    if pid !in s then Attempted(Some(NotFound(pid)), s)
    else if s[pid].Available() < item.quantity then Attempted(Some(InsufficientStock(pid)), s)
    else
      var written := if race.Some? then s[pid := race.value] else s;
      if written[pid].Available() < item.quantity then Attempted(Some(ConcurrentUpdate(pid)), written)
      else Attempted(None, written[pid := Shift(written[pid], Reserve, item.quantity)])
  }

  /** The store after the first `n` items were each reserved by a pass of the
      loop, with the writes `interleaved` lands in between. */
  function RacedPrefix(s: Store, items: seq<StockItem>, interleaved: seq<Option<Counters>>, n: nat): Store
    requires n <= |items|
    decreases n, 0
  {
    if n == 0 then s else AttemptAt(s, items, interleaved, n - 1).after
  }

  /** The pass of the loop on item `k`, after the items before it were reserved. */
  function AttemptAt(s: Store, items: seq<StockItem>, interleaved: seq<Option<Counters>>, k: nat): Attempted
    requires k < |items|
    decreases k, 1
  {
    Attempt(RacedPrefix(s, items, interleaved, k), items[k], RaceAt(interleaved, k))
  }

  /** The passes on the first `n` items all succeed. */
  predicate PassesBefore(s: Store, items: seq<StockItem>, interleaved: seq<Option<Counters>>, n: nat)
    requires n <= |items|
  {
    forall k :: 0 <= k < n ==> AttemptAt(s, items, interleaved, k).failure.None?
  }

  class ProductStore {
    var products: Store

    constructor (initial: Store)
      ensures products == initial
    {
      products := initial;
    }

    /** `findOne`: the product, or NotFound. */
    method FindOne(id: string) returns (r: Result<Counters, StockError>)
      ensures id in products ==> r == Ok(products[id])
      ensures id !in products ==> r == Err(NotFound(id))
    {
      if id in products {
        r := Ok(products[id]);
      } else {
        r := Err(NotFound(id));
      }
    }

    /** `update` with the raw PATCH body (`findByIdAndUpdate` with `new: true`).
        No validation pipe strips undeclared fields, so a body `reservedStock`
        reaches the document as well as `stock`; no validator runs, so `min: 0`
        and `reservedStock <= stock` are not re-checked and the counters keep
        `Valid` only when the written values satisfy it. The other schema paths
        (name, price, attributes, ...) are not part of the counters. */
    method Update(id: string, stock: Option<int>, reserved: Option<int>) returns (r: Result<Counters, StockError>)
      modifies this
      ensures id !in old(products) ==> r == Err(NotFound(id)) && products == old(products)
      ensures id in old(products) ==>
        var c := Counters(stock.GetOr(old(products)[id].stock), reserved.GetOr(old(products)[id].reserved));
        r == Ok(c) && products == old(products)[id := c]
      ensures r.Ok? && Valid(old(products)) ==> (Valid(products) <==> 0 <= r.value.reserved <= r.value.stock)
    {
      if id !in products {
        return Err(NotFound(id));
      }
      var c := Counters(stock.GetOr(products[id].stock), reserved.GetOr(products[id].reserved));
      products := products[id := c];
      r := Ok(c);
      if Valid(old(products)) && 0 <= c.reserved <= c.stock {
        SetKeepsValid(old(products), id, c);
      }
      assert products[id] == c;
    }

    /** `remove`: deletes the product and returns it, or NotFound. */
    method Remove(id: string) returns (r: Result<Counters, StockError>)
      modifies this
      ensures id !in old(products) ==> r == Err(NotFound(id)) && products == old(products)
      ensures id in old(products) ==> r == Ok(old(products)[id]) && products == old(products) - {id}
    {
      if id !in products {
        return Err(NotFound(id));
      }
      r := Ok(products[id]);
      products := products - {id};
    }

    /** `releaseStock`: lowers `reservedStock` of each item's product by its
        quantity, one unconditional update per item. */
    method ReleaseStock(items: seq<StockItem>)
      modifies this
      ensures products == ApplyAll(old(products), items, Release)
    {
      var i := 0;
      while i < |items|
        invariant 0 <= i <= |items|
        invariant products == ApplyAll(old(products), items[..i], Release)
      {
        assert items[..i + 1][..i] == items[..i];
        products := Apply(products, items[i], Release);
        i := i + 1;
      }
      assert items[..i] == items;
    }

    /** `confirmStock`: lowers `stock` and `reservedStock` of each item's
        product by its quantity, one unconditional update per item. */
    method ConfirmStock(items: seq<StockItem>)
      modifies this
      ensures products == ApplyAll(old(products), items, Confirm)
    {
      var i := 0;
      while i < |items|
        invariant 0 <= i <= |items|
        invariant products == ApplyAll(old(products), items[..i], Confirm)
      {
        assert items[..i + 1][..i] == items[..i];
        products := Apply(products, items[i], Confirm);
        i := i + 1;
      }
      assert items[..i] == items;
    }

    /** One pass of the `reserveStock` loop: read the product (NotFound if
        absent), check the available quantity (InsufficientStock), let the
        other request's write `race` land, then run the conditional update
        (ConcurrentUpdate when the available quantity no longer covers it). */
    method ReserveOne(item: StockItem, race: Option<Counters>) returns (failure: Option<StockError>)
      modifies this
      ensures item.productId !in old(products) ==>
        failure == Some(NotFound(item.productId)) && products == old(products)
      ensures item.productId in old(products) && old(products)[item.productId].Available() < item.quantity ==>
        failure == Some(InsufficientStock(item.productId)) && products == old(products)
      ensures item.productId in old(products) && old(products)[item.productId].Available() >= item.quantity ==>
        var written := if race.Some? then old(products)[item.productId := race.value] else old(products);
        && (written[item.productId].Available() < item.quantity ==>
              failure == Some(ConcurrentUpdate(item.productId)) && products == written)
        && (written[item.productId].Available() >= item.quantity ==>
              failure == None && products == written[item.productId := Shift(written[item.productId], Reserve, item.quantity)])
      ensures products.Keys == old(products).Keys
      ensures forall id :: id in old(products) && id != item.productId ==> products[id] == old(products)[id]
      ensures Valid(old(products)) && item.quantity >= 0 && (race.Some? ==> 0 <= race.value.reserved <= race.value.stock) && failure.None? ==>
        Valid(products)
      ensures Attempted(failure, products) == Attempt(old(products), item, race)
    {
      if item.productId !in products {
        return Some(NotFound(item.productId));
      }
      if products[item.productId].Available() < item.quantity {
        return Some(InsufficientStock(item.productId));
      }
      ghost var sane := Valid(products) && item.quantity >= 0 && (race.Some? ==> 0 <= race.value.reserved <= race.value.stock);
      if race.Some? {
        // another request's write lands between the read and the update
        if sane { SetKeepsValid(products, item.productId, race.value); }
        products := products[item.productId := race.value];
      }
      var current := products[item.productId];
      if current.Available() < item.quantity {
        return Some(ConcurrentUpdate(item.productId));
      }
      if sane { SetKeepsValid(products, item.productId, Shift(current, Reserve, item.quantity)); }
      products := products[item.productId := Shift(current, Reserve, item.quantity)];
      failure := None;
    }

    /** The `try` block of `reserveStock`: the items are reserved one by one
        until one fails. Returns the failure, if any, and the index it
        happened at (the number of items reserved). The store is exactly the
        run the passes make: the reserved prefix, then the failing pass. */
    method ReserveItems(items: seq<StockItem>, interleaved: seq<Option<Counters>>)
      returns (failure: Option<StockError>, i: nat)
      modifies this
      ensures i <= |items| && (failure.None? ==> i == |items|)
      ensures PassesBefore(old(products), items, interleaved, i)
      ensures failure.None? ==> products == RacedPrefix(old(products), items, interleaved, i)
      ensures failure.Some? ==> i < |items| && AttemptAt(old(products), items, interleaved, i) == Attempted(failure, products)
    {
      failure, i := None, 0;
      while i < |items| && failure.None?
        invariant 0 <= i <= |items|
        invariant PassesBefore(old(products), items, interleaved, i)
        invariant failure.None? ==> products == RacedPrefix(old(products), items, interleaved, i)
        invariant failure.Some? ==> i < |items| && AttemptAt(old(products), items, interleaved, i) == Attempted(failure, products)
        decreases |items| - i, if failure.None? then 1 else 0
      {
        failure := ReserveOne(items[i], RaceAt(interleaved, i));
        if failure.None? {
          i := i + 1;
        }
      }
    }

    /** `reserveStock`. For each item in order: read the product (NotFound if
        absent), check the available quantity (InsufficientStock), then apply
        the conditional update "raise `reservedStock` by the quantity if the
        available quantity still covers it" (ConcurrentUpdate if it matches
        nothing). Items reserved so far are released before any error is
        returned. `interleaved[i]`, when present, is the counters another
        request left on item `i`'s product between the read and the update;
        `atFailure` is the store the rollback starts from. */
    method ReserveStock(items: seq<StockItem>, interleaved: seq<Option<Counters>>)
      returns (r: Outcome<StockError>, ghost failedAt: nat, ghost atFailure: Store)
      modifies this
      ensures products.Keys == old(products).Keys
      ensures forall id :: id in old(products) && !Named(items, id) ==> products[id] == old(products)[id]
      ensures NoRace(interleaved) ==> r == ReserveOutcome(old(products), items)
      ensures NoRace(interleaved) ==>
        products == if r.Pass? then ApplyAll(old(products), items, Reserve) else old(products)
      ensures Valid(old(products)) && NonNegative(items) && RacesValid(interleaved) && r.Pass? ==> Valid(products)
      ensures r.Fail? ==>
        && failedAt < |items| && r.error.productId == items[failedAt].productId
        && atFailure.Keys == old(products).Keys
        && products == ApplyAll(atFailure, items[..failedAt], Release)
      ensures r.Fail? && r.error.NotFound? ==> items[failedAt].productId !in atFailure
      ensures r.Fail? && r.error.InsufficientStock? ==>
        && items[failedAt].productId in atFailure
        && atFailure[items[failedAt].productId].Available() < items[failedAt].quantity
      ensures r.Fail? && r.error.ConcurrentUpdate? ==>
        && failedAt < |interleaved| && interleaved[failedAt].Some?
        && items[failedAt].productId in atFailure
        && atFailure[items[failedAt].productId] == interleaved[failedAt].value
        && interleaved[failedAt].value.Available() < items[failedAt].quantity
      ensures r.Pass? <==> PassesBefore(old(products), items, interleaved, |items|)
      ensures r.Pass? ==> products == RacedPrefix(old(products), items, interleaved, |items|)
      ensures r.Fail? ==>
        && failedAt < |items| && PassesBefore(old(products), items, interleaved, failedAt)
        && AttemptAt(old(products), items, interleaved, failedAt) == Attempted(Some(r.error), atFailure)
    {
      var failure, i := ReserveItems(items, interleaved);
      failedAt, atFailure := i, products;
      RacedFrame(old(products), items, interleaved, i);
      if NoRace(interleaved) {
        RacedWithoutRace(old(products), items, interleaved, i);
      }
      if failure.None? {
        if Valid(old(products)) && NonNegative(items) && RacesValid(interleaved) {
          RacedKeepsValid(old(products), items, interleaved, i);
        }
        assert items[..i] == items;
        return Pass, failedAt, atFailure;
      }
      assert Named(items, items[i].productId);
      assert !PassesBefore(old(products), items, interleaved, |items|);
      // the catch block: release what was reserved, then rethrow
      ReleaseStock(items[..i]);
      RollbackFrame(atFailure, items, i);
      if NoRace(interleaved) {
        ReserveFailed(old(products), items, i, RacedPrefix(old(products), items, interleaved, i));
      }
      r := Fail(failure.value);
    }
  }

  /** The passes add or remove no product and touch only products some item
      names. */
  lemma {:induction false} RacedFrame(s: Store, items: seq<StockItem>, interleaved: seq<Option<Counters>>, n: nat)
    requires n <= |items|
    ensures RacedPrefix(s, items, interleaved, n).Keys == s.Keys
    ensures forall id :: id in s && !Named(items, id) ==> RacedPrefix(s, items, interleaved, n)[id] == s[id]
  {
    if n > 0 {
      RacedFrame(s, items, interleaved, n - 1);
      assert Named(items, items[n - 1].productId);
    }
  }

  /** Without a concurrent writer the passes are the race-free reservation:
      the passing prefix is `ApplyAll` of Reserve, and its outcome is Pass. */
  lemma {:induction false} RacedWithoutRace(s: Store, items: seq<StockItem>, interleaved: seq<Option<Counters>>, n: nat)
    requires NoRace(interleaved) && n <= |items| && PassesBefore(s, items, interleaved, n)
    ensures ReserveOutcome(s, items[..n]) == Pass
    ensures RacedPrefix(s, items, interleaved, n) == ApplyAll(s, items[..n], Reserve)
  {
    if n > 0 {
      assert PassesBefore(s, items, interleaved, n - 1);
      RacedWithoutRace(s, items, interleaved, n - 1);
      var before := RacedPrefix(s, items, interleaved, n - 1);
      assert RaceAt(interleaved, n - 1).None?;
      assert AttemptAt(s, items, interleaved, n - 1).failure.None?;
      assert Check(before, items[n - 1]) == Pass;
      ReserveStep(s, items, n - 1, before);
    }
  }

  /** With valid counters, non-negative quantities and valid concurrent
      writes, every passing prefix leaves the store valid. */
  lemma {:induction false} RacedKeepsValid(s: Store, items: seq<StockItem>, interleaved: seq<Option<Counters>>, n: nat)
    requires Valid(s) && NonNegative(items) && RacesValid(interleaved)
    requires n <= |items| && PassesBefore(s, items, interleaved, n)
    ensures Valid(RacedPrefix(s, items, interleaved, n))
  {
    if n > 0 {
      assert PassesBefore(s, items, interleaved, n - 1);
      RacedKeepsValid(s, items, interleaved, n - 1);
      assert items[n - 1].quantity >= 0;
    }
  }

  /** The race-free step of `reserveStock`: an item that passes its check is
      reserved on top of the items before it. */
  lemma ReserveStep(s: Store, items: seq<StockItem>, i: nat, before: Store)
    requires i < |items|
    requires ReserveOutcome(s, items[..i]) == Pass && before == ApplyAll(s, items[..i], Reserve)
    requires Check(before, items[i]) == Pass
    ensures ReserveOutcome(s, items[..i + 1]) == Pass
    ensures before[items[i].productId := Shift(before[items[i].productId], Reserve, items[i].quantity)]
      == ApplyAll(s, items[..i + 1], Reserve)
  {
    assert items[..i + 1][..i] == items[..i];
  }

  /** The rollback of `reserveStock` touches only products that some item
      names, and adds or removes none. */
  lemma RollbackFrame(before: Store, items: seq<StockItem>, i: nat)
    requires i <= |items|
    ensures ApplyAll(before, items[..i], Release).Keys == before.Keys
    ensures forall id :: id in before && !Named(items, id) ==>
      ApplyAll(before, items[..i], Release)[id] == before[id]
  {
    ApplyAllAt(before, items[..i], Release);
  }

  /** The rollback step of `reserveStock` in the race-free case: when item `i`
      fails its check, the release of the first `i` items restores the store and
      the outcome is the failure `ReserveOutcome` predicts. */
  lemma ReserveFailed(s: Store, items: seq<StockItem>, i: nat, before: Store)
    requires i < |items|
    requires ReserveOutcome(s, items[..i]) == Pass
    requires before == ApplyAll(s, items[..i], Reserve)
    requires Check(before, items[i]).Fail?
    ensures ApplyAll(before, items[..i], Release) == s
    ensures ReserveOutcome(s, items) == Check(before, items[i])
  {
    ReleaseUndoesReserve(s, items[..i]);
    assert items[..i + 1][..i] == items[..i];
    FailureIsFinal(s, items, i + 1);
  }
}

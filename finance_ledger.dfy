/** The order ledger of the finance service: `createOrder` writes an order, its
    commission and a balanced pair of ledger entries in one transaction;
    `compensateOrder` marks a live order FAILED and appends one opposite-typed
    REFUND entry per entry of the order, at most once. */
module Finance {
  import opened Wrappers
  import Text

  /** The platform commission rate, 5%. */
  const COMMISSION_RATE: real := 0.05

  datatype OrderStatus = PENDING | PAID | FAILED | CANCELLED
  datatype LedgerType = CREDIT | DEBIT
  datatype LedgerCategory = SALE | COMMISSION | REFUND

  /** An item of a `CreateOrderDto`, kept on the order as a snapshot. */
  datatype OrderItem = OrderItem(productId: string, quantity: real, price: real)

  datatype Order = Order(
    id: nat,
    sellerId: string,
    buyerId: Option<string>,
    totalAmount: real,
    status: OrderStatus,
    sagaId: Option<string>,
    items: seq<OrderItem>)

  datatype Commission = Commission(orderId: nat, amount: real, rate: real)

  datatype LedgerEntry = LedgerEntry(
    id: nat,
    userId: string,
    amount: real,
    entryType: LedgerType,
    category: LedgerCategory,
    orderId: nat,
    referenceId: Option<nat>,
    description: string)

  /** The `Error('Order not found')` of `generatePaymentForOrder` and `compensateOrder`. */
  datatype LedgerError = OrderNotFound(orderId: nat)

  /** The arguments handed to the payment provider's `createPaymentLink`. */
  datatype PaymentRequest = PaymentRequest(orderId: nat, title: string, amount: real)

  /** `items.reduce((sum, item) => sum + item.price * item.quantity, 0)`. */
  function Total(items: seq<OrderItem>): real
  {
    if |items| == 0 then 0.0
    else Total(items[..|items| - 1]) + items[|items| - 1].price * items[|items| - 1].quantity
  }

  /** The total of a concatenation is the sum of the totals. */
  lemma {:induction false} TotalAppend(xs: seq<OrderItem>, ys: seq<OrderItem>)
    ensures Total(xs + ys) == Total(xs) + Total(ys)
  {
    if |ys| > 0 {
      assert (xs + ys)[..|xs + ys| - 1] == xs + ys[..|ys| - 1];
      TotalAppend(xs, ys[..|ys| - 1]);
    } else {
      assert xs + ys == xs;
    }
  }

  /** With non-negative prices and quantities the total is non-negative and the
      commission is a non-negative part of it. */
  lemma {:induction false} TotalNonNegative(items: seq<OrderItem>)
    requires forall k :: 0 <= k < |items| ==> items[k].price >= 0.0 && items[k].quantity >= 0.0
    ensures Total(items) >= 0.0
    ensures 0.0 <= Total(items) * COMMISSION_RATE <= Total(items)
  {
    if |items| > 0 {
      TotalNonNegative(items[..|items| - 1]);
      var last := items[|items| - 1];
      assert last.price * last.quantity >= 0.0;
    }
  }

  function CategoryName(c: LedgerCategory): string
  {
    match c
    case SALE => "SALE"
    case COMMISSION => "COMMISSION"
    case REFUND => "REFUND"
  }

  function Opposite(t: LedgerType): LedgerType
  {
    if t == CREDIT then DEBIT else CREDIT
  }

  /** The REFUND entry with id `id` that reverses `e`. */
  function Reversal(e: LedgerEntry, id: nat): LedgerEntry
  {
    LedgerEntry(id, e.userId, e.amount, Opposite(e.entryType), REFUND, e.orderId, Some(e.id), ReversalDescription(e))
  }

  /** The description of the reversal of `e`, naming its category and its id. */
  function ReversalDescription(e: LedgerEntry): string
  {
    "Compensation/Rollback for " + CategoryName(e.category) + " (Ref: " + Text.NatToDecimal(e.id) + ")"
  }

  /** The reversals of `es`, numbered from `firstId` on, in the order of `es`. */
  function Reversals(es: seq<LedgerEntry>, firstId: nat): (r: seq<LedgerEntry>)
    ensures |r| == |es|
  {
    seq(|es|, k requires 0 <= k < |es| => Reversal(es[k], firstId + k))
  }

  /** The entries of order `o`, in ledger order. */
  function EntriesOf(es: seq<LedgerEntry>, o: nat): (r: seq<LedgerEntry>)
    ensures |r| <= |es|
  {
    if |es| == 0 then []
    else (if es[0].orderId == o then [es[0]] else []) + EntriesOf(es[1..], o)
  }

  /** An entry is selected exactly when it is in the list and belongs to `o`. */
  lemma {:induction false} EntriesOfMembers(es: seq<LedgerEntry>, o: nat, e: LedgerEntry)
    ensures e in EntriesOf(es, o) <==> e in es && e.orderId == o
  {
    if |es| > 0 {
      EntriesOfMembers(es[1..], o, e);
      assert es == [es[0]] + es[1..];
    }
  }

  lemma {:induction false} EntriesOfAppend(xs: seq<LedgerEntry>, ys: seq<LedgerEntry>, o: nat)
    ensures EntriesOf(xs + ys, o) == EntriesOf(xs, o) + EntriesOf(ys, o)
  {
    if |xs| == 0 {
      assert xs + ys == ys;
    } else {
      assert (xs + ys)[1..] == xs[1..] + ys;
      EntriesOfAppend(xs[1..], ys, o);
    }
  }

  /** A list whose entries all belong to `o` is its own selection. */
  lemma {:induction false} EntriesOfAllSame(es: seq<LedgerEntry>, o: nat)
    requires forall k :: 0 <= k < |es| ==> es[k].orderId == o
    ensures EntriesOf(es, o) == es
  {
    if |es| > 0 {
      EntriesOfAllSame(es[1..], o);
    }
  }

  /** A list with no entry of `o` selects nothing. */
  lemma {:induction false} EntriesOfNone(es: seq<LedgerEntry>, o: nat)
    requires forall k :: 0 <= k < |es| ==> es[k].orderId != o
    ensures EntriesOf(es, o) == []
  {
    if |es| > 0 {
      EntriesOfNone(es[1..], o);
    }
  }

  /** Sum of the amounts of the CREDIT entries. */
  function CreditTotal(es: seq<LedgerEntry>): real
  {
    if |es| == 0 then 0.0 else (if es[0].entryType == CREDIT then es[0].amount else 0.0) + CreditTotal(es[1..])
  }

  /** Sum of the amounts of the DEBIT entries. */
  function DebitTotal(es: seq<LedgerEntry>): real
  {
    if |es| == 0 then 0.0 else (if es[0].entryType == DEBIT then es[0].amount else 0.0) + DebitTotal(es[1..])
  }

  lemma {:induction false} TotalsAppend(xs: seq<LedgerEntry>, ys: seq<LedgerEntry>)
    ensures CreditTotal(xs + ys) == CreditTotal(xs) + CreditTotal(ys)
    ensures DebitTotal(xs + ys) == DebitTotal(xs) + DebitTotal(ys)
  {
    if |xs| == 0 {
      assert xs + ys == ys;
    } else {
      assert (xs + ys)[1..] == xs[1..] + ys;
      TotalsAppend(xs[1..], ys);
    }
  }

  /** Reversing entries swaps the credit and debit totals: what was credited is
      debited back and the other way round. */
  lemma {:induction false} ReversalsSwapTotals(es: seq<LedgerEntry>, firstId: nat)
    ensures CreditTotal(Reversals(es, firstId)) == DebitTotal(es)
    ensures DebitTotal(Reversals(es, firstId)) == CreditTotal(es)
  {
    if |es| > 0 {
      assert Reversals(es, firstId)[1..] == Reversals(es[1..], firstId + 1);
      ReversalsSwapTotals(es[1..], firstId + 1);
    }
  }

  /** After compensation an order's entries balance: its CREDIT total equals its
      DEBIT total. */
  lemma {:induction false} CompensationBalances(before: seq<LedgerEntry>, o: nat, firstId: nat)
    ensures var after := before + Reversals(EntriesOf(before, o), firstId);
      CreditTotal(EntriesOf(after, o)) == DebitTotal(EntriesOf(after, o))
  {
    var orig := EntriesOf(before, o);
    var rev := Reversals(orig, firstId);
    forall k | 0 <= k < |orig| ensures orig[k].orderId == o {
      EntriesOfMembers(before, o, orig[k]);
    }
    EntriesOfAppend(before, rev, o);
    EntriesOfAllSame(rev, o);
    TotalsAppend(orig, rev);
    ReversalsSwapTotals(orig, firstId);
  }

  /** No two entries share an id. */
  predicate DistinctIds(es: seq<LedgerEntry>)
  {
    forall i, j :: 0 <= i < j < |es| ==> es[i].id != es[j].id
  }

  /** Selecting an order's entries keeps ids distinct. */
  lemma {:induction false} EntriesOfDistinct(es: seq<LedgerEntry>, o: nat)
    requires DistinctIds(es)
    ensures DistinctIds(EntriesOf(es, o))
  {
    if |es| > 0 {
      EntriesOfDistinct(es[1..], o);
      var rest := EntriesOf(es[1..], o);
      forall e | e in rest ensures e.id != es[0].id {
        EntriesOfMembers(es[1..], o, e);
        var j :| 0 <= j < |es[1..]| && es[1..][j] == e;
        assert es[j + 1] == e;
      }
    }
  }

  /** Number of entries that reference entry `x`. */
  function RefCount(es: seq<LedgerEntry>, x: nat): nat
  {
    if |es| == 0 then 0 else (if es[0].referenceId == Some(x) then 1 else 0) + RefCount(es[1..], x)
  }

  /** Each entry of a list with distinct ids is referenced by exactly one of its
      reversals, and no other id is. */
  lemma {:induction false} ReversalsReferenceOnce(es: seq<LedgerEntry>, firstId: nat, x: nat)
    requires DistinctIds(es)
    ensures RefCount(Reversals(es, firstId), x) == if exists k :: 0 <= k < |es| && es[k].id == x then 1 else 0
  {
    if |es| > 0 {
      assert Reversals(es, firstId)[1..] == Reversals(es[1..], firstId + 1);
      ReversalsReferenceOnce(es[1..], firstId + 1, x);
      if es[0].id == x {
        assert !exists k :: 0 <= k < |es[1..]| && es[1..][k].id == x by {
          forall k | 0 <= k < |es[1..]| ensures es[1..][k].id != x {
            assert es[1..][k] == es[k + 1];
          }
        }
      } else {
        assert (exists k :: 0 <= k < |es| && es[k].id == x) <==> (exists k :: 0 <= k < |es[1..]| && es[1..][k].id == x) by {
          if exists k :: 0 <= k < |es| && es[k].id == x {
            var k :| 0 <= k < |es| && es[k].id == x;
            assert es[1..][k - 1].id == x;
          }
        }
      }
    }
  }

  /** In a ledger whose entry ids are positions, compensating order `o` refunds
      each of its entries exactly once. */
  lemma CompensationRefundsOnce(entries: seq<LedgerEntry>, o: nat)
    requires forall i :: 0 <= i < |entries| ==> entries[i].id == i
    ensures var orig := EntriesOf(entries, o);
      forall k :: 0 <= k < |orig| ==> RefCount(Reversals(orig, |entries|), orig[k].id) == 1
  {
    var orig := EntriesOf(entries, o);
    EntriesOfDistinct(entries, o);
    forall k | 0 <= k < |orig| ensures RefCount(Reversals(orig, |entries|), orig[k].id) == 1 {
      ReversalsReferenceOnce(orig, |entries|, orig[k].id);
    }
  }

  /** The two entries `createOrder` writes for order `o`, with ids `firstId` and `firstId + 1`. */
  function SaleEntries(o: nat, sellerId: string, total: real, firstId: nat): seq<LedgerEntry>
  {
    [ LedgerEntry(firstId, sellerId, total, CREDIT, SALE, o, None, SaleDescription(o)),
      LedgerEntry(firstId + 1, sellerId, total * COMMISSION_RATE, DEBIT, COMMISSION, o, None, CommissionDescription(o)) ]
  }

  function SaleDescription(o: nat): string
  {
    "Sale revenue for order " + Text.NatToDecimal(o)
  }

  function CommissionDescription(o: nat): string
  {
    "Platform commission for order " + Text.NatToDecimal(o)
  }

  /** A new order's entries are exactly its sale credit for the total and its
      commission debit, so credits minus debits is the total less the commission. */
  lemma {:induction false} NewOrderEntries(before: seq<LedgerEntry>, o: nat, sellerId: string, total: real, firstId: nat)
    requires forall k :: 0 <= k < |before| ==> before[k].orderId != o
    ensures EntriesOf(before + SaleEntries(o, sellerId, total, firstId), o) == SaleEntries(o, sellerId, total, firstId)
    ensures CreditTotal(SaleEntries(o, sellerId, total, firstId)) == total
    ensures DebitTotal(SaleEntries(o, sellerId, total, firstId)) == total * COMMISSION_RATE
  {
    var written := SaleEntries(o, sellerId, total, firstId);
    var commission := written[1];
    assert written[1..] == [commission] && [commission][1..] == [];
    assert commission.entryType == DEBIT && commission.amount == total * COMMISSION_RATE;
    assert DebitTotal([commission]) == commission.amount + DebitTotal([]);
    assert CreditTotal([commission]) == 0.0 + CreditTotal([]);
    assert written[0].entryType == CREDIT && written[0].amount == total;
    EntriesOfAppend(before, written, o);
    assert forall k :: 0 <= k < |written| ==> written[k].orderId == o;
    EntriesOfAllSame(written, o);
    EntriesOfNone(before, o);
    assert [] + written == written;
  }

  /** Ids are fresh and entry ids are ledger positions; every entry and
      commission belongs to a stored order; REFUND entries exist only for
      FAILED orders. */
  ghost predicate LedgerValid(orders: map<nat, Order>, commissions: seq<Commission>, entries: seq<LedgerEntry>, nextOrderId: nat)
  {
    && (forall o :: o in orders ==> o < nextOrderId && orders[o].id == o)
    && (forall i :: 0 <= i < |entries| ==> entries[i].id == i && entries[i].orderId in orders)
    && (forall i :: 0 <= i < |commissions| ==> commissions[i].orderId in orders)
    && (forall i :: 0 <= i < |entries| && entries[i].category == REFUND ==>
          orders[entries[i].orderId].status == FAILED)
  }

  /** Appending the next reversal to a run of reversals. */
  lemma ReversalsSnoc(es: seq<LedgerEntry>, k: nat, firstId: nat)
    requires k < |es|
    ensures Reversals(es[..k + 1], firstId) == Reversals(es[..k], firstId) + [Reversal(es[k], firstId + k)]
  {
  }

  lemma AppendReversal(prefix: seq<LedgerEntry>, es: seq<LedgerEntry>, k: nat, firstId: nat)
    requires k < |es|
    ensures prefix + Reversals(es[..k + 1], firstId) == prefix + Reversals(es[..k], firstId) + [Reversal(es[k], firstId + k)]
  {
    ReversalsSnoc(es, k, firstId);
  }

  /** The loop of `compensateOrder`: one reversal per original entry is
      written after the existing entries, each taking the next id. */
  method AppendReversals(entries: seq<LedgerEntry>, original: seq<LedgerEntry>) returns (written: seq<LedgerEntry>)
    ensures written == entries + Reversals(original, |entries|)
  {
    written := entries;
    var k := 0;
    while k < |original|
      invariant 0 <= k <= |original|
      invariant written == entries + Reversals(original[..k], |entries|)
    {
      AppendReversal(entries, original, k, |entries|);
      written := written + [Reversal(original[k], |written|)];
      k := k + 1;
    }
    assert original[..k] == original;
  }

  /** Compensating a live order keeps the ledger invariant: the new REFUND
      entries take the next positions and belong to an order now FAILED, and
      the order had no REFUND entry before. */
  lemma {:induction false} CompensationKeepsValid(orders: map<nat, Order>, commissions: seq<Commission>,
                                                  entries: seq<LedgerEntry>, next: nat, o: nat)
    requires LedgerValid(orders, commissions, entries, next)
    requires o in orders && orders[o].status !in {FAILED, CANCELLED}
    ensures LedgerValid(orders[o := orders[o].(status := FAILED)], commissions,
                        entries + Reversals(EntriesOf(entries, o), |entries|), next)
  {
    var orig := EntriesOf(entries, o);
    var rev := Reversals(orig, |entries|);
    var after := entries + rev;
    var orders' := orders[o := orders[o].(status := FAILED)];
    forall i | 0 <= i < |after|
      ensures after[i].id == i && after[i].orderId in orders'
      ensures after[i].category == REFUND ==> orders'[after[i].orderId].status == FAILED
    {
      if i >= |entries| {
        var k := i - |entries|;
        assert after[i] == Reversal(orig[k], |entries| + k);
        EntriesOfMembers(entries, o, orig[k]);
      } else {
        assert after[i] == entries[i];
      }
    }
  }

  /** Creating an order keeps the ledger invariant. */
  lemma {:induction false} CreationKeepsValid(orders: map<nat, Order>, commissions: seq<Commission>,
                                              entries: seq<LedgerEntry>, next: nat, order: Order, c: Commission, written: seq<LedgerEntry>)
    requires LedgerValid(orders, commissions, entries, next)
    requires order.id == next && order.status == PENDING && c.orderId == next
    requires |written| == 2 && written[0].id == |entries| && written[1].id == |entries| + 1
    requires written[0].orderId == next && written[1].orderId == next
    requires written[0].category != REFUND && written[1].category != REFUND
    ensures LedgerValid(orders[next := order], commissions + [c], entries + written, next + 1)
  {
    var after := entries + written;
    forall i | 0 <= i < |after|
      ensures after[i].id == i && after[i].orderId in orders[next := order]
    {
      if i >= |entries| {
        assert after[i] == written[i - |entries|];
      }
    }
  }

  class Ledger {
    var orders: map<nat, Order>
    var commissions: seq<Commission>
    var entries: seq<LedgerEntry>
    var nextOrderId: nat

    ghost predicate Valid()
      reads this
    {
      LedgerValid(orders, commissions, entries, nextOrderId)
    }

    constructor ()
      ensures Valid() && orders == map[] && commissions == [] && entries == []
    {
      orders := map[];
      commissions := [];
      entries := [];
      nextOrderId := 0;
    }

    /** `createOrder`: in one transaction, the order (PENDING, with the item
        snapshots and the total), its commission (rate 0.05) and two entries
        for the seller, a CREDIT/SALE for the total and a DEBIT/COMMISSION for
        the commission. */
    method CreateOrder(sellerId: string, buyerId: Option<string>, items: seq<OrderItem>, sagaId: Option<string>)
      returns (order: Order)
      requires Valid()
      modifies this
      ensures Valid()
      ensures order == Order(old(nextOrderId), sellerId, buyerId, Total(items), PENDING, sagaId, items)
      ensures order.id !in old(orders) && orders == old(orders)[order.id := order]
      ensures commissions == old(commissions) + [Commission(order.id, Total(items) * COMMISSION_RATE, COMMISSION_RATE)]
      ensures entries == old(entries) + SaleEntries(order.id, sellerId, Total(items), |old(entries)|)
      ensures EntriesOf(entries, order.id) == SaleEntries(order.id, sellerId, Total(items), |old(entries)|)
    {
      var totalAmount := Total(items);
      var commissionAmount := totalAmount * COMMISSION_RATE;
      order := Order(nextOrderId, sellerId, buyerId, totalAmount, PENDING, sagaId, items);
      NewOrderEntries(entries, order.id, sellerId, totalAmount, |entries|);
      CreationKeepsValid(orders, commissions, entries, nextOrderId, order,
        Commission(order.id, commissionAmount, COMMISSION_RATE), SaleEntries(order.id, sellerId, totalAmount, |entries|));
      orders := orders[order.id := order];
      nextOrderId := nextOrderId + 1;
      commissions := commissions + [Commission(order.id, commissionAmount, COMMISSION_RATE)];
      entries := entries + SaleEntries(order.id, sellerId, totalAmount, |entries|);
    }

    /** `generatePaymentForOrder`: NotFound for an unknown order; otherwise the
        order's id, a title naming it, and its total, unchanged, for the
        payment provider. */
    method GeneratePaymentForOrder(orderId: nat) returns (r: Result<PaymentRequest, LedgerError>)
      requires Valid()
      ensures orderId !in orders ==> r == Err(OrderNotFound(orderId))
      ensures orderId in orders ==>
        && r.Ok? && r.value.orderId == orderId
        && r.value.amount == orders[orderId].totalAmount
        && r.value.title == "Order #" + Text.NatToDecimal(orderId) + " - Puente Platform"
    {
      if orderId !in orders {
        return Err(OrderNotFound(orderId));
      }
      var order := orders[orderId];
      r := Ok(PaymentRequest(order.id, "Order #" + Text.NatToDecimal(order.id) + " - Puente Platform", order.totalAmount));
    }

    /** `compensateOrder`: NotFound for an unknown order; an order already
        FAILED or CANCELLED is returned unchanged with nothing written;
        otherwise the order becomes FAILED and every entry it had is reversed by
        a new REFUND entry, existing entries untouched. */
    method CompensateOrder(orderId: nat, reason: string) returns (r: Result<Order, LedgerError>)
      requires Valid()
      modifies this
      ensures Valid()
      ensures commissions == old(commissions) && nextOrderId == old(nextOrderId)
      ensures |entries| >= |old(entries)| && entries[..|old(entries)|] == old(entries)
      ensures orderId !in old(orders) ==>
        r == Err(OrderNotFound(orderId)) && orders == old(orders) && entries == old(entries)
      ensures orderId in old(orders) && old(orders)[orderId].status in {FAILED, CANCELLED} ==>
        r == Ok(old(orders)[orderId]) && orders == old(orders) && entries == old(entries)
      ensures orderId in old(orders) && old(orders)[orderId].status !in {FAILED, CANCELLED} ==>
        && r == Ok(old(orders)[orderId].(status := FAILED))
        && orders == old(orders)[orderId := r.value]
        && entries == old(entries) + Reversals(EntriesOf(old(entries), orderId), |old(entries)|)
        && CreditTotal(EntriesOf(entries, orderId)) == DebitTotal(EntriesOf(entries, orderId))
    {
      if orderId !in orders {
        return Err(OrderNotFound(orderId));
      }
      var order := orders[orderId];
      if order.status == FAILED || order.status == CANCELLED {
        return Ok(order);
      }
      var original := EntriesOf(entries, orderId);
      CompensationKeepsValid(orders, commissions, entries, nextOrderId, orderId);
      CompensationBalances(entries, orderId, |entries|);
      var updated := order.(status := FAILED);
      orders := orders[orderId := updated];
      entries := AppendReversals(entries, original);
      r := Ok(updated);
    }
  }

  /** The checkout-failure run: an order of two units at 100 totals 200 with a
      commission of 10; compensating it appends a DEBIT/REFUND of 200 and a
      CREDIT/REFUND of 10 that reference the sale and commission entries, and a
      second compensation writes nothing. */
  method PaymentTimeoutScenario()
  {
    var ledger := new Ledger();
    var order := ledger.CreateOrder("S1", None, [OrderItem("p1", 2.0, 100.0)], None);
    assert order.totalAmount == 200.0;
    assert ledger.commissions[0] == Commission(order.id, 10.0, 0.05);
    assert ledger.entries[0].entryType == CREDIT && ledger.entries[0].category == SALE && ledger.entries[0].amount == 200.0;
    assert ledger.entries[1].entryType == DEBIT && ledger.entries[1].category == COMMISSION && ledger.entries[1].amount == 10.0;
    var r := ledger.CompensateOrder(order.id, "payment timeout");
    assert r.Ok? && r.value.status == FAILED;
    assert |ledger.entries| == 4;
    assert ledger.entries[2].entryType == DEBIT && ledger.entries[2].category == REFUND;
    assert ledger.entries[2].amount == 200.0 && ledger.entries[2].referenceId == Some(0);
    assert ledger.entries[3].entryType == CREDIT && ledger.entries[3].amount == 10.0 && ledger.entries[3].referenceId == Some(1);
    var again := ledger.CompensateOrder(order.id, "payment timeout");
    assert |ledger.entries| == 4 && again == r;
  }
}

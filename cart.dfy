/** The point-of-sale cart reducer: a list of lines with unique product ids
    and positive quantities, and its running total. */
module Cart {
  import opened Wrappers
  import Seqs

  datatype CartItem = CartItem(id: string, name: string, price: real, quantity: int)

  function ItemId(item: CartItem): string
  {
    item.id
  }

  /** What every reducer keeps: unique ids and every quantity at least 1. */
  predicate CartValid(items: seq<CartItem>)
  {
    Seqs.UniqueKeys(items, ItemId) && forall i :: 0 <= i < |items| ==> items[i].quantity >= 1
  }

  /** `items.find(item => item.id === id)`, as the index of the first match. */
  function IndexOf(items: seq<CartItem>, id: string): Option<nat>
  {
    Seqs.IndexOfKey(items, ItemId, id)
  }

  /** The quantity of `id` in the cart, 0 when it has no line. */
  function QuantityOf(items: seq<CartItem>, id: string): (q: int)
    ensures IndexOf(items, id).None? ==> q == 0
    ensures forall k :: 0 <= k < |items| && items[k].id == id && Seqs.UniqueKeys(items, ItemId) ==> q == items[k].quantity
  {
    match IndexOf(items, id)
    case None => 0
    case Some(k) => items[k].quantity
  }

  /** The keep-predicate of `items.filter(item => item.id !== id)`. */
  function WithoutId(id: string): CartItem -> bool
  {
    Seqs.KeyIsNot(ItemId, id)
  }

  function Line(item: CartItem): real
  {
    item.price * item.quantity as real
  }

  /** `selectCartTotal`: the sum of price times quantity over the lines. */
  function Total(items: seq<CartItem>): real
  {
    if |items| == 0 then 0.0 else Line(items[0]) + Total(items[1..])
  }

  /** Replacing line `k` changes the total by the difference of the two lines. */
  lemma {:induction false} TotalUpdate(items: seq<CartItem>, k: nat, item: CartItem)
    requires k < |items|
    ensures Total(items[k := item]) == Total(items) - Line(items[k]) + Line(item)
  {
    if k > 0 {
      assert items[k := item][1..] == items[1..][k - 1 := item];
      TotalUpdate(items[1..], k - 1, item);
    }
  }

  lemma {:induction false} TotalAppend(xs: seq<CartItem>, ys: seq<CartItem>)
    ensures Total(xs + ys) == Total(xs) + Total(ys)
  {
    if |xs| == 0 {
      assert xs + ys == ys;
    } else {
      assert (xs + ys)[1..] == xs[1..] + ys;
      TotalAppend(xs[1..], ys);
    }
  }

  /** Dropping line `k` lowers the total by that line. */
  lemma TotalRemoveAt(items: seq<CartItem>, k: nat)
    requires k < |items|
    ensures Total(items[..k] + items[k + 1..]) == Total(items) - Line(items[k])
  {
    var before, after := items[..k], items[k + 1..];
    TotalAppend(before, after);
    TotalAppend(before, [items[k]] + after);
    assert items == before + ([items[k]] + after);
    assert ([items[k]] + after)[1..] == after;
  }

  /** Removing the only line for an id lowers the total by that line. */
  lemma TotalWithout(items: seq<CartItem>, k: nat)
    requires Seqs.UniqueKeys(items, ItemId) && k < |items|
    ensures Total(Seqs.Filter(items, WithoutId(items[k].id))) == Total(items) - Line(items[k])
  {
    TotalRemoveAt(items, k);
    Seqs.FilterOutUnique(items, ItemId, k);
  }

  /** Appending a line for an id the cart does not have keeps the cart valid,
      and the new line is where that id is found. */
  lemma AppendKeepsValid(items: seq<CartItem>, item: CartItem)
    requires CartValid(items) && IndexOf(items, item.id).None? && item.quantity >= 1
    ensures CartValid(items + [item]) && IndexOf(items + [item], item.id) == Some(|items|)
  {
    var after := items + [item];
    forall i, j | 0 <= i < j < |after| ensures ItemId(after[i]) != ItemId(after[j]) {
      if j == |items| {
        assert ItemId(items[i]) != item.id;
      } else {
        assert ItemId(items[i]) != ItemId(items[j]);
      }
    }
    assert forall i :: 0 <= i < |items| ==> ItemId(after[i]) != item.id;
    assert ItemId(after[|items|]) == item.id;
  }

  /** Setting a positive quantity on an existing line keeps the cart valid. */
  lemma SetQuantityKeepsValid(items: seq<CartItem>, k: nat, q: int)
    requires CartValid(items) && k < |items| && q >= 1
    ensures CartValid(items[k := items[k].(quantity := q)])
    ensures IndexOf(items[k := items[k].(quantity := q)], items[k].id) == Some(k)
  {
    var after := items[k := items[k].(quantity := q)];
    assert forall i :: 0 <= i < |items| ==> ItemId(after[i]) == ItemId(items[i]);
    assert ItemId(items[k]) == items[k].id;
  }

  /** A rendered line is the one `find` returns for its id: ids are unique. */
  lemma LineAt(items: seq<CartItem>, item: CartItem)
    requires CartValid(items) && item in items
    ensures IndexOf(items, item.id).Some? && items[IndexOf(items, item.id).value] == item
  {
    var j :| 0 <= j < |items| && items[j] == item;
    assert ItemId(items[j]) == item.id;
  }

  /** A worked example, not a general property: one 100 item totals 100, and
      adding a 50 item totals 150. */
  lemma TotalScenario()
    ensures Total([CartItem("1", "A", 100.0, 1)]) == 100.0
    ensures Total([CartItem("1", "A", 100.0, 1), CartItem("2", "B", 50.0, 1)]) == 150.0
  {
    TotalAppend([CartItem("1", "A", 100.0, 1)], [CartItem("2", "B", 50.0, 1)]);
  }

  class Cart {
    var items: seq<CartItem>

    ghost predicate Valid()
      reads this
    {
      CartValid(items)
    }

    /** An empty cart; the copy kept in browser storage is not modelled. */
    constructor ()
      ensures Valid() && items == []
    {
      items := [];
    }

    /** `addToCart`: an existing id gains one unit; a new id is appended with
        quantity 1 whatever the payload's quantity. */
    method AddToCart(item: CartItem)
      requires Valid()
      modifies this
      ensures Valid()
      ensures match IndexOf(old(items), item.id)
        case None => items == old(items) + [item.(quantity := 1)]
        case Some(k) => items == old(items)[k := old(items)[k].(quantity := old(items)[k].quantity + 1)]
      ensures QuantityOf(items, item.id) == QuantityOf(old(items), item.id) + 1
      ensures Total(items) == old(Total(items)) +
        match IndexOf(old(items), item.id) case None => item.price case Some(k) => old(items)[k].price
    {
      match IndexOf(items, item.id)
      case None =>
        TotalAppend(items, [item.(quantity := 1)]);
        AppendKeepsValid(items, item.(quantity := 1));
        items := items + [item.(quantity := 1)];
      case Some(k) =>
        var line := items[k].(quantity := items[k].quantity + 1);
        TotalUpdate(items, k, line);
        SetQuantityKeepsValid(items, k, items[k].quantity + 1);
        items := items[k := line];
    }

    /** `removeFromCart`: the line for `id` is dropped, the others keep their order. */
    method RemoveFromCart(id: string)
      requires Valid()
      modifies this
      ensures Valid()
      ensures items == Seqs.Filter(old(items), WithoutId(id))
      ensures IndexOf(items, id).None?
      ensures Total(items) == old(Total(items)) - match IndexOf(old(items), id) case None => 0.0 case Some(k) => Line(old(items)[k])
    {
      match IndexOf(items, id)
      case None =>
      case Some(k) => TotalWithout(items, k);
      Seqs.FilterKeepsUnique(items, ItemId, WithoutId(id));
      items := Seqs.Filter(items, WithoutId(id));
    }

    /** `updateQuantity`: the line's quantity becomes `max(0, quantity)` and
        the line is removed when that is 0; an unknown id changes nothing. */
    method UpdateQuantity(id: string, quantity: int)
      requires Valid()
      modifies this
      ensures Valid()
      ensures IndexOf(old(items), id).None? ==> items == old(items)
      ensures IndexOf(old(items), id).Some? && quantity <= 0 ==> items == Seqs.Filter(old(items), WithoutId(id))
      ensures IndexOf(old(items), id).Some? && quantity > 0 ==>
        var k := IndexOf(old(items), id).value;
        items == old(items)[k := old(items)[k].(quantity := quantity)]
      ensures IndexOf(old(items), id).Some? ==> QuantityOf(items, id) == if quantity > 0 then quantity else 0
    {
      match IndexOf(items, id)
      case None =>
      case Some(k) =>
        var q := if quantity > 0 then quantity else 0;
        if q == 0 {
          Seqs.FilterKeepsUnique(items, ItemId, WithoutId(id));
          items := Seqs.Filter(items, WithoutId(id));
        } else {
          SetQuantityKeepsValid(items, k, q);
          items := items[k := items[k].(quantity := q)];
        }
    }

    /** `clearCart`: no lines remain. */
    method ClearCart()
      modifies this
      ensures Valid() && items == [] && Total(items) == 0.0
    {
      items := [];
    }
  }
}

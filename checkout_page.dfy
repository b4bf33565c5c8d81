/** The checkout page's handlers: the stock guard in front of the cart
    reducer, and the switch between the cart, keypad and payment views. */
module Checkout {
  import opened Wrappers
  import opened Cart

  datatype View = CartView | KeypadView | PaymentView

  /** A catalogue product as the page sees it. */
  datatype Product = Product(id: string, name: string, price: real, stock: int)

  /** `products.find(p => p.id === id)`: the first catalogue product with that id. */
  function FindProduct(products: seq<Product>, id: string): (r: Option<Product>)
    ensures r.Some? ==> r.value in products && r.value.id == id
    ensures r.None? <==> forall k :: 0 <= k < |products| ==> products[k].id != id
  {
    if |products| == 0 then None
    else if products[0].id == id then Some(products[0])
    else FindProduct(products[1..], id)
  }

  class CheckoutPage {
    const cart: Cart
    var view: View

    constructor (cart: Cart)
      ensures this.cart == cart && view == CartView
    {
      this.cart := cart;
      view := CartView;
    }

    /** `handleAddToCart`: refused when one more unit would exceed the
        product's stock; otherwise one unit is added to the cart. */
    method HandleAddToCart(product: Product) returns (added: bool)
      requires cart.Valid()
      modifies cart
      ensures cart.Valid()
      ensures added <==> QuantityOf(old(cart.items), product.id) + 1 <= product.stock
      ensures !added ==> cart.items == old(cart.items)
      ensures added ==> QuantityOf(cart.items, product.id) == QuantityOf(old(cart.items), product.id) + 1 <= product.stock
      ensures added && IndexOf(old(cart.items), product.id).None? ==>
        cart.items == old(cart.items) + [CartItem(product.id, product.name, product.price, 1)]
      ensures added && IndexOf(old(cart.items), product.id).Some? ==>
        var k := IndexOf(old(cart.items), product.id).value;
        cart.items == old(cart.items)[k := old(cart.items)[k].(quantity := old(cart.items)[k].quantity + 1)]
    {
      var currentQty := QuantityOf(cart.items, product.id);
      if currentQty + 1 > product.stock {
        return false;
      }
      cart.AddToCart(CartItem(product.id, product.name, product.price, 1));
      added := true;
    }

    /** `handleIncrement`: nothing for a line whose product is not in the
        catalogue, refused past the product's stock, otherwise the line's
        quantity becomes one more than shown. */
    method HandleIncrement(item: CartItem, products: seq<Product>) returns (incremented: bool)
      requires cart.Valid() && item in cart.items
      modifies cart
      ensures cart.Valid()
      ensures incremented <==> FindProduct(products, item.id).Some? && item.quantity + 1 <= FindProduct(products, item.id).value.stock
      ensures !incremented ==> cart.items == old(cart.items)
      ensures incremented ==>
        QuantityOf(cart.items, item.id) == item.quantity + 1 <= FindProduct(products, item.id).value.stock
      ensures incremented ==>
        cart.items == old(cart.items)[IndexOf(old(cart.items), item.id).value := item.(quantity := item.quantity + 1)]
    {
      LineAt(cart.items, item);
      var product := FindProduct(products, item.id);
      if product.None? {
        return false;
      }
      if item.quantity + 1 > product.value.stock {
        return false;
      }
      cart.UpdateQuantity(item.id, item.quantity + 1);
      incremented := true;
    }

    /** The minus button: the line's quantity becomes one less than shown,
        and the line goes when that reaches 0. */
    method HandleDecrement(item: CartItem)
      requires cart.Valid() && item in cart.items
      modifies cart
      ensures cart.Valid()
      ensures QuantityOf(cart.items, item.id) == item.quantity - 1
      ensures item.quantity == 1 <==> IndexOf(cart.items, item.id).None?
      ensures item.quantity == 1 ==> cart.items == Seqs.Filter(old(cart.items), WithoutId(item.id))
      ensures item.quantity > 1 ==>
        cart.items == old(cart.items)[IndexOf(old(cart.items), item.id).value := item.(quantity := item.quantity - 1)]
    {
      LineAt(cart.items, item);
      cart.UpdateQuantity(item.id, item.quantity - 1);
      if item.quantity == 1 {
        assert cart.items == Seqs.Filter(old(cart.items), WithoutId(item.id));
      }
    }

    /** The bin button: the line is removed from the cart. */
    method HandleRemove(item: CartItem)
      requires cart.Valid() && item in cart.items
      modifies cart
      ensures cart.Valid()
      ensures cart.items == Seqs.Filter(old(cart.items), WithoutId(item.id))
    {
      cart.RemoveFromCart(item.id);
    }

    /** `handlePayment`: an empty cart stays on its view; otherwise the
        payment view opens. */
    method HandlePayment()
      modifies this
      ensures |cart.items| == 0 ==> view == old(view)
      ensures |cart.items| > 0 ==> view == PaymentView
    {
      if |cart.items| == 0 {
        return;
      }
      view := PaymentView;
    }

    /** `handleFinish`: the cart is emptied and the cart view shown again. */
    method HandleFinish()
      modifies this, cart
      ensures cart.Valid() && cart.items == [] && view == CartView
    {
      cart.ClearCart();
      view := CartView;
    }
  }
}

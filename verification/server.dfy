/**
 * The request handlers that change state: the cart routes, checkout, startup
 * seeding and the admin product routes, as methods on one object that holds
 * the product table, the purchase tables and one session's cart.
 */
module Server {
  import opened Wrappers
  import Catalog
  import Cart
  import Orders

  /** The JSON answer of a handler; the receipt and the two errors carry the source's messages. */
  datatype Reply =
    | CartView(items: seq<Cart.CartLine>, total: int)
    | Receipt(message: string, purchaseId: int, total: int)
    | NotFound(message: string)
    | BadRequest(message: string)

  class Store {
    var products: seq<Catalog.Product>
    var purchases: seq<Orders.Purchase>
    var purchaseItems: seq<Orders.PurchaseItem>
    var cart: seq<Cart.CartLine>

    /** The invariant every handler keeps. */
    ghost predicate Valid()
      reads this
    {
      && Catalog.WellFormed(products)
      && Cart.WellFormed(cart)
      && Orders.WellFormed(purchases, purchaseItems)
    }

    /** Empty tables (the database defaults) and a new session's empty cart. */
    constructor ()
      ensures Valid()
      ensures products == [] && purchases == [] && purchaseItems == [] && cart == []
    {
      products, purchases, purchaseItems, cart := [], [], [], [];
    }

    /** Startup: the four demo products are written only into an empty product table. */
    method InitDb()
      requires Valid()
      modifies this`products
      ensures Valid()
      ensures products == Catalog.Seeded(old(products))
    {
      Catalog.SeededWellFormed(products);
      if |products| == 0 {
        products := Catalog.SEED_PRODUCTS;
      }
    }

    /** `mergeCartItem`: raise the existing line for the product in place, or append a
     *  snapshot of the product. */
    method MergeCartItem(p: Catalog.Product, qty: int)
      modifies this`cart
      ensures cart == Cart.Merged(old(cart), p, qty)
    {
      match Cart.FindLine(cart, p.id)
      case Some(i) =>
        cart := cart[i := cart[i].(qty := cart[i].qty + qty)];
      case None =>
        cart := cart + [Cart.Snapshot(p, qty)];
    }

    /** `GET /api/cart`: the lines and their total; nothing changes. */
    method ViewCart() returns (r: Reply)
      ensures r.CartView? && r.items == cart
      ensures r.total == Cart.CartTotal(cart)
    {
      r := CartView(cart, Cart.CartTotal(cart));
    }

    /** `POST /api/cart/add`: an unknown product is not found and leaves the cart alone;
     *  otherwise the requested quantity (at least 1) is merged into the cart. */
    method AddToCart(productId: string, qty: Option<int>) returns (r: Reply)
      requires Valid()
      modifies this`cart
      ensures Valid()
      ensures Catalog.IndexOf(products, productId).None? ==>
        r == NotFound("Product not found") && cart == old(cart)
      ensures Catalog.IndexOf(products, productId).Some? ==>
        && cart == Cart.Merged(old(cart), products[Catalog.IndexOf(products, productId).value],
                               Cart.RequestedQty(qty))
        && r == CartView(cart, Cart.CartTotal(cart))
    {
      var quantity := Cart.RequestedQty(qty);
      match Catalog.IndexOf(products, productId)
      case None =>
        r := NotFound("Product not found");
      case Some(i) =>
        Cart.MergedWellFormed(cart, products[i], quantity);
        MergeCartItem(products[i], quantity);
        r := CartView(cart, Cart.CartTotal(cart));
    }

    /** `POST /api/cart/update`: no line for the product is not found and changes nothing;
     *  otherwise that line's quantity becomes the requested quantity (at least 1). */
    method UpdateCart(productId: string, qty: Option<int>) returns (r: Reply)
      requires Valid()
      modifies this`cart
      ensures Valid()
      ensures Cart.Updated(old(cart), productId, Cart.RequestedQty(qty)).None? ==>
        r == NotFound("Item not found") && cart == old(cart)
      ensures Cart.Updated(old(cart), productId, Cart.RequestedQty(qty)).Some? ==>
        && cart == Cart.Updated(old(cart), productId, Cart.RequestedQty(qty)).value
        && r == CartView(cart, Cart.CartTotal(cart))
    {
      var quantity := Cart.RequestedQty(qty);
      Cart.UpdatedWellFormed(cart, productId, quantity);
      match Cart.FindLine(cart, productId)
      case None =>
        r := NotFound("Item not found");
      case Some(i) =>
        cart := cart[i := cart[i].(qty := quantity)];
        r := CartView(cart, Cart.CartTotal(cart));
    }

    /** `POST /api/cart/remove`: the lines for the product are filtered out; never an error. */
    method RemoveFromCart(productId: string) returns (r: Reply)
      requires Valid()
      modifies this`cart
      ensures Valid()
      ensures cart == Cart.Removed(old(cart), productId)
      ensures r == CartView(cart, Cart.CartTotal(cart))
    {
      Cart.RemovedWellFormed(cart, productId);
      cart := Cart.Removed(cart, productId);
      r := CartView(cart, Cart.CartTotal(cart));
    }

    /** `POST /api/checkout`: missing contact details, then an empty cart, are bad requests
     *  that write nothing; otherwise one purchase under the next id and one item per line
     *  are recorded and the cart is emptied. */
    method Checkout(name: string, email: string, address: string) returns (r: Reply)
      requires Valid()
      modifies this`cart, this`purchases, this`purchaseItems
      ensures Valid()
      ensures name == "" || email == "" || address == "" ==>
        && r == BadRequest("Missing checkout details")
        && cart == old(cart) && purchases == old(purchases) && purchaseItems == old(purchaseItems)
      ensures name != "" && email != "" && address != "" && old(cart) == [] ==>
        && r == BadRequest("Cart is empty")
        && cart == old(cart) && purchases == old(purchases) && purchaseItems == old(purchaseItems)
      ensures name != "" && email != "" && address != "" && old(cart) != [] ==>
        var id := Orders.NextPurchaseId(old(purchases));
        var total := Cart.CartTotal(old(cart));
        && r == Receipt("Purchase complete", id, total)
        && purchases == old(purchases) + [Orders.Purchase(id, name, email, address, total)]
        && purchaseItems == old(purchaseItems) + Orders.ItemsFor(id, old(cart))
        && cart == []
    {
      if name == "" || email == "" || address == "" {
        r := BadRequest("Missing checkout details");
        return;
      }
      if |cart| == 0 {
        r := BadRequest("Cart is empty");
        return;
      }
      var lines := cart;
      var total := Cart.CartTotal(lines);
      var purchaseId := Orders.NextPurchaseId(purchases);
      Orders.RecordedWellFormed(purchases, purchaseItems, name, email, address, total, lines);
      purchases := purchases + [Orders.Purchase(purchaseId, name, email, address, total)];
      PushItems(purchaseId, lines);
      cart := [];
      r := Receipt("Purchase complete", purchaseId, total);
    }

    /** The checkout's `forEach` over the cart: one purchase item per line, in line order,
     *  each under the purchase's id. */
    method PushItems(purchaseId: int, lines: seq<Cart.CartLine>)
      modifies this`purchaseItems
      ensures purchaseItems == old(purchaseItems) + Orders.ItemsFor(purchaseId, lines)
    {
      var i := 0;
      while i < |lines|
        invariant 0 <= i <= |lines|
        invariant purchaseItems == old(purchaseItems) + Orders.ItemsFor(purchaseId, lines[..i])
      {
        assert lines[..i + 1][..i] == lines[..i];
        purchaseItems := purchaseItems + [Orders.ItemOf(purchaseId, lines[i])];
        i := i + 1;
      }
      assert lines[..i] == lines;
    }

    /** `POST /admin/products`: the product is appended unless its id is taken; the flag is
     *  stored as 1 or 0. */
    method AddProduct(id: string, name: string, description: string, price: int,
                      image: string, featured: bool)
      requires Valid()
      modifies this`products
      ensures Valid()
      ensures products == Catalog.WithProduct(old(products),
        Catalog.Product(id, name, description, price, image, if featured then 1 else 0))
    {
      var p := Catalog.Product(id, name, description, price, image, if featured then 1 else 0);
      Catalog.WithProductWellFormed(products, p);
      if Catalog.IndexOf(products, id).None? {
        products := products + [p];
      }
    }

    /** `POST /admin/products/:id/delete`: every product with that id is removed. */
    method DeleteProduct(id: string)
      requires Valid()
      modifies this`products
      ensures Valid()
      ensures products == Catalog.Without(old(products), id)
    {
      Catalog.WithoutWellFormed(products, id);
      products := Catalog.Without(products, id);
    }

    /** `POST /admin/products/:id/feature`: the product's flag flips between 0 and 1;
     *  an unknown id changes nothing. */
    method ToggleFeatured(id: string)
      requires Valid()
      modifies this`products
      ensures Valid()
      ensures products == Catalog.Toggled(old(products), id)
    {
      Catalog.ToggledWellFormed(products, id);
      match Catalog.IndexOf(products, id)
      case None =>
      case Some(i) =>
        products := products[i := products[i].(featured := Catalog.Flipped(products[i].featured))];
    }
  }

  /** A client sets a line's quantity to 0, which is raised to 1, and then removes a product
   *  that is not in the cart, which changes nothing. */
  method UpdateRemoveScenario() {
    var store := new Store();
    var line := Cart.CartLine("p3", "4K Security Camera", 129, "images/product3.jpg", 4);
    store.cart := [line];
    assert Cart.FindLine(store.cart, "p3") == Some(0);
    var r := store.UpdateCart("p3", Some(0));
    assert store.cart == [line.(qty := 1)];
    assert Cart.FindLine(store.cart, "p9").None?;
    Cart.RemovedAbsent(store.cart, "p9");
    r := store.RemoveFromCart("p9");
    assert r == CartView([line.(qty := 1)], 129);
    r := store.UpdateCart("p9", None);
    assert r == NotFound("Item not found");
  }

  /** A client checkout: missing contact details write nothing, a cart of two units at 189
   *  becomes purchase 1 with total 378 and one item, and the emptied cart is then refused. */
  method CheckoutScenario() {
    var store := new Store();
    var line := Cart.CartLine("p1", "Solar Panel 320W", 189, "images/product1.jpg", 2);
    store.cart := [line];
    var r := store.Checkout("Ana", "ana@example.com", "");
    assert r.BadRequest? && store.purchases == [];
    r := store.Checkout("Ana", "ana@example.com", "Maputo");
    assert Cart.CartTotal([line]) == 378;
    assert r == Receipt("Purchase complete", 1, 378);
    assert store.cart == [] && store.purchaseItems == [Orders.ItemOf(1, line)];
    r := store.Checkout("Ana", "ana@example.com", "Maputo");
    assert r == BadRequest("Cart is empty");
  }
}

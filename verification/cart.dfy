/**
 * The session cart: an ordered sequence of lines, each a snapshot of a
 * product taken when it was first added, with a quantity. The functions here
 * give the cart's value after each handler step; `Server.Store` applies them
 * to its `cart` field.
 */
module Cart {
  import opened Wrappers
  import Catalog

  /** One cart line; name, price and image are copied from the product, not looked up again. */
  datatype CartLine = CartLine(
    productId: string,
    name: string,
    price: int,
    image: string,
    qty: int)

  /** What every handler keeps true of the cart: one line per product and every quantity at least 1. */
  ghost predicate WellFormed(cart: seq<CartLine>) {
    && (forall j :: 0 <= j < |cart| ==> cart[j].qty >= 1)
    && (forall j, k :: 0 <= j < k < |cart| ==> cart[j].productId != cart[k].productId)
  }

  /** What one line adds to the total. */
  function Subtotal(line: CartLine): int {
    line.price * line.qty
  }

  /** The sum of price times quantity over the lines, accumulated from the first line on
   *  (the `reduce` starting at 0). With `CartTotalAppend` its two cases below fix the total
   *  of every cart. */
  function CartTotal(cart: seq<CartLine>): (r: int)
    ensures cart == [] ==> r == 0
    ensures |cart| == 1 ==> r == Subtotal(cart[0])
  {
    if cart == [] then 0
    else
      assert |cart| == 1 ==> cart[..|cart| - 1] == [];
      CartTotal(cart[..|cart| - 1]) + Subtotal(cart[|cart| - 1])
  }

  /** The position of the first line for this product (`cart.find`). */
  function FindLine(cart: seq<CartLine>, id: string): (r: Option<nat>)
    ensures r.Some? ==> r.value < |cart| && cart[r.value].productId == id
    ensures r.Some? ==> forall j :: 0 <= j < r.value ==> cart[j].productId != id
    ensures r.None? ==> forall j :: 0 <= j < |cart| ==> cart[j].productId != id
  {
    if cart == [] then None
    else if cart[0].productId == id then Some(0)
    else match FindLine(cart[1..], id)
      case None => None
      case Some(k) => Some(k + 1)
  }

  /** The quantity a request asks for: a missing or zero quantity means 1, and anything
   *  below 1 is raised to 1. */
  function RequestedQty(qty: Option<int>): (r: int)
    ensures r >= 1
    ensures qty.Some? && qty.value >= 1 ==> r == qty.value
    ensures qty.None? || qty.value < 1 ==> r == 1
  {
    var asked := if qty.None? || qty.value == 0 then 1 else qty.value;
    if asked < 1 then 1 else asked
  }

  /** A new line copied from the product. */
  function Snapshot(p: Catalog.Product, qty: int): (r: CartLine)
    ensures r.productId == p.id && r.qty == qty
    ensures r.name == p.name && r.price == p.price && r.image == p.image
  {
    CartLine(p.id, p.name, p.price, p.image, qty)
  }

  /** The cart after `mergeCartItem`: the existing line for the product is raised by `qty`,
   *  or a snapshot of the product is appended. */
  function Merged(cart: seq<CartLine>, p: Catalog.Product, qty: int): (r: seq<CartLine>)
    ensures FindLine(cart, p.id).Some? ==>
      var i := FindLine(cart, p.id).value;
      && |r| == |cart|
      && r[i] == cart[i].(qty := cart[i].qty + qty)
      && forall j :: 0 <= j < |cart| && j != i ==> r[j] == cart[j]
    ensures FindLine(cart, p.id).None? ==>
      && |r| == |cart| + 1
      && r[..|cart|] == cart
      && r[|cart|] == Snapshot(p, qty)
  {
    match FindLine(cart, p.id)
    case Some(i) => cart[i := cart[i].(qty := cart[i].qty + qty)]
    case None => cart + [Snapshot(p, qty)]
  }

  /** The cart after the update handler sets a quantity: `None` when no line has that product,
   *  otherwise only the first matching line gets the new quantity. */
  function Updated(cart: seq<CartLine>, id: string, qty: int): (r: Option<seq<CartLine>>)
    ensures r.None? <==> FindLine(cart, id).None?
    ensures r.None? ==> forall j :: 0 <= j < |cart| ==> cart[j].productId != id
    ensures r.Some? ==>
      var i := FindLine(cart, id).value;
      && |r.value| == |cart|
      && r.value[i] == cart[i].(qty := qty)
      && forall j :: 0 <= j < |cart| && j != i ==> r.value[j] == cart[j]
  {
    match FindLine(cart, id)
    case None => None
    case Some(i) => Some(cart[i := cart[i].(qty := qty)])
  }

  /** The cart after the remove handler: every line for that product is filtered out. */
  function Removed(cart: seq<CartLine>, id: string): (r: seq<CartLine>)
    ensures |r| <= |cart|
    ensures forall j :: 0 <= j < |r| ==> r[j].productId != id
  {
    if cart == [] then []
    else (if cart[0].productId == id then [] else [cart[0]]) + Removed(cart[1..], id)
  }

  /** The total is additive over concatenation. */
  lemma {:induction false} CartTotalAppend(a: seq<CartLine>, b: seq<CartLine>)
    ensures CartTotal(a + b) == CartTotal(a) + CartTotal(b)
  {
    if b == [] {
      assert a + b == a;
    } else {
      var b' := b[..|b| - 1];
      assert (a + b)[..|a + b| - 1] == a + b';
      CartTotalAppend(a, b');
    }
  }

  /** Replacing one line changes the total by the difference of the two subtotals. */
  lemma CartTotalReplace(cart: seq<CartLine>, i: nat, line: CartLine)
    requires i < |cart|
    ensures CartTotal(cart[i := line]) == CartTotal(cart) - Subtotal(cart[i]) + Subtotal(line)
  {
    var pre, post := cart[..i], cart[i + 1..];
    assert cart == pre + [cart[i]] + post;
    assert cart[i := line] == pre + [line] + post;
    CartTotalAppend(pre + [cart[i]], post);
    CartTotalAppend(pre + [line], post);
    CartTotalAppend(pre, [cart[i]]);
    CartTotalAppend(pre, [line]);
  }

  /** Changing a line's quantity changes its subtotal by its price times the change. */
  lemma SubtotalWithQty(line: CartLine, qty: int)
    ensures Subtotal(line.(qty := qty)) == Subtotal(line) + line.price * (qty - line.qty)
  {
  }

  /** A cart whose prices and quantities are not negative has a total that is not negative. */
  lemma {:induction false} CartTotalNonNegative(cart: seq<CartLine>)
    requires forall j :: 0 <= j < |cart| ==> cart[j].price >= 0 && cart[j].qty >= 0
    ensures CartTotal(cart) >= 0
  {
    if cart != [] {
      var init := cart[..|cart| - 1];
      CartTotalNonNegative(init);
      var last := cart[|cart| - 1];
      assert last.price * last.qty >= 0;
    }
  }

  /** Merging a product that already has a line adds `qty` units at that line's own
   *  (snapshot) price. */
  lemma MergedExistingTotal(cart: seq<CartLine>, p: Catalog.Product, qty: int)
    requires FindLine(cart, p.id).Some?
    ensures CartTotal(Merged(cart, p, qty)) == CartTotal(cart) + cart[FindLine(cart, p.id).value].price * qty
  {
    var i := FindLine(cart, p.id).value;
    var line := cart[i];
    var line' := line.(qty := line.qty + qty);
    assert CartTotal(Merged(cart, p, qty)) == CartTotal(cart) - Subtotal(line) + Subtotal(line') by {
      assert Merged(cart, p, qty) == cart[i := line'];
      CartTotalReplace(cart, i, line');
    }
    assert Subtotal(line') == Subtotal(line) + line.price * qty by {
      SubtotalWithQty(line, line.qty + qty);
      assert line.qty + qty - line.qty == qty;
    }
  }

  /** Merging a product that has no line adds `qty` units at the product's price. */
  lemma MergedNewTotal(cart: seq<CartLine>, p: Catalog.Product, qty: int)
    requires FindLine(cart, p.id).None?
    ensures CartTotal(Merged(cart, p, qty)) == CartTotal(cart) + p.price * qty
  {
    var added := Snapshot(p, qty);
    assert Merged(cart, p, qty) == cart + [added];
    CartTotalAppend(cart, [added]);
    assert CartTotal([added]) == Subtotal(added) by {
      assert [added][..0] == [];
    }
  }

  /** Merging a positive quantity keeps one line per product with every quantity at least 1,
   *  and afterwards the product has a line. */
  lemma MergedWellFormed(cart: seq<CartLine>, p: Catalog.Product, qty: int)
    requires WellFormed(cart)
    requires qty >= 1
    ensures WellFormed(Merged(cart, p, qty))
    ensures FindLine(Merged(cart, p, qty), p.id).Some?
  {
    var r := Merged(cart, p, qty);
    if FindLine(cart, p.id).None? {
      assert r[|cart|].productId == p.id;
      forall j, k | 0 <= j < k < |r| ensures r[j].productId != r[k].productId {
        if k < |cart| {
          assert r[j] == cart[j] && r[k] == cart[k];
        } else {
          assert r[j] == cart[j];
        }
      }
    } else {
      assert r[FindLine(cart, p.id).value].productId == p.id;
    }
  }

  /** Adding a product twice is adding the sum of the two quantities once
   *  (adding 2 then 3 leaves one line with 5 more). */
  lemma MergedTwice(cart: seq<CartLine>, p: Catalog.Product, a: int, b: int)
    ensures Merged(Merged(cart, p, a), p, b) == Merged(cart, p, a + b)
  {
    var once := Merged(cart, p, a);
    match FindLine(cart, p.id)
    case Some(i) =>
      assert FindLine(once, p.id) == Some(i) by {
        assert forall j :: 0 <= j < i ==> once[j] == cart[j];
      }
    case None =>
      assert FindLine(once, p.id) == Some(|cart|) by {
        assert forall j :: 0 <= j < |cart| ==> once[j] == cart[j];
      }
  }

  /** Setting a quantity of at least 1 keeps the cart well formed. */
  lemma UpdatedWellFormed(cart: seq<CartLine>, id: string, qty: int)
    requires WellFormed(cart)
    requires qty >= 1
    ensures Updated(cart, id, qty).Some? ==> WellFormed(Updated(cart, id, qty).value)
  {
  }

  /** Setting a line's quantity changes the total by its price times the change in quantity. */
  lemma UpdatedTotal(cart: seq<CartLine>, id: string, qty: int)
    requires Updated(cart, id, qty).Some?
    ensures var i := FindLine(cart, id).value;
      CartTotal(Updated(cart, id, qty).value) == CartTotal(cart) + cart[i].price * (qty - cart[i].qty)
  {
    var i := FindLine(cart, id).value;
    var line := cart[i];
    var line' := line.(qty := qty);
    assert CartTotal(Updated(cart, id, qty).value) == CartTotal(cart) - Subtotal(line) + Subtotal(line') by {
      assert Updated(cart, id, qty).value == cart[i := line'];
      CartTotalReplace(cart, i, line');
    }
    SubtotalWithQty(line, qty);
  }

  /** Removing keeps exactly the lines for other products. */
  lemma {:induction false} RemovedMembers(cart: seq<CartLine>, id: string)
    ensures forall line :: line in Removed(cart, id) <==> line in cart && line.productId != id
  {
    if cart != [] {
      RemovedMembers(cart[1..], id);
      assert cart == [cart[0]] + cart[1..];
    }
  }

  /** Removing a product that has no line is a no-op. */
  lemma {:induction false} RemovedAbsent(cart: seq<CartLine>, id: string)
    requires forall j :: 0 <= j < |cart| ==> cart[j].productId != id
    ensures Removed(cart, id) == cart
  {
    if cart != [] {
      RemovedAbsent(cart[1..], id);
      assert cart == [cart[0]] + cart[1..];
    }
  }

  /** Removing distributes over concatenation: each line is kept or dropped on its own, and
   *  the kept lines stay in their order, whatever the cart. */
  lemma {:induction false} RemovedAppend(a: seq<CartLine>, b: seq<CartLine>, id: string)
    ensures Removed(a + b, id) == Removed(a, id) + Removed(b, id)
  {
    if a == [] {
      assert a + b == b;
    } else {
      var head := if a[0].productId == id then [] else [a[0]];
      assert (a + b)[0] == a[0] && (a + b)[1..] == a[1..] + b;
      assert Removed(a + b, id) == head + Removed(a[1..] + b, id);
      RemovedAppend(a[1..], b, id);
      assert Removed(a, id) == head + Removed(a[1..], id);
    }
  }

  /** Removing twice is removing once. */
  lemma RemovedIdempotent(cart: seq<CartLine>, id: string)
    ensures Removed(Removed(cart, id), id) == Removed(cart, id)
  {
    RemovedAbsent(Removed(cart, id), id);
  }

  /** When exactly one line, at `i`, has the product (as in a well-formed cart), removing it
   *  deletes that line and keeps the others in their order. */
  lemma {:induction false} RemovedSingle(cart: seq<CartLine>, id: string, i: nat)
    requires i < |cart| && cart[i].productId == id
    requires forall j :: 0 <= j < |cart| && j != i ==> cart[j].productId != id
    ensures Removed(cart, id) == cart[..i] + cart[i + 1..]
  {
    var tail := cart[1..];
    if i == 0 {
      RemovedAbsent(tail, id);
      assert Removed(cart, id) == tail;
    } else {
      RemovedSingle(tail, id, i - 1);
      assert cart[..i] == [cart[0]] + tail[..i - 1];
      assert cart[i + 1..] == tail[i..];
    }
  }

  /** Removing keeps the cart well formed. */
  lemma RemovedWellFormed(cart: seq<CartLine>, id: string)
    requires WellFormed(cart)
    ensures WellFormed(Removed(cart, id))
  {
    match FindLine(cart, id)
    case None => RemovedAbsent(cart, id);
    case Some(i) =>
      RemovedSingle(cart, id, i);
      var r := Removed(cart, id);
      forall j | 0 <= j < |r| ensures r[j] == cart[if j < i then j else j + 1] {
      }
  }

  /** In a well-formed cart, removing takes the removed line's subtotal off the total. */
  lemma RemovedTotal(cart: seq<CartLine>, id: string)
    requires WellFormed(cart)
    ensures CartTotal(Removed(cart, id)) ==
      CartTotal(cart) - (match FindLine(cart, id) case Some(i) => Subtotal(cart[i]) case None => 0)
  {
    match FindLine(cart, id)
    case None => RemovedAbsent(cart, id);
    case Some(i) =>
      RemovedSingle(cart, id, i);
      var pre, post := cart[..i], cart[i + 1..];
      assert cart == pre + [cart[i]] + post;
      CartTotalAppend(pre + [cart[i]], post);
      CartTotalAppend(pre, [cart[i]]);
      CartTotalAppend(pre, post);
  }
}

/**
 * The purchase tables written by checkout: one purchase record per checkout
 * and one purchase item per cart line, each item pointing at its purchase.
 */
module Orders {
  import Cart

  /** A purchase record; its creation timestamp is not modelled. */
  datatype Purchase = Purchase(
    id: int,
    name: string,
    email: string,
    address: string,
    total: int)

  /** A purchase item: a snapshot of one cart line under the id of its purchase
   *  (the item's own time-and-random id is not modelled). */
  datatype PurchaseItem = PurchaseItem(
    purchaseId: int,
    productId: string,
    name: string,
    price: int,
    qty: int,
    image: string)

  /** Some purchase in the table has this id. */
  ghost predicate HasPurchase(purchases: seq<Purchase>, id: int) {
    exists j :: 0 <= j < |purchases| && purchases[j].id == id
  }

  /** What checkout keeps true of the tables: purchase ids are positive and increase along
   *  the table, and every item points at a recorded purchase. */
  ghost predicate WellFormed(purchases: seq<Purchase>, items: seq<PurchaseItem>) {
    && (forall j :: 0 <= j < |purchases| ==> purchases[j].id >= 1)
    && (forall j, k :: 0 <= j < k < |purchases| ==> purchases[j].id < purchases[k].id)
    && (forall k :: 0 <= k < |items| ==> HasPurchase(purchases, items[k].purchaseId))
  }

  /** The largest purchase id in a non-empty table. */
  function LargestId(purchases: seq<Purchase>): (m: int)
    requires purchases != []
    ensures HasPurchase(purchases, m)
    ensures forall j :: 0 <= j < |purchases| ==> purchases[j].id <= m
  {
    if |purchases| == 1 then purchases[0].id
    else
      var rest := LargestId(purchases[1..]);
      assert purchases[1..][0] == purchases[1];
      if purchases[0].id >= rest then purchases[0].id
      else
        assert forall j :: 1 <= j < |purchases| ==> purchases[j] == purchases[1..][j - 1];
        rest
  }

  /** The id checkout gives a new purchase: the largest existing id (0 when there is none) plus one. */
  function NextPurchaseId(purchases: seq<Purchase>): (r: int)
    ensures forall j :: 0 <= j < |purchases| ==> purchases[j].id < r
    ensures purchases == [] ==> r == 1
    ensures purchases != [] ==> HasPurchase(purchases, r - 1)
  {
    (if purchases == [] then 0 else LargestId(purchases)) + 1
  }

  /** The purchase item recorded for one cart line. */
  function ItemOf(purchaseId: int, line: Cart.CartLine): (r: PurchaseItem)
    ensures r.purchaseId == purchaseId && r.productId == line.productId
    ensures r.name == line.name && r.price == line.price && r.qty == line.qty && r.image == line.image
  {
    PurchaseItem(purchaseId, line.productId, line.name, line.price, line.qty, line.image)
  }

  /** The items recorded for a cart, in the order of its lines. */
  function ItemsFor(purchaseId: int, lines: seq<Cart.CartLine>): (r: seq<PurchaseItem>)
    ensures |r| == |lines|
    ensures forall k :: 0 <= k < |lines| ==> r[k] == ItemOf(purchaseId, lines[k])
  {
    if lines == [] then []
    else ItemsFor(purchaseId, lines[..|lines| - 1]) + [ItemOf(purchaseId, lines[|lines| - 1])]
  }

  /** The sum of price times quantity over purchase items. */
  function ItemsTotal(items: seq<PurchaseItem>): int {
    if items == [] then 0
    else ItemsTotal(items[..|items| - 1]) + items[|items| - 1].price * items[|items| - 1].qty
  }

  /** The items recorded for a cart add up to the cart's total, so a purchase's total is the
   *  sum over its own items. */
  lemma {:induction false} ItemsForTotal(purchaseId: int, lines: seq<Cart.CartLine>)
    ensures ItemsTotal(ItemsFor(purchaseId, lines)) == Cart.CartTotal(lines)
  {
    if lines != [] {
      var init := lines[..|lines| - 1];
      ItemsForTotal(purchaseId, init);
      var items := ItemsFor(purchaseId, lines);
      assert items[..|items| - 1] == ItemsFor(purchaseId, init);
    }
  }

  /** No item recorded before a checkout points at the id that checkout allocates. */
  lemma NextIdUnused(purchases: seq<Purchase>, items: seq<PurchaseItem>)
    requires WellFormed(purchases, items)
    ensures forall k :: 0 <= k < |items| ==> items[k].purchaseId != NextPurchaseId(purchases)
  {
    forall k | 0 <= k < |items| ensures items[k].purchaseId != NextPurchaseId(purchases) {
      assert HasPurchase(purchases, items[k].purchaseId);
    }
  }

  /** Recording a purchase under the next id, with one item per cart line, keeps the tables
   *  well formed. */
  lemma RecordedWellFormed(purchases: seq<Purchase>, items: seq<PurchaseItem>,
                           name: string, email: string, address: string, total: int,
                           lines: seq<Cart.CartLine>)
    requires WellFormed(purchases, items)
    ensures var id := NextPurchaseId(purchases);
      WellFormed(purchases + [Purchase(id, name, email, address, total)], items + ItemsFor(id, lines))
  {
    var id := NextPurchaseId(purchases);
    var ps := purchases + [Purchase(id, name, email, address, total)];
    var its := items + ItemsFor(id, lines);
    assert id >= 1 by {
      if purchases != [] { assert HasPurchase(purchases, id - 1); }
    }
    forall k | 0 <= k < |its| ensures HasPurchase(ps, its[k].purchaseId) {
      if k < |items| {
        assert HasPurchase(purchases, items[k].purchaseId);
        var j :| 0 <= j < |purchases| && purchases[j].id == items[k].purchaseId;
        assert ps[j] == purchases[j];
      } else {
        assert its[k] == ItemOf(id, lines[k - |items|]);
        assert ps[|purchases|].id == id;
      }
    }
  }
}

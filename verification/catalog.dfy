/**
 * The product table: its records, the four demo products seeded into an empty
 * table, and the admin updates (add ignoring a duplicate id, delete, toggle
 * the featured flag) as functions on the table's value.
 */
module Catalog {
  import opened Wrappers

  /** A product record; `featured` is stored as the number 0 or 1. */
  datatype Product = Product(
    id: string,
    name: string,
    description: string,
    price: int,
    image: string,
    featured: int)

  /** The products seeded into an empty table, in this order. */
  const SEED_PRODUCTS: seq<Product> := [
    Product("p1", "Solar Panel 320W", "High-efficiency monocrystalline panel",
            189, "images/product1.jpg", 1),
    Product("p2", "Hybrid Inverter", "Smart inverter with battery support",
            499, "images/product2.jpg", 1),
    Product("p3", "4K Security Camera", "Weatherproof 4K camera with night vision",
            129, "images/product3.jpg", 1),
    Product("p4", "Battery 10kWh", "Reliable energy storage for solar systems",
            899, "images/product1.jpg", 0)
  ]

  /** What the admin routes keep true of the table: ids are unique and every flag is 0 or 1. */
  ghost predicate WellFormed(ps: seq<Product>) {
    && (forall j, k :: 0 <= j < k < |ps| ==> ps[j].id != ps[k].id)
    && (forall j :: 0 <= j < |ps| ==> ps[j].featured == 0 || ps[j].featured == 1)
  }

  /** The position of the first product with this id (lowdb's `find({ id })`). */
  function IndexOf(ps: seq<Product>, id: string): (r: Option<nat>)
    ensures r.Some? ==> r.value < |ps| && ps[r.value].id == id
    ensures r.Some? ==> forall j :: 0 <= j < r.value ==> ps[j].id != id
    ensures r.None? ==> forall j :: 0 <= j < |ps| ==> ps[j].id != id
  {
    if ps == [] then None
    else if ps[0].id == id then Some(0)
    else match IndexOf(ps[1..], id)
      case None => None
      case Some(k) => Some(k + 1)
  }

  /** The table after startup: seeded only when it is empty. */
  function Seeded(ps: seq<Product>): (r: seq<Product>)
    ensures r != []
    ensures ps != [] ==> r == ps
    ensures ps == [] ==> r == SEED_PRODUCTS
  {
    if |ps| == 0 then SEED_PRODUCTS else ps
  }

  /** The table after an admin add: appended unless a product with that id already exists. */
  function WithProduct(ps: seq<Product>, p: Product): (r: seq<Product>)
    ensures |ps| <= |r| <= |ps| + 1 && r[..|ps|] == ps
    ensures IndexOf(r, p.id).Some?
    ensures IndexOf(ps, p.id).Some? ==> r == ps
    ensures IndexOf(ps, p.id).None? ==> |r| == |ps| + 1 && r[|ps|] == p
  {
    if IndexOf(ps, p.id).Some? then ps
    else
      var r := ps + [p];
      assert r[|ps|].id == p.id;
      r
  }

  /** The table after an admin delete: every product with that id is dropped. */
  function Without(ps: seq<Product>, id: string): (r: seq<Product>)
    ensures |r| <= |ps|
    ensures forall j :: 0 <= j < |r| ==> r[j].id != id
  {
    if ps == [] then []
    else (if ps[0].id == id then [] else [ps[0]]) + Without(ps[1..], id)
  }

  /** The flag after a toggle: a truthy flag becomes 0, a falsy one 1. */
  function Flipped(featured: int): (r: int)
    ensures r == 0 || r == 1
    ensures r == 1 <==> featured == 0
  {
    if featured != 0 then 0 else 1
  }

  /** The table after the feature toggle: the first product with that id has its flag flipped. */
  function Toggled(ps: seq<Product>, id: string): (r: seq<Product>)
    ensures |r| == |ps|
    ensures IndexOf(ps, id).None? ==> r == ps
    ensures IndexOf(ps, id).Some? ==>
      var i := IndexOf(ps, id).value;
      && r[i] == ps[i].(featured := Flipped(ps[i].featured))
      && forall j :: 0 <= j < |ps| && j != i ==> r[j] == ps[j]
  {
    match IndexOf(ps, id)
    case None => ps
    case Some(i) => ps[i := ps[i].(featured := Flipped(ps[i].featured))]
  }

  /** The seed table itself satisfies the table's invariant. */
  lemma SeedWellFormed()
    ensures WellFormed(SEED_PRODUCTS)
    ensures forall j :: 0 <= j < |SEED_PRODUCTS| ==> SEED_PRODUCTS[j].price >= 0
  {
  }

  /** Startup leaves a well-formed, non-empty table: the seed when the table was empty, the
   *  table itself otherwise; a second startup changes nothing. */
  lemma SeededWellFormed(ps: seq<Product>)
    requires WellFormed(ps)
    ensures WellFormed(Seeded(ps)) && Seeded(ps) != []
    ensures ps != [] ==> Seeded(ps) == ps
    ensures Seeded(Seeded(ps)) == Seeded(ps)
  {
    SeedWellFormed();
  }

  /** An admin add keeps ids unique, so a duplicate id never enters the table. */
  lemma WithProductWellFormed(ps: seq<Product>, p: Product)
    requires WellFormed(ps)
    requires p.featured == 0 || p.featured == 1
    ensures WellFormed(WithProduct(ps, p))
  {
  }

  /** Adding the same record twice leaves the table as adding it once. */
  lemma WithProductIdempotent(ps: seq<Product>, p: Product)
    ensures WithProduct(WithProduct(ps, p), p) == WithProduct(ps, p)
  {
  }

  /** Deleting keeps exactly the products with another id. */
  lemma {:induction false} WithoutMembers(ps: seq<Product>, id: string)
    ensures forall p :: p in Without(ps, id) <==> p in ps && p.id != id
  {
    if ps != [] {
      WithoutMembers(ps[1..], id);
      assert ps == [ps[0]] + ps[1..];
    }
  }

  /** Deleting an id that is not in the table changes nothing. */
  lemma {:induction false} WithoutAbsent(ps: seq<Product>, id: string)
    requires forall j :: 0 <= j < |ps| ==> ps[j].id != id
    ensures Without(ps, id) == ps
  {
    if ps != [] {
      WithoutAbsent(ps[1..], id);
      assert ps == [ps[0]] + ps[1..];
    }
  }

  /** Deleting distributes over concatenation: each product is kept or dropped on its own,
   *  and the kept products stay in their order, whatever the table. */
  lemma {:induction false} WithoutAppend(a: seq<Product>, b: seq<Product>, id: string)
    ensures Without(a + b, id) == Without(a, id) + Without(b, id)
  {
    if a == [] {
      assert a + b == b;
    } else {
      var head := if a[0].id == id then [] else [a[0]];
      assert (a + b)[0] == a[0] && (a + b)[1..] == a[1..] + b;
      assert Without(a + b, id) == head + Without(a[1..] + b, id);
      WithoutAppend(a[1..], b, id);
      assert Without(a, id) == head + Without(a[1..], id);
    }
  }

  /** Deleting twice is deleting once. */
  lemma WithoutIdempotent(ps: seq<Product>, id: string)
    ensures Without(Without(ps, id), id) == Without(ps, id)
  {
    var r := Without(ps, id);
    forall j | 0 <= j < |r| ensures r[j].id != id {
      assert r[j] in r;
    }
    WithoutAbsent(r, id);
  }

  /** When exactly one product, at `i`, has the id (as in a well-formed table), deleting it
   *  removes that product and keeps the others in their order. */
  lemma {:induction false} WithoutSingle(ps: seq<Product>, id: string, i: nat)
    requires i < |ps| && ps[i].id == id
    requires forall j :: 0 <= j < |ps| && j != i ==> ps[j].id != id
    ensures Without(ps, id) == ps[..i] + ps[i + 1..]
  {
    var tail := ps[1..];
    if i == 0 {
      WithoutAbsent(tail, id);
      assert Without(ps, id) == tail;
    } else {
      WithoutSingle(tail, id, i - 1);
      assert ps[..i] == [ps[0]] + tail[..i - 1];
      assert ps[i + 1..] == tail[i..];
    }
  }

  /** Deleting keeps the table's invariant. */
  lemma WithoutWellFormed(ps: seq<Product>, id: string)
    requires WellFormed(ps)
    ensures WellFormed(Without(ps, id))
  {
    match IndexOf(ps, id)
    case None => WithoutAbsent(ps, id);
    case Some(i) =>
      WithoutSingle(ps, id, i);
      var r := Without(ps, id);
      forall j | 0 <= j < |r| ensures r[j] == ps[if j < i then j else j + 1] {
      }
  }

  /** Toggling keeps ids, and the flags stay 0 or 1. */
  lemma ToggledWellFormed(ps: seq<Product>, id: string)
    requires WellFormed(ps)
    ensures WellFormed(Toggled(ps, id))
    ensures forall j :: 0 <= j < |ps| ==> Toggled(ps, id)[j].id == ps[j].id
  {
  }

  /** On a table whose flags are 0 or 1, toggling twice restores the table. */
  lemma ToggledTwice(ps: seq<Product>, id: string)
    requires WellFormed(ps)
    ensures Toggled(Toggled(ps, id), id) == ps
  {
    var r := Toggled(ps, id);
    match IndexOf(ps, id)
    case None =>
    case Some(i) =>
      assert r[i].id == id;
      assert IndexOf(r, id) == Some(i) by {
        forall j | 0 <= j < i ensures r[j].id != id { assert r[j] == ps[j]; }
      }
  }
}

/**
 * Cart lines and their rules. A cart maps a plant id to a quantity; the same
 * map serves the persisted cart of a logged-in user (its CartItem rows) and the
 * session cart of a guest (whose keys are the plant ids as strings).
 */
module Carts {
  import opened Results
  import opened Models

  type Cart = map<PlantId, int>

  /** The quantity a cart holds for a plant; a plant without a line holds 0. */
  function QuantityIn(c: Cart, id: PlantId): int
  {
    if id in c then c[id] else 0
  }

  /** The requested quantity, capped from above by the stock (never raised from below). */
  function ClampToStock(requested: int, stock: int): (q: int)
    ensures q <= stock && q <= requested
    ensures q == requested || q == stock
  {
    if requested > stock then stock else requested
  }

  /**
   * The quantity of a line after an add: the clamped request is added to what
   * the line held, and the sum is capped by the stock again.
   */
  function MergedQuantity(current: int, requested: int, stock: int): (q: int)
    ensures q <= stock
    ensures q <= current + requested
    ensures current >= 0 ==> q == (if current + requested <= stock then current + requested else stock)
  {
    var sum := current + ClampToStock(requested, stock);
    if sum > stock then stock else sum
  }

  /** The cart after adding `requested` of a plant that has `stock` left. */
  function AddLine(c: Cart, id: PlantId, requested: int, stock: int): (c': Cart)
    ensures c'.Keys == c.Keys + {id}
    ensures c'[id] == MergedQuantity(QuantityIn(c, id), requested, stock) && c'[id] <= stock
    ensures forall k :: k in c && k != id ==> c'[k] == c[k]
  {
    c[id := MergedQuantity(QuantityIn(c, id), requested, stock)]
  }

  /**
   * Adding to a persisted cart: the line is fetched or created (a created line
   * is saved at once with the default quantity 1), then saved with the merged
   * quantity. The database refuses a negative quantity; the created line then
   * stays behind with its default.
   */
  function PersistedAdd(c: Cart, id: PlantId, requested: int, stock: int): (r: (Outcome, Cart))
    ensures r.0 == Done <==> Storable(MergedQuantity(QuantityIn(c, id), requested, stock))
    ensures r.0 == Done ==> r.1 == AddLine(c, id, requested, stock)
    ensures r.0 != Done ==> r.0 == Failed(IntegrityError) && r.1.Keys == c.Keys + {id}
    ensures r.0 != Done ==> r.1[id] == (if id in c then c[id] else DefaultCartQuantity)
    ensures forall k :: k in c && k != id ==> r.1[k] == c[k]
  {
    var created := if id in c then c else c[id := DefaultCartQuantity];
    var q := MergedQuantity(QuantityIn(c, id), requested, stock);
    if Storable(q) then (Done, created[id := q]) else (Failed(IntegrityError), created)
  }

  /** Every quantity of a persisted cart is one the database accepts. */
  ghost predicate AllStorable(c: Cart)
  {
    forall k :: k in c ==> Storable(c[k])
  }

  /** Whatever the request, a persisted add keeps every stored quantity acceptable to the database. */
  lemma PersistedAddStorable(c: Cart, id: PlantId, requested: int, stock: int)
    requires AllStorable(c)
    ensures AllStorable(PersistedAdd(c, id, requested, stock).1)
  {
  }

  /** An add that succeeds leaves a line between 0 and the stock. */
  lemma PersistedAddBounded(c: Cart, id: PlantId, requested: int, stock: int)
    requires PersistedAdd(c, id, requested, stock).0 == Done
    ensures 0 <= PersistedAdd(c, id, requested, stock).1[id] <= stock
  {
  }

  /**
   * A negative request for a plant that is out of stock leaves a line of 1 in
   * the persisted cart: more than the stock, unlike the session cart.
   */
  lemma NegativeRequestLeavesDefaultLine(id: PlantId)
    ensures PersistedAdd(map[], id, -1, 0) == (Failed(IntegrityError), map[id := 1])
    ensures AddLine(map[], id, -1, 0) == map[id := -1]
  {
  }

  /** Stock 5: adding 3 and then 4 gives a line of 5, not 7. */
  lemma AddTwiceClampsToStock(id: PlantId)
    ensures AddLine(map[], id, 3, 5)[id] == 3
    ensures AddLine(AddLine(map[], id, 3, 5), id, 4, 5) == map[id := 5]
  {
  }

  /** A cart that is not empty has a line. */
  lemma SomeLine(c: Cart)
    requires c != map[]
    ensures exists k :: k in c
  {
    if forall k :: k !in c { assert false; }
  }

  /** The sum of price times quantity over the lines of a cart, at the given prices. */
  ghost function CartTotal(c: Cart, plants: map<PlantId, Plant>): (t: Cents)
    requires c.Keys <= plants.Keys
    ensures c == map[] ==> t == 0
    ensures (forall k :: k in c ==> plants[k].price >= 0 && c[k] >= 0) ==> t >= 0
    decreases |c|
  {
    if c == map[] then 0
    else
      SomeLine(c);
      var k :| k in c;
      assert |c - {k}| < |c| by { assert c.Keys == (c - {k}).Keys + {k}; }
      Subtotal(plants[k].price, c[k]) + CartTotal(c - {k}, plants)
  }

  /** A cart's total is any one line's subtotal plus the total of the rest: the order of summing does not matter. */
  lemma {:induction false} CartTotalRemove(c: Cart, plants: map<PlantId, Plant>, k: PlantId)
    requires c.Keys <= plants.Keys && k in c
    ensures CartTotal(c, plants) == Subtotal(plants[k].price, c[k]) + CartTotal(c - {k}, plants)
    decreases |c|
  {
    var j :| j in c && CartTotal(c, plants) == Subtotal(plants[j].price, c[j]) + CartTotal(c - {j}, plants);
    if j != k {
      assert |c - {j}| < |c| by { assert c.Keys == (c - {j}).Keys + {j}; }
      CartTotalRemove(c - {j}, plants, k);
      assert |c - {k}| < |c| by { assert c.Keys == (c - {k}).Keys + {k}; }
      CartTotalRemove(c - {k}, plants, j);
      assert c - {j} - {k} == c - {k} - {j};
    }
  }

  /** One row of the cart page. */
  datatype CartLine = CartLine(plant: PlantId, quantity: int, subtotal: Cents)

  /** The cart page: one row per line, and the total. */
  datatype CartPage = CartPage(lines: seq<CartLine>, total: Cents)

  /** The rows show each line of `c` exactly once, with its quantity and its subtotal at the current price. */
  ghost predicate ShowsCart(lines: seq<CartLine>, c: Cart, plants: map<PlantId, Plant>)
    requires c.Keys <= plants.Keys
  {
    && |lines| == |c|
    && (forall i, j :: 0 <= i < j < |lines| ==> lines[i].plant != lines[j].plant)
    && (forall i :: 0 <= i < |lines| ==>
          lines[i].plant in c
          && lines[i].quantity == c[lines[i].plant]
          && lines[i].subtotal == Subtotal(plants[lines[i].plant].price, lines[i].quantity))
    && (forall k :: k in c ==> exists i :: 0 <= i < |lines| && lines[i].plant == k)
  }

  /**
   * The cart page: walks the lines, looks each plant up, and accumulates the
   * total. A line whose plant is gone fails the lookup.
   */
  method PriceCart(c: Cart, plants: map<PlantId, Plant>) returns (r: Result<CartPage>)
    ensures r.Ok? <==> c.Keys <= plants.Keys
    ensures r.Err? ==> r.error == NotFound
    ensures r.Ok? ==> r.value.total == CartTotal(c, plants) && ShowsCart(r.value.lines, c, plants)
  {
    var lines: seq<CartLine> := [];
    var total := 0;
    var rest := c;
    ghost var done: Cart := map[];
    while rest != map[]
      invariant done.Keys <= plants.Keys
      invariant Split(c, done, rest)
      invariant total == CartTotal(done, plants)
      invariant ShowsCart(lines, done, plants)
      decreases |rest|
    {
      SomeLine(rest);
      var id :| id in rest;
      if id !in plants {
        return Err(NotFound);
      }
      var qty := rest[id];
      var subtotal := Subtotal(plants[id].price, qty);
      MoveLine(c, done, rest, id);
      CartTotalRemove(done[id := qty], plants, id);
      assert done[id := qty] - {id} == done;
      AddShownLine(lines, done, plants, id, qty);
      lines := lines + [CartLine(id, qty, subtotal)];
      total := total + subtotal;
      done := done[id := qty];
      rest := rest - {id};
    }
    SplitDone(c, done, rest);
    r := Ok(CartPage(lines, total));
  }

  /** `c` is split into the lines already walked and the lines still to walk. */
  ghost predicate Split(c: Cart, done: Cart, rest: Cart)
  {
    && done.Keys !! rest.Keys
    && (forall k :: k in c <==> k in rest || k in done)
    && (forall k :: k in rest ==> rest[k] == c[k])
    && (forall k :: k in done ==> done[k] == c[k])
  }

  lemma MoveLine(c: Cart, done: Cart, rest: Cart, id: PlantId)
    requires Split(c, done, rest) && id in rest
    ensures Split(c, done[id := rest[id]], rest - {id})
    ensures |rest - {id}| < |rest|
  {
    assert rest.Keys == (rest - {id}).Keys + {id};
  }

  lemma SplitDone(c: Cart, done: Cart, rest: Cart)
    requires Split(c, done, rest) && rest == map[]
    ensures done == c
  {
    forall k ensures k in done <==> k in c {
      assert k !in rest;
    }
    assert done.Keys == c.Keys;
    forall k | k in done ensures done[k] == c[k] {}
  }

  lemma AddShownLine(lines: seq<CartLine>, c: Cart, plants: map<PlantId, Plant>, id: PlantId, qty: int)
    requires c.Keys <= plants.Keys && id in plants && id !in c
    requires ShowsCart(lines, c, plants)
    ensures ShowsCart(lines + [CartLine(id, qty, Subtotal(plants[id].price, qty))], c[id := qty], plants)
  {
    var lines' := lines + [CartLine(id, qty, Subtotal(plants[id].price, qty))];
    var c' := c[id := qty];
    assert |c'| == |c| + 1 by { assert c'.Keys == c.Keys + {id}; }
    forall k | k in c' ensures exists i :: 0 <= i < |lines'| && lines'[i].plant == k {
      if k == id {
        assert lines'[|lines|].plant == k;
      } else {
        var i :| 0 <= i < |lines| && lines[i].plant == k;
        assert lines'[i].plant == k;
      }
    }
  }
}

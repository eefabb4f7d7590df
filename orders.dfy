/**
 * Orders: the finalize step that turns cart lines into order items and takes
 * the ordered quantities out of stock, and the lookups of a user's orders.
 */
module Orders {
  import opened Results
  import opened Models
  import opened Carts

  // ---------------------------------------------------------------- finalize

  /**
   * A plant after `qty` of it is sold: the stock drops by `qty` but not below 0,
   * and a plant that runs out becomes unavailable; otherwise its availability
   * is left as it was.
   */
  function Decrement(p: Plant, qty: int): (r: Plant)
    ensures r.stock >= 0 && r.stock >= p.stock - qty
    ensures r.stock == 0 || r.stock == p.stock - qty
    ensures r.available <==> p.available && p.stock - qty > 0
    ensures r.stock == 0 ==> !r.available
    ensures r == p.(stock := r.stock, available := r.available)
  {
    var left := p.stock - qty;
    if left <= 0 then p.(stock := 0, available := false) else p.(stock := left)
  }

  /** The catalog after every line of `cart` is taken out of stock. */
  ghost function DecrementAll(plants: map<PlantId, Plant>, cart: Cart): map<PlantId, Plant>
  {
    map id | id in plants :: if id in cart then Decrement(plants[id], cart[id]) else plants[id]
  }

  /**
   * `items` are the order items of order `oid` made from `cart`: exactly one
   * per line, with the line's plant and quantity and the plant's price in `plants`.
   */
  ghost predicate ItemsForCart(items: seq<OrderItem>, cart: Cart, oid: OrderId, plants: map<PlantId, Plant>)
    requires cart.Keys <= plants.Keys
  {
    && |items| == |cart|
    && (forall i, j :: 0 <= i < j < |items| ==> items[i].plant != items[j].plant)
    && (forall i :: 0 <= i < |items| ==>
          items[i].order == oid
          && items[i].plant in cart
          && items[i].quantity == cart[items[i].plant]
          && items[i].price == plants[items[i].plant].price)
    && (forall k :: k in cart ==> exists i :: 0 <= i < |items| && items[i].plant == k)
  }

  /**
   * The finalize step of order `oid` from `cart`: the items end up as
   * `items0` followed by one new item per line, and the catalog as
   * `DecrementAll(plants0, cart)`.
   */
  ghost predicate Finalized(
    cart: Cart, oid: OrderId,
    plants0: map<PlantId, Plant>, items0: seq<OrderItem>,
    plants1: map<PlantId, Plant>, items1: seq<OrderItem>)
    requires cart.Keys <= plants0.Keys
  {
    && plants1 == DecrementAll(plants0, cart)
    && |items0| <= |items1|
    && items1[..|items0|] == items0
    && ItemsForCart(items1[|items0|..], cart, oid, plants0)
  }

  /** The sum of price times quantity over some order items. */
  function ItemsTotal(items: seq<OrderItem>): Cents
  {
    if items == [] then 0 else items[0].price * items[0].quantity + ItemsTotal(items[1..])
  }

  /** Items made from a cart cost, together, the cart's total at the prices they copied. */
  lemma {:induction false} ItemsForCartTotal(items: seq<OrderItem>, cart: Cart, oid: OrderId, plants: map<PlantId, Plant>)
    requires cart.Keys <= plants.Keys
    requires ItemsForCart(items, cart, oid, plants)
    ensures ItemsTotal(items) == CartTotal(cart, plants)
    decreases |items|
  {
    if items == [] {
      assert cart == map[];
    } else {
      var k := items[0].plant;
      var rest := items[1..];
      var cart' := cart - {k};
      forall i, j | 0 <= i < j < |rest| ensures rest[i].plant != rest[j].plant {
        assert items[i + 1].plant != items[j + 1].plant;
      }
      forall i | 0 <= i < |rest|
        ensures rest[i].order == oid && rest[i].plant in cart' && rest[i].quantity == cart'[rest[i].plant]
        ensures rest[i].price == plants[rest[i].plant].price
      {
        assert items[0].plant != items[i + 1].plant;
      }
      assert |cart'| == |rest| by { assert cart.Keys == cart'.Keys + {k}; }
      forall k' | k' in cart' ensures exists i :: 0 <= i < |rest| && rest[i].plant == k' {
        var i :| 0 <= i < |items| && items[i].plant == k';
        assert i != 0 && rest[i - 1].plant == k';
      }
      ItemsForCartTotal(rest, cart', oid, plants);
      CartTotalRemove(cart, plants, k);
    }
  }

  /** Finalizing charges, in items, exactly the cart's total at the prices of the moment. */
  lemma FinalizedTotal(
    cart: Cart, oid: OrderId,
    plants0: map<PlantId, Plant>, items0: seq<OrderItem>,
    plants1: map<PlantId, Plant>, items1: seq<OrderItem>)
    requires cart.Keys <= plants0.Keys
    requires Finalized(cart, oid, plants0, items0, plants1, items1)
    ensures ItemsTotal(items1[|items0|..]) == CartTotal(cart, plants0)
  {
    ItemsForCartTotal(items1[|items0|..], cart, oid, plants0);
  }

  /** Finalizing an empty cart adds no item and leaves the catalog as it was. */
  lemma FinalizedEmpty(
    oid: OrderId,
    plants0: map<PlantId, Plant>, items0: seq<OrderItem>,
    plants1: map<PlantId, Plant>, items1: seq<OrderItem>)
    requires Finalized(map[], oid, plants0, items0, plants1, items1)
    ensures items1 == items0 && plants1 == plants0
  {
    assert items1 == items1[..|items0|] + items1[|items0|..];
    var added := items1[|items0|..];
    forall id ensures id in plants1 <==> id in plants0 {}
    forall id | id in plants1 ensures plants1[id] == plants0[id] {}
  }

  // ---------------------------------------------------------------- lookups

  /** The order `oid` if it belongs to `user`; an order of someone else is not found. */
  function FindOrder(orders: seq<Order>, oid: OrderId, user: UserId): (r: Option<Order>)
    ensures r.Some? ==> r.value in orders && r.value.id == oid && r.value.user == user
    ensures r.None? ==> forall o :: o in orders ==> !(o.id == oid && o.user == user)
  {
    if orders == [] then None
    else if orders[0].id == oid && orders[0].user == user then Some(orders[0])
    else FindOrder(orders[1..], oid, user)
  }

  /**
   * The items of order `oid`, in the order they were created.
   */
  function ItemsOf(items: seq<OrderItem>, oid: OrderId): (r: seq<OrderItem>)
    ensures |r| <= |items|
    ensures forall it {:trigger it in r} :: it in r <==> it in items && it.order == oid
  {
    if items == [] then []
    else (if items[0].order == oid then [items[0]] else []) + ItemsOf(items[1..], oid)
  }

  /** An order's items hold each of its stored items as many times as it is stored, and nothing else. */
  lemma {:induction false} ItemsOfCounts(items: seq<OrderItem>, oid: OrderId)
    ensures forall it :: multiset(ItemsOf(items, oid))[it] == if it.order == oid then multiset(items)[it] else 0
    decreases |items|
  {
    if items != [] {
      assert items == [items[0]] + items[1..];
      ItemsOfCounts(items[1..], oid);
    }
  }

  /** Looking up an order's items keeps their order: the lookup over two runs of items is the two lookups joined. */
  lemma {:induction false} ItemsOfAppend(a: seq<OrderItem>, b: seq<OrderItem>, oid: OrderId)
    ensures ItemsOf(a + b, oid) == ItemsOf(a, oid) + ItemsOf(b, oid)
    decreases |a|
  {
    if a == [] {
      assert a + b == b;
    } else {
      var head := if a[0].order == oid then [a[0]] else [];
      assert (a + b)[0] == a[0] && (a + b)[1..] == a[1..] + b;
      ItemsOfAppend(a[1..], b, oid);
      assert ItemsOf(a + b, oid) == head + (ItemsOf(a[1..], oid) + ItemsOf(b, oid));
    }
  }

  /** Items that all belong to order `oid` are its items, unchanged and in order. */
  lemma {:induction false} ItemsOfOnly(items: seq<OrderItem>, oid: OrderId)
    requires forall i :: 0 <= i < |items| ==> items[i].order == oid
    ensures ItemsOf(items, oid) == items
    decreases |items|
  {
    if items != [] {
      ItemsOfOnly(items[1..], oid);
    }
  }

  /** Items that all belong to earlier orders hold nothing of order `oid`. */
  lemma {:induction false} NoItemsYet(items: seq<OrderItem>, oid: OrderId)
    requires forall i :: 0 <= i < |items| ==> items[i].order < oid
    ensures ItemsOf(items, oid) == []
    decreases |items|
  {
    if items != [] {
      assert items[0].order < oid;
      NoItemsYet(items[1..], oid);
    }
  }

  /**
   * An order that had no items, once finalized: looking its items up finds
   * exactly the items finalize made, and they cost the cart's total.
   */
  lemma FinalizedOrderTotal(
    cart: Cart, oid: OrderId,
    plants0: map<PlantId, Plant>, items0: seq<OrderItem>,
    plants1: map<PlantId, Plant>, items1: seq<OrderItem>)
    requires cart.Keys <= plants0.Keys
    requires Finalized(cart, oid, plants0, items0, plants1, items1)
    requires ItemsOf(items0, oid) == []
    ensures ItemsOf(items1, oid) == items1[|items0|..]
    ensures ItemsTotal(ItemsOf(items1, oid)) == CartTotal(cart, plants0)
  {
    var added := items1[|items0|..];
    assert items1 == items0 + added;
    ItemsOfAppend(items0, added, oid);
    ItemsOfOnly(added, oid);
    FinalizedTotal(cart, oid, plants0, items0, plants1, items1);
  }

  /** The order page: the caller's own order with its items. */
  function OrderDetail(orders: seq<Order>, items: seq<OrderItem>, user: UserId, oid: OrderId): (r: Result<(Order, seq<OrderItem>)>)
    ensures r.Ok? <==> exists o :: o in orders && o.id == oid && o.user == user
    ensures r.Err? ==> r.error == NotFound
    ensures r.Ok? ==> r.value.0 in orders && r.value.0.id == oid && r.value.0.user == user
    ensures r.Ok? ==> forall it :: it in r.value.1 <==> it in items && it.order == oid
    ensures r.Ok? ==> forall it :: multiset(r.value.1)[it] == if it.order == oid then multiset(items)[it] else 0
  {
    match FindOrder(orders, oid, user)
    case None => Err(NotFound)
    case Some(o) =>
      ItemsOfCounts(items, oid);
      Ok((o, ItemsOf(items, oid)))
  }

  /** Ids that grow along the sequence: the orders in the order they were created. */
  ghost predicate IdsIncreasing(orders: seq<Order>)
  {
    forall i, j :: 0 <= i < j < |orders| ==> orders[i].id < orders[j].id
  }

  /** "My orders": the caller's orders and nobody else's, newest first. */
  function MyOrders(orders: seq<Order>, user: UserId): (r: seq<Order>)
    ensures forall o :: o in r <==> o in orders && o.user == user
    ensures IdsIncreasing(orders) ==> forall i, j :: 0 <= i < j < |r| ==> r[i].id > r[j].id
  {
    if orders == [] then []
    else
      var newer := MyOrders(orders[1..], user);
      assert IdsIncreasing(orders) ==> IdsIncreasing(orders[1..]) by {
        if IdsIncreasing(orders) {
          forall i, j | 0 <= i < j < |orders[1..]| ensures orders[1..][i].id < orders[1..][j].id {
            assert orders[i + 1].id < orders[j + 1].id;
          }
        }
      }
      assert IdsIncreasing(orders) ==> forall o :: o in newer ==> o.id > orders[0].id by {
        if IdsIncreasing(orders) {
          forall o | o in newer ensures o.id > orders[0].id {
            var i :| 0 <= i < |orders[1..]| && orders[1..][i] == o;
            assert orders[i + 1] == o;
          }
        }
      }
      newer + (if orders[0].user == user then [orders[0]] else [])
  }
}

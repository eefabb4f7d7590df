/**
 * The store's views as operations on its tables: adding to and removing from a
 * cart, the cart page, checkout, the payment confirmation that finalizes an
 * online order, and the admin's edit of a plant.
 */
module Store {
  import opened Results
  import opened Models
  import opened Carts
  import opened Orders

  type SessionId = int

  /** Who is calling: a logged-in user, or a guest known by a session. */
  datatype Identity = Member(user: UserId) | Guest(session: SessionId)

  /** The add-to-cart form's quantity: 1 when the field is absent, never raised from below. */
  function RequestedQuantity(field: Option<int>): (q: int)
    ensures field.None? ==> q == 1
    ensures field.Some? ==> q == field.value
  {
    match field
    case None => 1
    case Some(n) => n
  }

  /** The checkout form's fields; `None` for a field the POST did not carry. */
  datatype CheckoutForm = CheckoutForm(
    name: Option<string>, phone: Option<string>, address: Option<string>,
    city: Option<string>, pincode: Option<string>, paymentMethod: Option<string>)
  {
    /**
     * Whether the order row can be inserted: each field is passed to the row
     * explicitly, so a missing one is a NULL in a NOT NULL column.
     */
    predicate Complete()
    {
      name.Some? && phone.Some? && address.Some? && city.Some? && pincode.Some? && paymentMethod.Some?
    }

    /** The order row the form creates. */
    function ToOrder(id: OrderId, user: UserId, total: Cents): (o: Order)
      requires Complete()
      ensures o.id == id && o.user == user && o.total == total && o.status == Pending
      ensures o.paymentMethod == paymentMethod.value
      ensures o.shipping == Shipping(name.value, address.value, phone.value, city.value, pincode.value)
    {
      NewOrder(id, user, total, name, address, phone, city, pincode, paymentMethod)
    }
  }

  class Store {
    /** The Plant table by id. */
    var plants: map<PlantId, Plant>
    /** The CartItem rows: each user's persisted cart; a user without rows has no entry. */
    var carts: map<UserId, Cart>
    /** The guest carts kept in sessions. */
    var sessions: map<SessionId, Cart>
    /** The Order table in creation order. */
    var orders: seq<Order>
    /** The OrderItem table in creation order. */
    var orderItems: seq<OrderItem>

    /**
     * Persisted cart lines refer to existing plants and hold quantities the
     * database accepts; orders are numbered 1, 2, ... as they are created; every
     * order item belongs to an existing order.
     */
    ghost predicate Valid()
      reads this
    {
      && (forall u :: u in carts ==> carts[u].Keys <= plants.Keys && AllStorable(carts[u]))
      && (forall i :: 0 <= i < |orders| ==> orders[i].id == i + 1)
      && (forall i :: 0 <= i < |orderItems| ==> 1 <= orderItems[i].order <= |orders|)
    }

    /** The cart of a caller: the persisted one for a user, the session one for a guest. */
    function CartOf(who: Identity): Cart
      reads this
    {
      match who
      case Member(u) => if u in carts then carts[u] else map[]
      case Guest(s) => if s in sessions then sessions[s] else map[]
    }

    lemma MemberCartPriced(u: UserId)
      requires Valid()
      ensures CartOf(Member(u)).Keys <= plants.Keys
    {
    }

    constructor (catalog: map<PlantId, Plant>)
      ensures Valid()
      ensures plants == catalog && carts == map[] && sessions == map[]
      ensures orders == [] && orderItems == []
    {
      plants := catalog;
      carts := map[];
      sessions := map[];
      orders := [];
      orderItems := [];
    }

    /**
     * The add-to-cart form of a plant's page. The request is capped by the
     * stock and merged into the caller's line, capped again. A guest's session
     * cart takes the result as it is; a user's persisted line is first created
     * with quantity 1 if missing, and the database refuses a negative quantity.
     */
    method AddToCart(who: Identity, id: PlantId, quantity: Option<int>) returns (r: Outcome)
      requires Valid()
      modifies this
      ensures Valid()
      ensures plants == old(plants) && orders == old(orders) && orderItems == old(orderItems)
      ensures id !in plants ==> r == Failed(NotFound) && carts == old(carts) && sessions == old(sessions)
      ensures id in plants && who.Guest? ==>
                && r == Done && carts == old(carts)
                && sessions == old(sessions)[who.session := AddLine(old(CartOf(who)), id, RequestedQuantity(quantity), plants[id].stock)]
      ensures id in plants && who.Member? ==>
                && (r, CartOf(who)) == PersistedAdd(old(CartOf(who)), id, RequestedQuantity(quantity), plants[id].stock)
                && carts == old(carts)[who.user := CartOf(who)]
                && sessions == old(sessions)
      ensures r == Done ==> CartOf(who)[id] <= plants[id].stock
    {
      if id !in plants {
        return Failed(NotFound);
      }
      var stock := plants[id].stock;
      var requested := RequestedQuantity(quantity);
      var cart := CartOf(who);
      match who {
        case Guest(s) =>
          sessions := sessions[s := AddLine(cart, id, requested, stock)];
          r := Done;
        case Member(u) =>
          var (outcome, cart') := PersistedAdd(cart, id, requested, stock);
          PersistedAddStorable(cart, id, requested, stock);
          carts := carts[u := cart'];
          r := outcome;
      }
    }

    /** Removes the caller's line for a plant; a plant without a line is no error. */
    method RemoveFromCart(who: Identity, id: PlantId)
      requires Valid()
      modifies this
      ensures Valid()
      ensures plants == old(plants) && orders == old(orders) && orderItems == old(orderItems)
      ensures CartOf(who) == old(CartOf(who)) - {id}
      ensures id !in old(CartOf(who)) ==> carts == old(carts) && sessions == old(sessions)
      ensures who.Member? ==> sessions == old(sessions)
      ensures who.Member? && who.user in old(carts) ==> carts == old(carts)[who.user := old(carts)[who.user] - {id}]
      ensures who.Member? && who.user !in old(carts) ==> carts == old(carts)
      ensures who.Guest? ==> carts == old(carts)
      ensures who.Guest? && id in old(CartOf(who)) ==> sessions == old(sessions)[who.session := old(CartOf(who)) - {id}]
    {
      match who {
        case Member(u) =>
          if u in carts {
            var c := carts[u];
            carts := carts[u := c - {id}];
            if id !in c {
              forall k ensures k in c - {id} <==> k in c {}
              forall k | k in c ensures (c - {id})[k] == c[k] {}
              assert c - {id} == c;
              forall v ensures v in carts <==> v in old(carts) {}
              forall v | v in carts ensures carts[v] == old(carts)[v] {}
            }
          }
        case Guest(s) =>
          if s in sessions && id in sessions[s] {
            sessions := sessions[s := sessions[s] - {id}];
          }
      }
    }

    /** The cart page: the caller's lines priced at the current prices, and their total. */
    method CartView(who: Identity) returns (r: Result<CartPage>)
      requires Valid()
      ensures r.Ok? <==> CartOf(who).Keys <= plants.Keys
      ensures who.Member? ==> r.Ok?
      ensures r.Err? ==> r.error == NotFound
      ensures r.Ok? ==> r.value.total == CartTotal(CartOf(who), plants) && ShowsCart(r.value.lines, CartOf(who), plants)
    {
      r := PriceCart(CartOf(who), plants);
    }

    /**
     * Turns the user's current cart into the items of order `oid`, takes the
     * quantities out of stock and deletes the cart.
     */
    method Finalize(user: UserId, oid: OrderId)
      requires Valid() && 1 <= oid <= |orders|
      modifies this
      ensures Valid()
      ensures old(CartOf(Member(user))).Keys <= old(plants).Keys
      ensures Finalized(old(CartOf(Member(user))), oid, old(plants), old(orderItems), plants, orderItems)
      ensures carts == old(carts) - {user} && CartOf(Member(user)) == map[]
      ensures sessions == old(sessions) && orders == old(orders)
      ensures ItemsOf(old(orderItems), oid) == [] ==>
                ItemsTotal(ItemsOf(orderItems, oid)) == CartTotal(old(CartOf(Member(user))), old(plants))
    {
      var cart := CartOf(Member(user));
      var stocked, added := FinalizeLines(cart, plants, oid);
      assert (orderItems + added)[..|orderItems|] == orderItems;
      assert (orderItems + added)[|orderItems|..] == added;
      forall id ensures id in stocked <==> id in plants {}
      forall i | 0 <= i < |added| ensures added[i].order == oid {}
      ghost var plants0, items0 := plants, orderItems;
      orderItems := orderItems + added;
      plants := stocked;
      carts := carts - {user};
      assert ItemsOf(items0, oid) == [] ==> ItemsTotal(ItemsOf(orderItems, oid)) == CartTotal(cart, plants0) by {
        if ItemsOf(items0, oid) == [] {
          FinalizedOrderTotal(cart, oid, plants0, items0, plants, orderItems);
        }
      }
    }

    /**
     * The checkout form. The total is the user's cart total at this moment.
     * Cash on delivery finalizes the order at once; any other payment method
     * leaves the order without items, for the payment page to finalize.
     */
    method Checkout(user: UserId, form: CheckoutForm) returns (r: Result<OrderId>)
      requires Valid()
      modifies this
      ensures Valid()
      ensures sessions == old(sessions)
      ensures old(CartOf(Member(user))).Keys <= old(plants).Keys
      ensures !form.Complete() ==>
                && r == Err(IntegrityError)
                && plants == old(plants) && carts == old(carts)
                && orders == old(orders) && orderItems == old(orderItems)
      ensures form.Complete() ==>
                && r == Ok(|old(orders)| + 1)
                && orders == old(orders) + [form.ToOrder(|old(orders)| + 1, user, CartTotal(old(CartOf(Member(user))), old(plants)))]
      ensures form.Complete() && form.paymentMethod.value == PaymentCode(Cod) ==>
                && Finalized(old(CartOf(Member(user))), |old(orders)| + 1, old(plants), old(orderItems), plants, orderItems)
                && ItemsTotal(ItemsOf(orderItems, |orders|)) == orders[|orders| - 1].total
                && carts == old(carts) - {user} && CartOf(Member(user)) == map[]
      ensures form.Complete() && form.paymentMethod.value != PaymentCode(Cod) ==>
                && plants == old(plants) && carts == old(carts) && orderItems == old(orderItems)
                && ItemsOf(orderItems, |orders|) == []
    {
      var page := PriceCart(CartOf(Member(user)), plants);
      var total := page.value.total;
      if !form.Complete() {
        return Err(IntegrityError);
      }
      var oid := |orders| + 1;
      assert ItemsOf(orderItems, oid) == [] by {
        NoItemsYet(orderItems, oid);
      }
      orders := orders + [form.ToOrder(oid, user, total)];
      if form.paymentMethod.value == PaymentCode(Cod) {
        Finalize(user, oid);
      }
      r := Ok(oid);
    }

    /**
     * The payment page's confirmation of order `oid`: finalizes the order from
     * the user's cart as it is now, whatever it held at checkout. The order's
     * total and status are left as they were.
     */
    method PaymentPage(user: UserId, oid: OrderId) returns (r: Outcome)
      requires Valid()
      modifies this
      ensures Valid()
      ensures sessions == old(sessions) && orders == old(orders)
      ensures FindOrder(orders, oid, user).None? ==>
                r == Failed(NotFound) && plants == old(plants) && carts == old(carts) && orderItems == old(orderItems)
      ensures old(CartOf(Member(user))).Keys <= old(plants).Keys
      ensures FindOrder(orders, oid, user).Some? ==>
                && r == Done
                && Finalized(old(CartOf(Member(user))), oid, old(plants), old(orderItems), plants, orderItems)
                && carts == old(carts) - {user} && CartOf(Member(user)) == map[]
    {
      var found := FindOrder(orders, oid, user);
      if found.None? {
        return Failed(NotFound);
      }
      var i :| 0 <= i < |orders| && orders[i] == found.value;
      Finalize(user, oid);
      r := Done;
    }

    /**
     * The admin's save of a plant (a new one, or an edit of its price, stock or
     * availability). Order items keep the price they copied.
     */
    method EditPlant(id: PlantId, p: Plant)
      requires Valid()
      modifies this
      ensures Valid()
      ensures plants == old(plants)[id := p]
      ensures carts == old(carts) && sessions == old(sessions)
      ensures orders == old(orders) && orderItems == old(orderItems)
    {
      plants := plants[id := p];
    }
  }

  /**
   * The finalize loop: for each line of `cart`, one order item of order `oid`
   * at the plant's current price, and the line's quantity taken out of stock.
   */
  method FinalizeLines(cart: Cart, plants: map<PlantId, Plant>, oid: OrderId)
    returns (stocked: map<PlantId, Plant>, added: seq<OrderItem>)
    requires cart.Keys <= plants.Keys
    ensures stocked == DecrementAll(plants, cart)
    ensures ItemsForCart(added, cart, oid, plants)
  {
    stocked, added := plants, [];
    var rest := cart;
    ghost var done: Cart := map[];
    DecrementNone(plants);
    while rest != map[]
      invariant Split(cart, done, rest)
      invariant done.Keys <= plants.Keys
      invariant stocked == DecrementAll(plants, done)
      invariant ItemsForCart(added, done, oid, plants)
      decreases |rest|
    {
      SomeLine(rest);
      var id :| id in rest;
      var qty := rest[id];
      MoveLine(cart, done, rest, id);
      var plant := stocked[id];
      AddItem(added, done, oid, plants, id, qty);
      added := added + [OrderItem(oid, id, qty, plant.price)];
      DecrementOne(plants, done, id, qty);
      stocked := stocked[id := Decrement(plant, qty)];
      done := done[id := qty];
      rest := rest - {id};
    }
    SplitDone(cart, done, rest);
  }

  lemma DecrementNone(plants: map<PlantId, Plant>)
    ensures DecrementAll(plants, map[]) == plants
  {
    var a := DecrementAll(plants, map[]);
    forall k ensures k in a <==> k in plants {}
    forall k | k in a ensures a[k] == plants[k] {}
  }

  /** Adding the item of a new line keeps the items one per line. */
  lemma AddItem(items: seq<OrderItem>, done: Cart, oid: OrderId, plants: map<PlantId, Plant>, id: PlantId, qty: int)
    requires done.Keys <= plants.Keys && id in plants && id !in done
    requires ItemsForCart(items, done, oid, plants)
    ensures ItemsForCart(items + [OrderItem(oid, id, qty, plants[id].price)], done[id := qty], oid, plants)
  {
    var items' := items + [OrderItem(oid, id, qty, plants[id].price)];
    var done' := done[id := qty];
    assert |done'| == |done| + 1 by { assert done'.Keys == done.Keys + {id}; }
    forall k | k in done' ensures exists i :: 0 <= i < |items'| && items'[i].plant == k {
      if k == id {
        assert items'[|items|].plant == k;
      } else {
        var i :| 0 <= i < |items| && items[i].plant == k;
        assert items'[i].plant == k;
      }
    }
  }

  /** Taking one more line out of stock updates just that plant. */
  lemma DecrementOne(plants: map<PlantId, Plant>, done: Cart, id: PlantId, qty: int)
    requires id in plants && id !in done
    ensures DecrementAll(plants, done[id := qty]) == DecrementAll(plants, done)[id := Decrement(plants[id], qty)]
  {
    var a := DecrementAll(plants, done[id := qty]);
    var b := DecrementAll(plants, done)[id := Decrement(plants[id], qty)];
    forall k ensures k in a <==> k in b {}
    forall k | k in a ensures a[k] == b[k] {}
  }

  /**
   * An online order whose cart grows before the payment is confirmed: the
   * order records the total of the one fern in the cart at checkout, but the
   * confirmation makes items for the three ferns in the cart by then.
   */
  method OnlineOrderScenario() returns (recorded: Cents, charged: Cents)
    ensures recorded == 1000 && charged == 3000
  {
    var fern := Plant("Fern", 1000, "A fern", 1, 5, true);
    var store := new Store(map[1 := fern]);
    var added := store.AddToCart(Member(7), 1, Some(1));
    assert store.carts[7] == map[1 := 1];
    CartTotalRemove(map[1 := 1], map[1 := fern], 1);
    assert map[1 := 1] - {1} == map[];
    var form := CheckoutForm(Some("Asha"), Some("9999999999"), Some("1 Main Road"), Some("Pune"), Some("411001"), Some("ONLINE"));
    var placed := store.Checkout(7, form);
    recorded := store.orders[0].total;
    added := store.AddToCart(Member(7), 1, Some(2));
    assert store.carts[7] == map[1 := 3];
    assert store.orderItems == [] && store.plants == map[1 := fern];
    assert FindOrder(store.orders, 1, 7).Some?;
    var paid := store.PaymentPage(7, 1);
    var items := store.orderItems;
    assert ItemsForCart(items[0..], map[1 := 3], 1, map[1 := fern]);
    assert items[0..] == items;
    assert |items| == 1;
    assert items[0].plant == 1;
    assert items[0] == OrderItem(1, 1, 3, 1000);
    assert items == [OrderItem(1, 1, 3, 1000)];
    var mine := ItemsOf(items, 1);
    assert mine == [OrderItem(1, 1, 3, 1000)] by { assert items[1..] == []; }
    assert ItemsTotal(mine) == 3000 by { assert mine[1..] == []; }
    charged := ItemsTotal(mine);
  }
}

/**
 * `/carts`: the add-to-cart flow. GET and POST upsert the caller's cart (by
 * `user_id`); POST then looks the (cart, product) item up and overwrites its
 * quantity, or creates the item when there is none. An undefined `product_id`
 * drops out of the lookup's `where`, so the lookup matches any item of the cart,
 * and the create that follows a miss is refused for want of a product.
 */
module CartsRoute {
  import opened Wrappers
  import opened Validation
  import opened Envelope

  /** The user id both handlers use until they read it from the session. */
  const AUTH_USER_ID := ""

  const GET_MESSAGE := "Successfully get cart"
  const INVALID_MESSAGE := "Failed to add item to cart, please check your input"
  const ADDED_MESSAGE := "Successfully added item to cart"

  datatype Cart = Cart(id: nat, userId: string)
  datatype CartItem = CartItem(id: nat, cartId: nat, productId: string, quantity: int)

  /** A cart with its items, as GET returns it. */
  datatype CartView = CartView(cart: Cart, items: seq<CartItem>)

  /** The object handed to the cart schema. */
  datatype CartFields = CartFields(productId: Value, quantity: Value)

  /** The datastore calls a handler makes, in order. */
  datatype Step = CartUpsert | ItemLookup | ItemWrite

  /** Which datastore call throws, if any, and with what message. */
  datatype Fault = NoFault | FailAt(step: Step, message: string)

  predicate FailsAt(fault: Fault, step: Step) { fault.FailAt? && fault.step == step }

  /**
   * The cart schema's rules are not part of this model. A passing verdict has
   * the shape of the `CartSchema` type the body is cast to: `product_id` a
   * string or absent, `quantity` a number.
   */
  ghost predicate DemandsFields(cartSchema: CartFields -> Verdict)
  {
    forall f :: cartSchema(f).Passed? ==> (f.productId.Str? || f.productId.Undefined?) && f.quantity.Number?
  }

  /** The `product_id` filter of the lookup: none when the value is undefined, since the key is then dropped. */
  function ProductFilter(v: Value): (r: Option<string>)
    requires v.Str? || v.Undefined?
    ensures r.None? <==> v.Undefined?
    ensures v.Str? ==> r == Some(v.s)
  {
    if v.Str? then Some(v.s) else None
  }

  // The tables as values.

  /** The `where: { cart_id, product_id }` of `cartItem.findFirst`, with an optional product. */
  predicate Matches(item: CartItem, cartId: nat, product: Option<string>)
  {
    item.cartId == cartId && (product.Some? ==> item.productId == product.value)
  }

  predicate InSlot(item: CartItem, cartId: nat, productId: string)
  {
    Matches(item, cartId, Some(productId))
  }

  predicate SameSlot(a: CartItem, b: CartItem)
  {
    InSlot(a, b.cartId, b.productId)
  }

  /** Each (cart, product) pair has at most one item. */
  predicate AtMostOnePerSlot(items: seq<CartItem>)
  {
    forall i, j :: 0 <= i < |items| && 0 <= j < |items| && SameSlot(items[i], items[j]) ==> i == j
  }

  /** How many items sit in the (cart, product) slot. */
  function SlotCount(items: seq<CartItem>, cartId: nat, productId: string): nat
  {
    if items == [] then 0
    else (if InSlot(items[0], cartId, productId) then 1 else 0) + SlotCount(items[1..], cartId, productId)
  }

  /** `cartItem.findFirst({ where: { cart_id, product_id } })`: the first matching row. */
  function FindFirstItem(items: seq<CartItem>, cartId: nat, product: Option<string>): (r: Option<nat>)
    ensures r.Some? ==> r.value < |items| && Matches(items[r.value], cartId, product)
    ensures r.Some? ==> forall k :: 0 <= k < r.value ==> !Matches(items[k], cartId, product)
    ensures r.None? <==> forall k :: 0 <= k < |items| ==> !Matches(items[k], cartId, product)
  {
    if items == [] then None
    else if Matches(items[0], cartId, product) then Some(0)
    else
      match FindFirstItem(items[1..], cartId, product)
      case None => None
      case Some(k) => Some(k + 1)
  }

  /** The items of one cart, in row order: each item of that cart as often as in the table, no other item. */
  function ItemsOf(items: seq<CartItem>, cartId: nat): (r: seq<CartItem>)
    ensures forall x :: multiset(r)[x] == if x.cartId == cartId then multiset(items)[x] else 0
    ensures forall x :: x in r <==> x in items && x.cartId == cartId
    ensures |r| <= |items|
    ensures r == [] <==> forall k :: 0 <= k < |items| ==> items[k].cartId != cartId
  {
    if items == [] then []
    else
      var rest := ItemsOf(items[1..], cartId);
      assert items == [items[0]] + items[1..];
      assert multiset(items) == multiset{items[0]} + multiset(items[1..]);
      (if items[0].cartId == cartId then [items[0]] else []) + rest
  }

  /** The cart `cart.upsert` returns: the user's own, or a new one with the next id. */
  function CartFor(carts: map<string, Cart>, userId: string, nextId: nat): (r: Cart)
    ensures userId in carts ==> r == carts[userId]
    ensures (forall u :: u in carts ==> carts[u].userId == u) ==> r.userId == userId
    ensures (forall u :: u in carts ==> carts[u].id < nextId) ==> (r.id == nextId <==> userId !in carts)
  {
    if userId in carts then carts[userId] else Cart(nextId, userId)
  }

  /** The carts table after `cart.upsert({ where: { user_id }, update: {}, create: { user_id } })`. */
  function Upserted(carts: map<string, Cart>, userId: string, nextId: nat): (r: map<string, Cart>)
    ensures userId in r && r[userId] == CartFor(carts, userId, nextId)
    ensures userId in carts ==> r == carts
    ensures userId !in carts ==> r == carts[userId := Cart(nextId, userId)]
  {
    carts[userId := CartFor(carts, userId, nextId)]
  }

  /** The items table after POST's find-then-branch: overwrite the first match's quantity, or append a new row. */
  function AddItem(items: seq<CartItem>, cartId: nat, productId: string, quantity: int, newId: nat): (r: seq<CartItem>)
    ensures |items| <= |r| <= |items| + 1
    ensures forall k :: 0 <= k < |items| && !InSlot(items[k], cartId, productId) ==> r[k] == items[k]
    ensures FindFirstItem(r, cartId, Some(productId)).Some?
    ensures r[FindFirstItem(r, cartId, Some(productId)).value].quantity == quantity
  {
    match FindFirstItem(items, cartId, Some(productId))
    case Some(k) =>
      var r := items[k := items[k].(quantity := quantity)];
      FirstMatchAt(r, cartId, productId, k);
      r
    case None =>
      var r := items + [CartItem(newId, cartId, productId, quantity)];
      FirstMatchAt(r, cartId, productId, |items|);
      r
  }

  /** The first item of the cart, the row an unfiltered-by-product `findFirst` returns. */
  predicate FirstOfCart(items: seq<CartItem>, cartId: nat, i: int)
  {
    0 <= i < |items| && items[i].cartId == cartId && forall j :: 0 <= j < i ==> items[j].cartId != cartId
  }

  /**
   * POST's find-then-branch with `product_id` undefined: the cart's first item
   * gets the quantity; with no item in the cart the create is refused (`None`).
   */
  function SetFirstInCart(items: seq<CartItem>, cartId: nat, quantity: int): (r: Option<seq<CartItem>>)
    ensures r.None? <==> ItemsOf(items, cartId) == []
    ensures r.Some? ==> |r.value| == |items|
    ensures r.Some? ==> forall i :: 0 <= i < |items| ==>
              r.value[i] == if FirstOfCart(items, cartId, i) then items[i].(quantity := quantity) else items[i]
  {
    match FindFirstItem(items, cartId, None)
    case Some(k) =>
      assert FirstOfCart(items, cartId, k);
      assert forall i :: FirstOfCart(items, cartId, i) ==> i == k by {
        forall i | FirstOfCart(items, cartId, i) ensures i == k {
          assert !(i < k) && !(k < i);
        }
      }
      Some(items[k := items[k].(quantity := quantity)])
    case None => None
  }

  // What the find-then-branch guarantees.

  /** An existing item keeps its row, id, cart and product; its quantity is replaced, not summed. */
  lemma AddItemOverwrites(items: seq<CartItem>, cartId: nat, productId: string, quantity: int, newId: nat, k: nat)
    requires k < |items| && InSlot(items[k], cartId, productId) && AtMostOnePerSlot(items)
    ensures |AddItem(items, cartId, productId, quantity, newId)| == |items|
    ensures AddItem(items, cartId, productId, quantity, newId)[k] == items[k].(quantity := quantity)
  {
    var found := FindFirstItem(items, cartId, Some(productId));
    assert found.Some?;
    assert SameSlot(items[found.value], items[k]);
  }

  /** Without an existing item, exactly one new row is created, with the given cart, product and quantity. */
  lemma AddItemCreates(items: seq<CartItem>, cartId: nat, productId: string, quantity: int, newId: nat)
    requires forall k :: 0 <= k < |items| ==> !InSlot(items[k], cartId, productId)
    ensures AddItem(items, cartId, productId, quantity, newId) == items + [CartItem(newId, cartId, productId, quantity)]
  {
  }

  /** The at-most-one-item-per-product invariant is kept. */
  lemma AddItemKeepsSlotsUnique(items: seq<CartItem>, cartId: nat, productId: string, quantity: int, newId: nat)
    requires AtMostOnePerSlot(items)
    ensures AtMostOnePerSlot(AddItem(items, cartId, productId, quantity, newId))
  {
    var r := AddItem(items, cartId, productId, quantity, newId);
    match FindFirstItem(items, cartId, Some(productId))
    case Some(k) =>
      forall i, j | 0 <= i < |r| && 0 <= j < |r| && SameSlot(r[i], r[j]) ensures i == j {
        assert SameSlot(items[i], items[j]);
      }
    case None =>
      forall i, j | 0 <= i < |r| && 0 <= j < |r| && SameSlot(r[i], r[j]) ensures i == j {
        if i < |items| && j < |items| {
          assert SameSlot(items[i], items[j]);
        }
      }
  }

  lemma {:induction false} SlotCountZero(items: seq<CartItem>, cartId: nat, productId: string)
    requires forall k :: 0 <= k < |items| ==> !InSlot(items[k], cartId, productId)
    ensures SlotCount(items, cartId, productId) == 0
  {
    if items != [] {
      SlotCountZero(items[1..], cartId, productId);
    }
  }

  lemma {:induction false} SlotCountAppend(a: seq<CartItem>, b: seq<CartItem>, cartId: nat, productId: string)
    ensures SlotCount(a + b, cartId, productId) == SlotCount(a, cartId, productId) + SlotCount(b, cartId, productId)
  {
    if a == [] {
      assert a + b == b;
    } else {
      assert (a + b)[1..] == a[1..] + b;
      SlotCountAppend(a[1..], b, cartId, productId);
    }
  }

  /** One item in a slot with every other row outside it: the slot holds exactly one item. */
  lemma SlotCountOne(items: seq<CartItem>, cartId: nat, productId: string, k: nat)
    requires k < |items| && InSlot(items[k], cartId, productId)
    requires forall i :: 0 <= i < |items| && i != k ==> !InSlot(items[i], cartId, productId)
    ensures SlotCount(items, cartId, productId) == 1
  {
    assert items == items[..k] + [items[k]] + items[k + 1..];
    SlotCountAppend(items[..k] + [items[k]], items[k + 1..], cartId, productId);
    SlotCountAppend(items[..k], [items[k]], cartId, productId);
    SlotCountZero(items[..k], cartId, productId);
    SlotCountZero(items[k + 1..], cartId, productId);
  }

  /** The first match is the only one when no earlier row matches. */
  lemma FirstMatchAt(items: seq<CartItem>, cartId: nat, productId: string, k: nat)
    requires k < |items| && InSlot(items[k], cartId, productId)
    requires forall i :: 0 <= i < k ==> !InSlot(items[i], cartId, productId)
    ensures FindFirstItem(items, cartId, Some(productId)) == Some(k)
  {
    var found := FindFirstItem(items, cartId, Some(productId));
    assert found.Some?;
    assert !(found.value < k);
  }

  /**
   * After POST the slot holds exactly one item, and it carries the quantity
   * just sent.
   */
  lemma AddItemLeavesOne(items: seq<CartItem>, cartId: nat, productId: string, quantity: int, newId: nat)
    requires AtMostOnePerSlot(items)
    ensures var r := AddItem(items, cartId, productId, quantity, newId);
      && SlotCount(r, cartId, productId) == 1
      && FindFirstItem(r, cartId, Some(productId)).Some?
      && r[FindFirstItem(r, cartId, Some(productId)).value].quantity == quantity
  {
    var r := AddItem(items, cartId, productId, quantity, newId);
    AddItemKeepsSlotsUnique(items, cartId, productId, quantity, newId);
    var k: nat;
    match FindFirstItem(items, cartId, Some(productId)) {
      case Some(found) =>
        k := found;
        assert r == items[k := items[k].(quantity := quantity)];
      case None =>
        k := |items|;
        assert r == items + [CartItem(newId, cartId, productId, quantity)];
    }
    assert k < |r| && InSlot(r[k], cartId, productId) && r[k].quantity == quantity;
    assert forall i :: 0 <= i < |r| && InSlot(r[i], cartId, productId) ==> SameSlot(r[i], r[k]);
    FirstMatchAt(r, cartId, productId, k);
    SlotCountOne(r, cartId, productId, k);
  }

  /** Adding the same product twice leaves one row, with the latest quantity, not the sum. */
  lemma AddTwiceKeepsLatest(items: seq<CartItem>, cartId: nat, productId: string, q1: int, q2: int, id1: nat, id2: nat)
    requires AtMostOnePerSlot(items)
    ensures var r := AddItem(AddItem(items, cartId, productId, q1, id1), cartId, productId, q2, id2);
      && SlotCount(r, cartId, productId) == 1
      && FindFirstItem(r, cartId, Some(productId)).Some?
      && r[FindFirstItem(r, cartId, Some(productId)).value].quantity == q2
  {
    AddItemKeepsSlotsUnique(items, cartId, productId, q1, id1);
    AddItemLeavesOne(AddItem(items, cartId, productId, q1, id1), cartId, productId, q2, id2);
  }

  /** Changing only a quantity keeps the at-most-one-item-per-product invariant. */
  lemma SetFirstInCartKeepsSlotsUnique(items: seq<CartItem>, cartId: nat, quantity: int)
    requires AtMostOnePerSlot(items)
    ensures var r := SetFirstInCart(items, cartId, quantity);
      r.Some? ==> AtMostOnePerSlot(r.value)
  {
    var r := SetFirstInCart(items, cartId, quantity);
    if r.Some? {
      forall i, j | 0 <= i < |r.value| && 0 <= j < |r.value| && SameSlot(r.value[i], r.value[j]) ensures i == j {
        assert SameSlot(items[i], items[j]);
      }
    }
  }

  /** Without a product, the first item of the cart takes the quantity, whatever its product; the rest is kept. */
  lemma SetFirstInCartExample()
    ensures var items := [CartItem(0, 7, "tea", 1), CartItem(1, 8, "tea", 1), CartItem(2, 8, "cup", 1)];
      && SetFirstInCart(items, 8, 5) == Some([CartItem(0, 7, "tea", 1), CartItem(1, 8, "tea", 5), CartItem(2, 8, "cup", 1)])
      && SetFirstInCart(items, 9, 5) == None
  {
    var items := [CartItem(0, 7, "tea", 1), CartItem(1, 8, "tea", 1), CartItem(2, 8, "cup", 1)];
    assert !Matches(items[0], 8, None) && Matches(items[1], 8, None);
    assert FindFirstItem(items[1..], 8, None) == Some(0);
    assert FindFirstItem(items, 8, None) == Some(1);
    assert items[1 := items[1].(quantity := 5)] == [CartItem(0, 7, "tea", 1), CartItem(1, 8, "tea", 5), CartItem(2, 8, "cup", 1)];
    assert forall k :: 0 <= k < |items| ==> !Matches(items[k], 9, None);
  }

  /** The two tables the handlers touch. */
  class CartStore {
    var carts: map<string, Cart>   // keyed by user_id, which the schema declares unique
    var items: seq<CartItem>       // the cart_items rows, in the order findFirst scans them
    var nextCartId: nat
    var nextItemId: nat

    /** Every key names its own cart, ids are below the next id and distinct. */
    ghost predicate Valid()
      reads this
    {
      && (forall u :: u in carts ==> carts[u].userId == u && carts[u].id < nextCartId)
      && (forall u, v :: u in carts && v in carts && u != v ==> carts[u].id != carts[v].id)
      && (forall k :: 0 <= k < |items| ==> items[k].id < nextItemId)
      && (forall i, j :: 0 <= i < j < |items| ==> items[i].id != items[j].id)
    }

    constructor ()
      ensures Valid() && carts == map[] && items == []
    {
      carts, items := map[], [];
      nextCartId, nextItemId := 0, 0;
    }

    /** `cart.upsert`: returns the user's cart, creating it first when there is none. */
    method UpsertCart(userId: string) returns (cart: Cart)
      requires Valid()
      modifies this`carts, this`nextCartId
      ensures Valid()
      ensures cart == CartFor(old(carts), userId, old(nextCartId))
      ensures carts == Upserted(old(carts), userId, old(nextCartId))
      ensures nextCartId == if userId in old(carts) then old(nextCartId) else old(nextCartId) + 1
    {
      if userId in carts {
        cart := carts[userId];
      } else {
        cart := Cart(nextCartId, userId);
        carts := carts[userId := cart];
        nextCartId := nextCartId + 1;
      }
    }

    /** `cartItem.update` or `cartItem.create`, chosen by `cartItem.findFirst`. */
    method PutItem(cartId: nat, productId: string, quantity: int)
      requires Valid()
      modifies this`items, this`nextItemId
      ensures Valid()
      ensures items == AddItem(old(items), cartId, productId, quantity, old(nextItemId))
      ensures nextItemId == if FindFirstItem(old(items), cartId, Some(productId)).Some? then old(nextItemId) else old(nextItemId) + 1
    {
      var existing := FindFirstItem(items, cartId, Some(productId));
      match existing
      case Some(k) =>
        items := items[k := items[k].(quantity := quantity)];
      case None =>
        items := items + [CartItem(nextItemId, cartId, productId, quantity)];
        nextItemId := nextItemId + 1;
    }

    /** `cartItem.findFirst` without a product, then `cartItem.update`; `false` when the cart has no item. */
    method SetFirstItem(cartId: nat, quantity: int) returns (updated: bool)
      requires Valid()
      modifies this`items
      ensures Valid()
      ensures updated <==> SetFirstInCart(old(items), cartId, quantity).Some?
      ensures items == if updated then SetFirstInCart(old(items), cartId, quantity).value else old(items)
    {
      var existing := FindFirstItem(items, cartId, None);
      match existing
      case Some(k) =>
        items := items[k := items[k].(quantity := quantity)];
        updated := true;
      case None =>
        updated := false;
    }

    /** GET: upsert the caller's cart and return it with its items; a failing upsert gives 500 and writes nothing. */
    method Get(fault: Fault) returns (r: Response<CartView>)
      requires Valid()
      modifies this`carts, this`nextCartId
      ensures Valid() && Conforms(r) && items == old(items)
      ensures FailsAt(fault, CartUpsert) ==>
                r == ServerError(TRY_AGAIN, GET, fault.message) && carts == old(carts) && nextCartId == old(nextCartId)
      ensures !FailsAt(fault, CartUpsert) ==>
                && carts == Upserted(old(carts), AUTH_USER_ID, old(nextCartId))
                && nextCartId == (if AUTH_USER_ID in old(carts) then old(nextCartId) else old(nextCartId) + 1)
                && var cart := carts[AUTH_USER_ID];
                   r == Reply(STATUS_OK, GET_MESSAGE, GET, Some(CartView(cart, ItemsOf(items, cart.id))), NoError)
    {
      if FailsAt(fault, CartUpsert) {
        return ServerError(TRY_AGAIN, GET, fault.message);
      }
      var cart := UpsertCart(AUTH_USER_ID);
      r := Reply(STATUS_OK, GET_MESSAGE, GET, Some(CartView(cart, ItemsOf(items, cart.id))), NoError);
    }

    /**
     * POST. `request` is the outcome of `request.json()`. An input the cart
     * schema refuses gives 400 with the field errors under `reason` and writes
     * nothing; otherwise the cart is upserted and the item put, and the
     * response is the default 200 with no data. A datastore call that throws
     * ends in 500, keeping what the calls before it wrote. Without `product_id`
     * the cart's first item is overwritten; when the cart has none, the create
     * throws `missingProduct`, the datastore's refusal of a row with no product.
     */
    method Post(request: Result<CartFields>, cartSchema: CartFields -> Verdict, fault: Fault, missingProduct: string)
      returns (r: Response<CartView>)
      requires Valid() && DemandsFields(cartSchema)
      modifies this
      ensures Valid() && Conforms(r)
      ensures old(AtMostOnePerSlot(items)) ==> AtMostOnePerSlot(items)
      ensures request.Err? ==> r == ServerError(TRY_AGAIN, POST, request.message) && unchanged(this)
      ensures request.Ok? && cartSchema(request.value).Failed? ==>
                && r == Response(STATUS_BAD_REQUEST,
                                 Body(INVALID_MESSAGE, POST, None, Absent, Fields(cartSchema(request.value).fieldErrors), None))
                && unchanged(this)
      ensures request.Ok? && cartSchema(request.value).Passed? ==>
                && var cartId := CartFor(old(carts), AUTH_USER_ID, old(nextCartId)).id;
                   var product := request.value.productId;
                   var quantity := request.value.quantity.n;
                && (FailsAt(fault, CartUpsert) ==> r == ServerError(TRY_AGAIN, POST, fault.message) && unchanged(this))
                && (!FailsAt(fault, CartUpsert) ==>
                      && carts == Upserted(old(carts), AUTH_USER_ID, old(nextCartId))
                      && nextCartId == if AUTH_USER_ID in old(carts) then old(nextCartId) else old(nextCartId) + 1)
                && (FailsAt(fault, ItemLookup) || FailsAt(fault, ItemWrite) ==>
                      r == ServerError(TRY_AGAIN, POST, fault.message) && items == old(items) && nextItemId == old(nextItemId))
                && (fault.NoFault? && product.Str? ==>
                      && items == AddItem(old(items), cartId, product.s, quantity, old(nextItemId))
                      && nextItemId == (if FindFirstItem(old(items), cartId, Some(product.s)).Some?
                                        then old(nextItemId) else old(nextItemId) + 1)
                      && r == Reply(STATUS_OK, ADDED_MESSAGE, POST, None, NoError))
                && (fault.NoFault? && product.Undefined? ==>
                      var updated := SetFirstInCart(old(items), cartId, quantity);
                      && nextItemId == old(nextItemId)
                      && (updated.Some? ==> items == updated.value && r == Reply(STATUS_OK, ADDED_MESSAGE, POST, None, NoError))
                      && (updated.None? ==> items == old(items) && r == ServerError(TRY_AGAIN, POST, missingProduct)))
    {
      if request.Err? {
        return ServerError(TRY_AGAIN, POST, request.message);
      }
      var fields := request.value;
      var verdict := cartSchema(fields);
      if verdict.Failed? {
        return Response(STATUS_BAD_REQUEST, Body(INVALID_MESSAGE, POST, None, Absent, Fields(verdict.fieldErrors), None));
      }
      if FailsAt(fault, CartUpsert) {
        return ServerError(TRY_AGAIN, POST, fault.message);
      }
      var cart := UpsertCart(AUTH_USER_ID);
      if FailsAt(fault, ItemLookup) || FailsAt(fault, ItemWrite) {
        return ServerError(TRY_AGAIN, POST, fault.message);
      }
      ghost var before := items;
      match ProductFilter(fields.productId)
      case Some(productId) =>
        PutItem(cart.id, productId, fields.quantity.n);
        if AtMostOnePerSlot(before) {
          AddItemKeepsSlotsUnique(before, cart.id, productId, fields.quantity.n, old(nextItemId));
        }
        r := Reply(STATUS_OK, ADDED_MESSAGE, POST, None, NoError);
      case None =>
        var updated := SetFirstItem(cart.id, fields.quantity.n);
        if AtMostOnePerSlot(before) {
          SetFirstInCartKeepsSlotsUnique(before, cart.id, fields.quantity.n);
        }
        if !updated {
          return ServerError(TRY_AGAIN, POST, missingProduct);
        }
        r := Reply(STATUS_OK, ADDED_MESSAGE, POST, None, NoError);
    }
  }

  /**
   * A POST, with or without `product_id`, leaves every other user's cart and
   * every item of another cart as it was.
   */
  lemma PostLeavesOtherCartsAlone(carts: map<string, Cart>, items: seq<CartItem>, nextCartId: nat,
                                  productId: string, quantity: int, nextItemId: nat, u: string, k: nat)
    requires u in carts && u != AUTH_USER_ID
    requires forall v :: v in carts ==> carts[v].id < nextCartId
    requires forall v, w :: v in carts && w in carts && v != w ==> carts[v].id != carts[w].id
    requires k < |items| && items[k].cartId == carts[u].id
    ensures var cartId := CartFor(carts, AUTH_USER_ID, nextCartId).id;
      && Upserted(carts, AUTH_USER_ID, nextCartId)[u] == carts[u]
      && AddItem(items, cartId, productId, quantity, nextItemId)[k] == items[k]
      && (SetFirstInCart(items, cartId, quantity).Some? ==> SetFirstInCart(items, cartId, quantity).value[k] == items[k])
  {
    var cartId := CartFor(carts, AUTH_USER_ID, nextCartId).id;
    assert cartId != carts[u].id;
    assert !FirstOfCart(items, cartId, k);
  }
}

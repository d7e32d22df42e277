/**
 * The four cart routes (src/routes/cart.js) over a cart store: a map from
 * each user to the items of their one cart, plus the set of known product
 * ids that `Product.findById` consults. Every handler loads the user's
 * cart, changes it in memory and saves it; a save succeeds only when the
 * cart passes the schema (CartSchema.Valid), and a failed save is a 500
 * that leaves the store as it was.
 */
module CartRoutes {
  import opened Wrappers
  import opened CartSchema
  import opened CartItems
  import Auth

  /** The JSON body of a response. */
  datatype Body =
    | ItemList(items: seq<Item>)  // GET: `cart.items`
    | CartDoc(cart: Cart)         // POST, PUT, DELETE: the whole cart
    | Message(text: string)       // `{ message }` for 4xx replies
    | SaveError                   // 500 from a refused save; the library's message is not modelled

  datatype Response = Response(status: int, body: Body)

  /** What a handler answers and what the store holds afterwards. */
  datatype Outcome = Outcome(response: Response, store: map<UserId, seq<Item>>)

  const ProductNotFound := "Product not found"
  const CartNotFound := "Cart not found"
  const ItemNotFound := "Item not found in cart"

  function NotFound(store: map<UserId, seq<Item>>, message: string): Outcome
  {
    Outcome(Response(404, Message(message)), store)
  }

  /** The user's stored cart, as `Cart.findOne({ userId })` returns it. */
  function CartOf(store: map<UserId, seq<Item>>, u: UserId): Cart
    requires u in store
  {
    Cart(u, store[u])
  }

  /** Every stored cart passed the schema when it was saved. */
  ghost predicate StoreValid(store: map<UserId, seq<Item>>)
  {
    forall u :: u in store ==> Valid(Cart(u, store[u]))
  }

  /** No stored cart lists a product twice. */
  ghost predicate StoreDistinct(store: map<UserId, seq<Item>>)
  {
    forall u :: u in store ==> DistinctProducts(store[u])
  }

  /** `await cart.save()` followed by a 200 with `body`, or the 500 of the catch block. */
  function Persist(store: map<UserId, seq<Item>>, cart: Cart, body: Body): (r: Outcome)
    ensures StoreValid(store) ==> StoreValid(r.store)
    ensures r.response.status == 200 <==> Valid(cart)
    ensures r.response.status == 200 ==> r.store == store[cart.userId := cart.items]
    ensures r.response.status != 200 ==> r == Outcome(Response(500, SaveError), store)
  {
    if Valid(cart) then Outcome(Response(200, body), store[cart.userId := cart.items])
    else Outcome(Response(500, SaveError), store)
  }

  /** GET /: the user's items, creating and saving an empty cart first when there is none. */
  function GetOutcome(store: map<UserId, seq<Item>>, u: UserId): Outcome
  {
    var cart := if u in store then CartOf(store, u) else Cart(u, []);
    Persist(store, cart, ItemList(cart.items))
  }

  /** POST /: the product must exist; then create, merge or append, and save. */
  function PostOutcome(store: map<UserId, seq<Item>>, products: set<ProductId>, u: UserId,
                       pid: ProductId, quantity: int): Outcome
  {
    if pid !in products then NotFound(store, ProductNotFound)
    else
      var cart := if u !in store then Cart(u, [Item(pid, quantity)])
                  else Cart(u, AddToItems(store[u], pid, quantity));
      Persist(store, cart, CartDoc(cart))
  }

  /** PUT /:productId: the cart and the item must exist; then replace the quantity and save. */
  function PutOutcome(store: map<UserId, seq<Item>>, u: UserId, pid: ProductId, quantity: int): Outcome
  {
    if u !in store then NotFound(store, CartNotFound)
    else
      var i := FindIndex(store[u], pid);
      if i > -1 then
        var cart := Cart(u, SetQuantityAt(store[u], i, quantity));
        Persist(store, cart, CartDoc(cart))
      else NotFound(store, ItemNotFound)
  }

  /** DELETE /:productId: the cart must exist; then drop every item of that product and save. */
  function DeleteOutcome(store: map<UserId, seq<Item>>, u: UserId, pid: ProductId): Outcome
  {
    if u !in store then NotFound(store, CartNotFound)
    else
      var cart := Cart(u, RemoveAll(store[u], pid));
      Persist(store, cart, CartDoc(cart))
  }

  /** A request to the cart router, after the path and body have been read. */
  datatype Request =
    | GetCart
    | AddItem(productId: ProductId, quantity: int)
    | UpdateItem(productId: ProductId, quantity: int)
    | RemoveItem(productId: ProductId)

  /** The route table, once the gate has let the request through as user `u`. */
  function Dispatch(store: map<UserId, seq<Item>>, products: set<ProductId>, u: UserId,
                    request: Request): (r: Outcome)
    ensures StoreValid(store) ==> StoreValid(r.store)
    ensures r.response.status in {200, 404, 500}
    ensures r.response.status != 200 ==> r.store == store
  {
    match request
    case GetCart => GetOutcome(store, u)
    case AddItem(pid, quantity) => PostOutcome(store, products, u, pid, quantity)
    case UpdateItem(pid, quantity) => PutOutcome(store, u, pid, quantity)
    case RemoveItem(pid) => DeleteOutcome(store, u, pid)
  }

  // ---------------------------------------------------------------------
  // GET

  /** After GET the user has a cart: an empty one if they had none, their own unchanged otherwise. */
  lemma GetEnsuresCart(store: map<UserId, seq<Item>>, u: UserId)
    requires StoreValid(store) && Present(u)
    ensures var o := GetOutcome(store, u);
      u in o.store &&
      o.response == Response(200, ItemList(o.store[u])) &&
      (u in store ==> o.store == store) &&
      (u !in store ==> o.store == store[u := []])
  {
  }

  // ---------------------------------------------------------------------
  // POST

  /** An unknown product is a 404 before any cart is read or created. */
  lemma PostUnknownProduct(store: map<UserId, seq<Item>>, products: set<ProductId>, u: UserId,
                           pid: ProductId, quantity: int)
    requires pid !in products
    ensures PostOutcome(store, products, u, pid, quantity) == NotFound(store, ProductNotFound)
  {
  }

  /** A first POST creates a cart holding exactly the one item. */
  lemma PostCreatesCart(store: map<UserId, seq<Item>>, products: set<ProductId>, u: UserId,
                        pid: ProductId, quantity: int)
    requires pid in products && u !in store
    requires Present(u) && Present(pid) && quantity >= MinQuantity
    ensures var o := PostOutcome(store, products, u, pid, quantity);
      o.store == store[u := [Item(pid, quantity)]] &&
      o.response == Response(200, CartDoc(Cart(u, [Item(pid, quantity)])))
  {
  }

  /** A successful POST raises the product's total by the quantity and leaves other products alone. */
  lemma PostAddsToTotal(store: map<UserId, seq<Item>>, products: set<ProductId>, u: UserId,
                        pid: ProductId, quantity: int, p: ProductId)
    requires PostOutcome(store, products, u, pid, quantity).response.status == 200
    ensures var o := PostOutcome(store, products, u, pid, quantity);
      u in o.store &&
      TotalOf(o.store[u], p) == (if u in store then TotalOf(store[u], p) else 0)
                                + (if p == pid then quantity else 0)
  {
    if u in store {
      AddTotal(store[u], pid, quantity, p);
    }
  }

  /** POST keeps every stored cart free of duplicate products. */
  lemma PostKeepsDistinct(store: map<UserId, seq<Item>>, products: set<ProductId>, u: UserId,
                          pid: ProductId, quantity: int)
    requires StoreDistinct(store)
    ensures StoreDistinct(PostOutcome(store, products, u, pid, quantity).store)
  {
  }

  /** A POST whose amount would leave the item below the minimum is a 500 that changes nothing. */
  lemma PostBelowMinimumRefused(store: map<UserId, seq<Item>>, products: set<ProductId>, u: UserId,
                                pid: ProductId, quantity: int)
    requires StoreValid(store) && pid in products
    requires (if u in store && FindIndex(store[u], pid) > -1
              then store[u][FindIndex(store[u], pid)].quantity + quantity
              else quantity) < MinQuantity
    ensures PostOutcome(store, products, u, pid, quantity) == Outcome(Response(500, SaveError), store)
  {
    if u in store {
      AddValid(u, store[u], pid, quantity);
    } else {
      LowQuantityInvalid(Cart(u, [Item(pid, quantity)]), 0);
    }
  }

  // ---------------------------------------------------------------------
  // PUT

  /** No cart, or no such item: a 404 and nothing saved. */
  lemma PutNotFound(store: map<UserId, seq<Item>>, u: UserId, pid: ProductId, quantity: int)
    ensures u !in store ==> PutOutcome(store, u, pid, quantity) == NotFound(store, CartNotFound)
    ensures u in store && (forall j :: 0 <= j < |store[u]| ==> store[u][j].productId != pid) ==>
      PutOutcome(store, u, pid, quantity) == NotFound(store, ItemNotFound)
  {
  }

  /** A successful PUT sets the product's total to the quantity, whatever it was before. */
  lemma PutReplaces(store: map<UserId, seq<Item>>, u: UserId, pid: ProductId, quantity: int, p: ProductId)
    requires StoreDistinct(store)
    requires PutOutcome(store, u, pid, quantity).response.status == 200
    ensures var o := PutOutcome(store, u, pid, quantity);
      u in store && u in o.store &&
      TotalOf(o.store[u], p) == if p == pid then quantity else TotalOf(store[u], p)
  {
    var i := FindIndex(store[u], pid);
    SetTotal(store[u], i, quantity, p);
  }

  /** PUT keeps every stored cart free of duplicate products. */
  lemma PutKeepsDistinct(store: map<UserId, seq<Item>>, u: UserId, pid: ProductId, quantity: int)
    requires StoreDistinct(store)
    ensures StoreDistinct(PutOutcome(store, u, pid, quantity).store)
  {
  }

  /** PUT with a quantity below the minimum leaves the store unchanged; on a found item the refused save is a 500. */
  lemma PutBelowMinimumRefused(store: map<UserId, seq<Item>>, u: UserId, pid: ProductId, quantity: int)
    requires quantity < MinQuantity
    ensures PutOutcome(store, u, pid, quantity).store == store
    ensures u in store && FindIndex(store[u], pid) > -1 ==>
      PutOutcome(store, u, pid, quantity) == Outcome(Response(500, SaveError), store)
  {
    if u in store && FindIndex(store[u], pid) > -1 {
      var i := FindIndex(store[u], pid);
      LowQuantityInvalid(Cart(u, SetQuantityAt(store[u], i, quantity)), i);
    }
  }

  // ---------------------------------------------------------------------
  // DELETE

  /** DELETE on a stored cart succeeds and leaves no item of the product, the rest in order. */
  lemma DeleteRemoves(store: map<UserId, seq<Item>>, u: UserId, pid: ProductId)
    requires StoreValid(store) && u in store
    ensures var o := DeleteOutcome(store, u, pid);
      o.response.status == 200 && o.store == store[u := RemoveAll(store[u], pid)] &&
      forall j :: 0 <= j < |o.store[u]| ==> o.store[u][j].productId != pid
  {
  }

  /** A second DELETE of the same product is a 200 that changes nothing. */
  lemma DeleteTwice(store: map<UserId, seq<Item>>, u: UserId, pid: ProductId)
    requires StoreValid(store)
    ensures var once := DeleteOutcome(store, u, pid);
      DeleteOutcome(once.store, u, pid) == once
  {
    if u in store {
      RemoveKeeps(u, store[u], pid);
      RemoveTwice(store[u], pid);
      var once := DeleteOutcome(store, u, pid);
      assert once.store == store[u := RemoveAll(store[u], pid)];
      assert once.store[u := RemoveAll(once.store[u], pid)] == once.store;
    }
  }

  /** DELETE keeps every stored cart free of duplicate products. */
  lemma DeleteKeepsDistinct(store: map<UserId, seq<Item>>, u: UserId, pid: ProductId)
    requires StoreDistinct(store)
    ensures StoreDistinct(DeleteOutcome(store, u, pid).store)
  {
    if u in store {
      RemoveKeeps(u, store[u], pid);
    }
  }

  // ---------------------------------------------------------------------
  // A whole session

  /** Add 2, add 3, set 1, delete: [P1 x 2], [P1 x 5], [P1 x 1], []. */
  lemma AddUpdateDeleteSession(products: set<ProductId>)
    requires "P1" in products
    ensures var s1 := PostOutcome(map[], products, "alice", "P1", 2).store;
      var s2 := PostOutcome(s1, products, "alice", "P1", 3).store;
      var s3 := PutOutcome(s2, "alice", "P1", 1).store;
      var s4 := DeleteOutcome(s3, "alice", "P1").store;
      s1["alice"] == [Item("P1", 2)] && s2["alice"] == [Item("P1", 5)] &&
      s3["alice"] == [Item("P1", 1)] && s4["alice"] == []
  {
  }

  // ---------------------------------------------------------------------
  // The store and its handlers

  /** The cart collection and the product collection, as the routes see them. */
  class CartStore {
    /** userId -> items of that user's one cart. */
    var carts: map<UserId, seq<Item>>
    /** The ids `Product.findById` finds. The cart routes never change them. */
    const products: set<ProductId>

    ghost predicate Valid()
      reads this
    {
      StoreValid(carts)
    }

    ghost predicate Distinct()
      reads this
    {
      StoreDistinct(carts)
    }

    constructor (products: set<ProductId>)
      ensures this.products == products && carts == map[]
      ensures Valid() && Distinct()
    {
      this.products := products;
      carts := map[];
    }

    /** `cart.save()`: write the cart when the schema accepts it, otherwise refuse. */
    method Save(cart: Cart) returns (saved: bool)
      modifies this`carts
      ensures saved == CartSchema.Valid(cart)
      ensures carts == if saved then old(carts)[cart.userId := cart.items] else old(carts)
    {
      saved := CartSchema.Valid(cart);
      if saved {
        carts := carts[cart.userId := cart.items];
      }
    }

    /** `Cart.findOne({ userId })`. */
    method FindCart(u: UserId) returns (cart: Option<Cart>)
      ensures cart.Some? <==> u in carts
      ensures cart.Some? ==> cart.value == Cart(u, carts[u])
    {
      if u in carts {
        cart := Some(Cart(u, carts[u]));
      } else {
        cart := None;
      }
    }

    /** The tail shared by every handler: save, then 200 with `body` or 500. */
    method SaveAndReply(cart: Cart, body: Body) returns (res: Response)
      modifies this`carts
      ensures Outcome(res, carts) == Persist(old(carts), cart, body)
    {
      var saved := Save(cart);
      if saved {
        res := Response(200, body);
      } else {
        res := Response(500, SaveError);
      }
    }

    /** GET / */
    method Get(u: UserId) returns (res: Response)
      modifies this`carts
      ensures Outcome(res, carts) == GetOutcome(old(carts), u)
      ensures old(Valid()) ==> Valid()
      ensures old(Distinct()) ==> Distinct()
    {
      var found := FindCart(u);
      var cart: Cart;
      if found.None? {
        cart := Cart(u, []);
      } else {
        cart := found.value;
      }
      res := SaveAndReply(cart, ItemList(cart.items));
    }

    /** POST / */
    method Post(u: UserId, pid: ProductId, quantity: int) returns (res: Response)
      modifies this`carts
      ensures Outcome(res, carts) == PostOutcome(old(carts), products, u, pid, quantity)
      ensures old(Valid()) ==> Valid()
      ensures old(Distinct()) ==> Distinct()
    {
      if pid !in products {
        if Distinct() {
          PostKeepsDistinct(carts, products, u, pid, quantity);
        }
        return Response(404, Message(ProductNotFound));
      }
      var found := FindCart(u);
      var cart: Cart;
      if found.None? {
        cart := Cart(u, [Item(pid, quantity)]);
      } else {
        cart := found.value;
        var itemIndex := FindIndex(cart.items, pid);
        if itemIndex > -1 {
          var item := cart.items[itemIndex];
          cart := cart.(items := cart.items[itemIndex := item.(quantity := item.quantity + quantity)]);
        } else {
          cart := cart.(items := cart.items + [Item(pid, quantity)]);
        }
      }
      if Distinct() {
        PostKeepsDistinct(carts, products, u, pid, quantity);
      }
      res := SaveAndReply(cart, CartDoc(cart));
    }

    /** PUT /:productId */
    method Put(u: UserId, pid: ProductId, quantity: int) returns (res: Response)
      modifies this`carts
      ensures Outcome(res, carts) == PutOutcome(old(carts), u, pid, quantity)
      ensures old(Valid()) ==> Valid()
      ensures old(Distinct()) ==> Distinct()
    {
      if Distinct() {
        PutKeepsDistinct(carts, u, pid, quantity);
      }
      var found := FindCart(u);
      if found.None? {
        return Response(404, Message(CartNotFound));
      }
      var cart := found.value;
      var itemIndex := FindIndex(cart.items, pid);
      if itemIndex > -1 {
        cart := cart.(items := cart.items[itemIndex := cart.items[itemIndex].(quantity := quantity)]);
        res := SaveAndReply(cart, CartDoc(cart));
      } else {
        res := Response(404, Message(ItemNotFound));
      }
    }

    /** DELETE /:productId */
    method Delete(u: UserId, pid: ProductId) returns (res: Response)
      modifies this`carts
      ensures Outcome(res, carts) == DeleteOutcome(old(carts), u, pid)
      ensures old(Valid()) ==> Valid()
      ensures old(Distinct()) ==> Distinct()
    {
      if Distinct() {
        DeleteKeepsDistinct(carts, u, pid);
      }
      var found := FindCart(u);
      if found.None? {
        return Response(404, Message(CartNotFound));
      }
      var cart := found.value;
      cart := cart.(items := RemoveAll(cart.items, pid));
      res := SaveAndReply(cart, CartDoc(cart));
    }

    /**
     * A request through `auth` and then its route: a refused token is
     * answered by the gate and never reaches the store.
     */
    method Serve(authorization: Option<string>, verify: string -> Option<Auth.Claims>, request: Request)
      returns (res: Response)
      modifies this`carts
      ensures match Auth.Decide(authorization, verify)
        case Deny(reply) =>
          res == Response(reply.status, Message(reply.message)) && carts == old(carts)
        case Proceed(claims) =>
          Outcome(res, carts) == Dispatch(old(carts), products, claims.id, request)
      ensures old(Valid()) ==> Valid()
      ensures old(Distinct()) ==> Distinct()
    {
      var exchange := new Auth.Exchange(authorization);
      Auth.Authenticate(exchange, verify);
      if exchange.nextCalls == 0 {
        var reply := exchange.reply.value;
        return Response(reply.status, Message(reply.message));
      }
      var u := exchange.user.value.id;
      match request
      case GetCart => res := Get(u);
      case AddItem(pid, quantity) => res := Post(u, pid, quantity);
      case UpdateItem(pid, quantity) => res := Put(u, pid, quantity);
      case RemoveItem(pid) => res := Delete(u, pid);
    }
  }
}

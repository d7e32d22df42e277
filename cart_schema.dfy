/**
 * The stored shape of a cart document (src/models/Cart.js): a required
 * owner id and an ordered list of items, each with a required product id
 * and a quantity of at least 1.
 */
module CartSchema {

  /** Ids are compared as strings (ObjectId `toString()`). */
  type UserId = string
  type ProductId = string

  /** One element of `items`: `{ productId, quantity }`. */
  datatype Item = Item(productId: ProductId, quantity: int)

  /** A cart document: its owner and its items, in insertion order. */
  datatype Cart = Cart(userId: UserId, items: seq<Item>)

  /** The schema's smallest allowed quantity (`min: 1`). */
  const MinQuantity := 1

  /** `required: true` on an id field: the id is there. */
  predicate Present(id: string)
  {
    id != ""
  }

  /** The item sub-schema: a product id and a quantity no smaller than the minimum. */
  predicate ItemValid(item: Item)
  {
    Present(item.productId) && item.quantity >= MinQuantity
  }

  /** What `save()` checks before it writes: the owner id and every item. */
  predicate Valid(c: Cart)
  {
    Present(c.userId) && forall i :: 0 <= i < |c.items| ==> ItemValid(c.items[i])
  }

  /** No two items of a list name the same product. The schema does not demand it. */
  predicate DistinctProducts(items: seq<Item>)
  {
    forall i, j :: 0 <= i < j < |items| ==> items[i].productId != items[j].productId
  }

  /** A cart with any item whose quantity is below the minimum is refused. */
  lemma LowQuantityInvalid(c: Cart, i: int)
    requires 0 <= i < |c.items| && c.items[i].quantity < MinQuantity
    ensures !Valid(c)
  {
  }

  /** The schema itself accepts a cart that lists one product twice. */
  lemma SchemaAllowsDuplicates(u: UserId, p: ProductId)
    requires Present(u) && Present(p)
    ensures var c := Cart(u, [Item(p, 1), Item(p, 1)]); Valid(c) && !DistinctProducts(c.items)
  {
    var c := Cart(u, [Item(p, 1), Item(p, 1)]);
    assert c.items[0].productId == c.items[1].productId;
  }
}

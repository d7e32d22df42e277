/**
 * The pure item-list rules the cart routes apply (src/routes/cart.js):
 * first-match lookup (`findIndex`), merge-or-append for POST, replace for
 * PUT and filter-all for DELETE, with a per-product total as the reference
 * view that says what each rule does to the quantities.
 */
module CartItems {
  import opened CartSchema

  /** `items.findIndex(item => item.productId === pid)`: the first match, or -1. */
  function FindIndex(items: seq<Item>, pid: ProductId): (r: int)
    ensures -1 <= r < |items|
    ensures r == -1 <==> forall j :: 0 <= j < |items| ==> items[j].productId != pid
    ensures r >= 0 ==> items[r].productId == pid
    ensures r >= 0 ==> forall j :: 0 <= j < r ==> items[j].productId != pid
  {
    if |items| == 0 then -1
    else if items[0].productId == pid then 0
    else
      var k := FindIndex(items[1..], pid);
      if k == -1 then -1 else k + 1
  }

  /** `items.filter(item => item.productId !== pid)`. */
  function RemoveAll(items: seq<Item>, pid: ProductId): (r: seq<Item>)
    ensures |r| <= |items|
    ensures forall x :: x in r <==> x in items && x.productId != pid
  {
    if items == [] then []
    else (if items[0].productId != pid then [items[0]] else []) + RemoveAll(items[1..], pid)
  }

  /** POST on an existing cart: add to the first matching item, else push a new one. */
  function AddToItems(items: seq<Item>, pid: ProductId, quantity: int): seq<Item>
  {
    var i := FindIndex(items, pid);
    if i > -1 then items[i := items[i].(quantity := items[i].quantity + quantity)]
    else items + [Item(pid, quantity)]
  }

  /** PUT on a found item: its quantity becomes the given one. */
  function SetQuantityAt(items: seq<Item>, i: nat, quantity: int): seq<Item>
    requires i < |items|
  {
    items[i := items[i].(quantity := quantity)]
  }

  /** The sum of the quantities listed for one product: the cart seen as product -> amount. */
  function TotalOf(items: seq<Item>, pid: ProductId): int
  {
    if items == [] then 0
    else (if items[0].productId == pid then items[0].quantity else 0) + TotalOf(items[1..], pid)
  }

  /** The item list with every quantity dropped, in order. */
  function ProductIds(items: seq<Item>): (r: seq<ProductId>)
    ensures |r| == |items|
    ensures forall k :: 0 <= k < |items| ==> r[k] == items[k].productId
  {
    if items == [] then [] else [items[0].productId] + ProductIds(items[1..])
  }

  // ---------------------------------------------------------------------
  // Totals

  lemma {:induction false} TotalOfAppend(a: seq<Item>, b: seq<Item>, p: ProductId)
    ensures TotalOf(a + b, p) == TotalOf(a, p) + TotalOf(b, p)
  {
    if a == [] {
      assert a + b == b;
    } else {
      assert (a + b)[1..] == a[1..] + b;
      TotalOfAppend(a[1..], b, p);
    }
  }

  /** Replacing one item changes a product's total by exactly what that item contributed. */
  lemma {:induction false} TotalOfUpdate(items: seq<Item>, i: nat, x: Item, p: ProductId)
    requires i < |items|
    ensures TotalOf(items[i := x], p)
         == TotalOf(items, p)
            - (if items[i].productId == p then items[i].quantity else 0)
            + (if x.productId == p then x.quantity else 0)
  {
    if i == 0 {
      assert items[i := x][1..] == items[1..];
    } else {
      assert items[i := x][1..] == items[1..][i - 1 := x];
      TotalOfUpdate(items[1..], i - 1, x, p);
    }
  }

  /** In a list without duplicates a product's total is the quantity of its one item. */
  lemma {:induction false} TotalOfDistinct(items: seq<Item>, i: nat)
    requires i < |items| && DistinctProducts(items)
    ensures TotalOf(items, items[i].productId) == items[i].quantity
  {
    var p := items[i].productId;
    if i == 0 {
      TotalOfAbsent(items[1..], p);
    } else {
      assert DistinctProducts(items[1..]);
      assert items[1..][i - 1] == items[i];
      TotalOfDistinct(items[1..], i - 1);
    }
  }

  /** A product that no item names has total 0. */
  lemma {:induction false} TotalOfAbsent(items: seq<Item>, p: ProductId)
    requires forall j :: 0 <= j < |items| ==> items[j].productId != p
    ensures TotalOf(items, p) == 0
  {
    if items != [] {
      TotalOfAbsent(items[1..], p);
    }
  }

  // ---------------------------------------------------------------------
  // POST: merge or append

  /** A product already listed: only its first item grows, by exactly the given amount. */
  lemma AddMergesFirstMatch(items: seq<Item>, pid: ProductId, quantity: int)
    requires FindIndex(items, pid) >= 0
    ensures var i, r := FindIndex(items, pid), AddToItems(items, pid, quantity);
      |r| == |items| && r[i] == Item(pid, items[i].quantity + quantity) &&
      forall j :: 0 <= j < |items| && j != i ==> r[j] == items[j]
  {
  }

  /** A product not yet listed: a new item goes at the end, the rest keep their order. */
  lemma AddAppends(items: seq<Item>, pid: ProductId, quantity: int)
    requires forall j :: 0 <= j < |items| ==> items[j].productId != pid
    ensures AddToItems(items, pid, quantity) == items + [Item(pid, quantity)]
  {
  }

  /** Adding raises the product's total by the given amount and leaves every other total alone. */
  lemma AddTotal(items: seq<Item>, pid: ProductId, quantity: int, p: ProductId)
    ensures TotalOf(AddToItems(items, pid, quantity), p)
         == TotalOf(items, p) + (if p == pid then quantity else 0)
  {
    var i := FindIndex(items, pid);
    if i > -1 {
      TotalOfUpdate(items, i, items[i].(quantity := items[i].quantity + quantity), p);
    } else {
      TotalOfAppend(items, [Item(pid, quantity)], p);
      assert [Item(pid, quantity)][1..] == [];
    }
  }

  /** The merge rule keeps a list free of duplicate products. */
  lemma AddKeepsDistinct(items: seq<Item>, pid: ProductId, quantity: int)
    requires DistinctProducts(items)
    ensures DistinctProducts(AddToItems(items, pid, quantity))
  {
  }

  /** Adding keeps a valid cart valid exactly when the touched item ends up valid. */
  lemma AddValid(u: UserId, items: seq<Item>, pid: ProductId, quantity: int)
    requires Valid(Cart(u, items))
    ensures var i := FindIndex(items, pid);
      Valid(Cart(u, AddToItems(items, pid, quantity)))
      <==> if i > -1 then items[i].quantity + quantity >= MinQuantity
           else Present(pid) && quantity >= MinQuantity
  {
    var i := FindIndex(items, pid);
    var r := AddToItems(items, pid, quantity);
    if i > -1 {
      assert !ItemValid(r[i]) ==> !Valid(Cart(u, r));
    } else {
      assert r[|items|] == Item(pid, quantity);
    }
  }

  // ---------------------------------------------------------------------
  // PUT: replace

  /** PUT touches only the found item, and only its quantity. */
  lemma SetQuantityOnly(items: seq<Item>, i: nat, quantity: int)
    requires i < |items|
    ensures var r := SetQuantityAt(items, i, quantity);
      ProductIds(r) == ProductIds(items) && r[i].quantity == quantity &&
      forall j :: 0 <= j < |items| && j != i ==> r[j] == items[j]
  {
  }

  /** In a list without duplicates, PUT makes the product's total the given amount: replace, not add. */
  lemma SetTotal(items: seq<Item>, i: nat, quantity: int, p: ProductId)
    requires i < |items| && DistinctProducts(items)
    ensures TotalOf(SetQuantityAt(items, i, quantity), p)
         == if p == items[i].productId then quantity else TotalOf(items, p)
  {
    TotalOfUpdate(items, i, items[i].(quantity := quantity), p);
    if p == items[i].productId {
      TotalOfDistinct(items, i);
    }
  }

  /** PUT never introduces a duplicate. */
  lemma SetKeepsDistinct(items: seq<Item>, i: nat, quantity: int)
    requires i < |items| && DistinctProducts(items)
    ensures DistinctProducts(SetQuantityAt(items, i, quantity))
  {
  }

  // ---------------------------------------------------------------------
  // DELETE: filter all

  /** Filtering a list that does not name the product changes nothing. */
  lemma {:induction false} RemoveAbsent(items: seq<Item>, pid: ProductId)
    requires forall j :: 0 <= j < |items| ==> items[j].productId != pid
    ensures RemoveAll(items, pid) == items
  {
    if items != [] {
      RemoveAbsent(items[1..], pid);
      assert [items[0]] + items[1..] == items;
    }
  }

  /** Filtering works item by item: it commutes with concatenation, so order is kept. */
  lemma {:induction false} RemoveAppend(a: seq<Item>, b: seq<Item>, pid: ProductId)
    ensures RemoveAll(a + b, pid) == RemoveAll(a, pid) + RemoveAll(b, pid)
  {
    if a == [] {
      assert a + b == b;
    } else {
      assert (a + b)[1..] == a[1..] + b;
      RemoveAppend(a[1..], b, pid);
    }
  }

  /** Deleting twice is deleting once. */
  lemma RemoveTwice(items: seq<Item>, pid: ProductId)
    ensures RemoveAll(RemoveAll(items, pid), pid) == RemoveAll(items, pid)
  {
    var r := RemoveAll(items, pid);
    forall j | 0 <= j < |r|
      ensures r[j].productId != pid
    {
      assert r[j] in r;
    }
    RemoveAbsent(r, pid);
  }

  /** After DELETE the product's total is 0; every other product's total is unchanged. */
  lemma {:induction false} RemoveTotal(items: seq<Item>, pid: ProductId, p: ProductId)
    ensures TotalOf(RemoveAll(items, pid), p) == if p == pid then 0 else TotalOf(items, p)
  {
    if items != [] {
      var head := if items[0].productId != pid then [items[0]] else [];
      RemoveTotal(items[1..], pid, p);
      TotalOfAppend(head, RemoveAll(items[1..], pid), p);
      if head != [] {
        assert head[1..] == [];
      }
    }
  }

  /** Filtering keeps a list free of duplicates and keeps a valid cart valid. */
  lemma {:induction false} RemoveKeeps(u: UserId, items: seq<Item>, pid: ProductId)
    ensures DistinctProducts(items) ==> DistinctProducts(RemoveAll(items, pid))
    ensures Valid(Cart(u, items)) ==> Valid(Cart(u, RemoveAll(items, pid)))
  {
    var r := RemoveAll(items, pid);
    if Valid(Cart(u, items)) {
      forall k | 0 <= k < |r|
        ensures ItemValid(r[k])
      {
        assert r[k] in items;
      }
    }
    if items != [] && DistinctProducts(items) {
      var rest := RemoveAll(items[1..], pid);
      assert DistinctProducts(items[1..]);
      RemoveKeeps(u, items[1..], pid);
      if items[0].productId != pid {
        forall j | 0 <= j < |rest|
          ensures rest[j].productId != items[0].productId
        {
          assert rest[j] in items[1..];
        }
      }
    }
  }
}

/** The cart store: one mutable field, `cart`, an ordered sequence of line
    items, and the three actions `addToCart`, `updateCartItem` and
    `removeFromCart`. Every action computes the new sequence with a pure
    `find`/`map`/`filter`/spread expression; those expressions are the
    functions below, and the class `Cart` overwrites its field with them. */
module CartStore {
  import opened Wrappers

  /** One line item. `priceValue` is the unit price in minor units, absent
      when the product record carries none; `name` and `img` stand for the
      display fields the store passes through without reading them. The
      quantity is an `int` because the store never checks it. */
  datatype Item = Item(id: string, name: string, priceValue: Option<int>, quantity: int, img: string)

  /** Some item of `cart` carries `id`. */
  predicate HasId(cart: seq<Item>, id: string)
  {
    exists i :: 0 <= i < |cart| && cart[i].id == id
  }

  /** No two items of `cart` carry the same id. */
  ghost predicate UniqueIds(cart: seq<Item>)
  {
    forall i, j :: 0 <= i < j < |cart| ==> cart[i].id != cart[j].id
  }

  /** `state.cart.find(item => item.id === id)`: the first item carrying `id`. */
  function Find(cart: seq<Item>, id: string): (r: Option<Item>)
    ensures r.None? <==> !HasId(cart, id)
    ensures r.Some? ==> exists k :: 0 <= k < |cart| && cart[k] == r.value && r.value.id == id
                                      && forall j :: 0 <= j < k ==> cart[j].id != id
  {
    if cart == [] then None
    else if cart[0].id == id then Some(cart[0])
    else
      var r := Find(cart[1..], id);
      assert forall j :: 0 <= j < |cart[1..]| ==> cart[1..][j] == cart[j + 1];
      if r.Some? then
        ghost var k :| 0 <= k < |cart[1..]| && cart[1..][k] == r.value && r.value.id == id
                       && forall j :: 0 <= j < k ==> cart[1..][j].id != id;
        assert cart[k + 1] == r.value;
        r
      else
        r
  }

  /** One entry of the `map` at useCartStore.js:10-12: the entry carrying the
      product's id gets the product's quantity added; every other field is
      the one already stored. */
  function Merged(item: Item, product: Item): Item
  {
    if item.id == product.id then item.(quantity := item.quantity + product.quantity) else item
  }

  /** The value `addToCart(product)` gives the cart: merge into an existing
      entry with the same id, otherwise append the product as given. */
  function AddedTo(cart: seq<Item>, product: Item): (r: seq<Item>)
    ensures |r| == if HasId(cart, product.id) then |cart| else |cart| + 1
    ensures forall i :: 0 <= i < |cart| ==> r[i].id == cart[i].id
    ensures HasId(r, product.id)
  {
    if Find(cart, product.id).Some? then
      seq(|cart|, i requires 0 <= i < |cart| => Merged(cart[i], product))
    else
      var r := cart + [product];
      assert r[|cart|].id == product.id;
      r
  }

  /** The value `updateCartItem(id, quantity)` gives the cart: every entry
      carrying `id` gets exactly `quantity`, written verbatim. */
  function Updated(cart: seq<Item>, id: string, quantity: int): (r: seq<Item>)
    ensures |r| == |cart|
    ensures forall i :: 0 <= i < |cart| ==>
              r[i].quantity == (if cart[i].id == id then quantity else cart[i].quantity)
    ensures forall i :: 0 <= i < |cart| ==> r[i] == cart[i].(quantity := r[i].quantity)
  {
    seq(|cart|, i requires 0 <= i < |cart| => if cart[i].id == id then cart[i].(quantity := quantity) else cart[i])
  }

  /** The value `removeFromCart(id)` gives the cart: the `filter` keeping the
      entries whose id differs. */
  function Removed(cart: seq<Item>, id: string): (r: seq<Item>)
    ensures |r| <= |cart|
    ensures !HasId(r, id)
  {
    if cart == [] then []
    else if cart[0].id != id then [cart[0]] + Removed(cart[1..], id)
    else Removed(cart[1..], id)
  }

  // ---------------------------------------------------------------------
  // addToCart

  /** A product whose id is not in the cart is appended exactly as given, and
      every earlier entry stays where it was. */
  lemma AddNewAppends(cart: seq<Item>, product: Item)
    requires !HasId(cart, product.id)
    ensures AddedTo(cart, product) == cart + [product]
    ensures AddedTo(cart, product)[..|cart|] == cart
  {
  }

  /** A product whose id is already in the cart changes no length and no
      order: the matching entry's quantity becomes the old quantity plus the
      product's, with the fields it was first stored with, and every other
      entry is untouched. */
  lemma AddExistingMerges(cart: seq<Item>, product: Item)
    requires HasId(cart, product.id)
    ensures |AddedTo(cart, product)| == |cart|
    ensures forall i :: 0 <= i < |cart| && cart[i].id == product.id ==>
              AddedTo(cart, product)[i] == cart[i].(quantity := cart[i].quantity + product.quantity)
    ensures forall i :: 0 <= i < |cart| && cart[i].id != product.id ==>
              AddedTo(cart, product)[i] == cart[i]
  {
  }

  /** Adding keeps the ids unique: a repeated add merges instead of
      appending a second entry. */
  lemma AddKeepsIdsUnique(cart: seq<Item>, product: Item)
    requires UniqueIds(cart)
    ensures UniqueIds(AddedTo(cart, product))
  {
    var r := AddedTo(cart, product);
    if !HasId(cart, product.id) {
      assert r == cart + [product];
      forall i, j | 0 <= i < j < |r| ensures r[i].id != r[j].id {
        if j == |cart| {
          assert r[i] == cart[i];
        }
      }
    }
  }

  /** Sum of a list of quantities. */
  function QuantitySum(qs: seq<int>): int
  {
    if qs == [] then 0 else QuantitySum(qs[..|qs| - 1]) + qs[|qs| - 1]
  }

  /** The cart after one `addToCart` call per entry of `qs`, in order, each
      adding the product with that quantity. */
  function AddedAll(cart: seq<Item>, product: Item, qs: seq<int>): seq<Item>
  {
    if qs == [] then cart
    else AddedTo(AddedAll(cart, product, qs[..|qs| - 1]), product.(quantity := qs[|qs| - 1]))
  }

  /** Adding a product whose entry is last, and whose id no earlier entry
      carries, raises only that entry's quantity. */
  lemma MergeOntoLast(cart: seq<Item>, product: Item, q: int, q2: int)
    requires !HasId(cart, product.id)
    ensures AddedTo(cart + [product.(quantity := q)], product.(quantity := q2))
            == cart + [product.(quantity := q + q2)]
  {
    var c := cart + [product.(quantity := q)];
    var p := product.(quantity := q2);
    var target := cart + [product.(quantity := q + q2)];
    assert HasId(c, p.id) by { assert c[|cart|].id == p.id; }
    AddExistingMerges(c, p);
    var next := AddedTo(c, p);
    forall i | 0 <= i < |c| ensures next[i] == target[i] {
      if i < |cart| {
        assert c[i] == cart[i] && cart[i].id != product.id;
      }
    }
  }

  /** Any run of adds of one product whose id is not yet in the cart leaves a
      single entry for it, appended after the untouched old entries, whose
      quantity is the sum of all the added quantities. */
  lemma {:induction false} AddedAllMerges(cart: seq<Item>, product: Item, qs: seq<int>)
    requires !HasId(cart, product.id)
    requires qs != []
    ensures AddedAll(cart, product, qs) == cart + [product.(quantity := QuantitySum(qs))]
  {
    var init := qs[..|qs| - 1];
    var last := qs[|qs| - 1];
    if init == [] {
      AddNewAppends(cart, product.(quantity := last));
      assert AddedAll(cart, product, init) == cart;
    } else {
      AddedAllMerges(cart, product, init);
      MergeOntoLast(cart, product, QuantitySum(init), last);
    }
  }

  // ---------------------------------------------------------------------
  // updateCartItem

  /** Updating an id that no entry carries leaves the cart as it was. */
  lemma UpdateAbsentIsNoOp(cart: seq<Item>, id: string, quantity: int)
    requires !HasId(cart, id)
    ensures Updated(cart, id, quantity) == cart
  {
    var r := Updated(cart, id, quantity);
    forall i | 0 <= i < |cart| ensures r[i] == cart[i] {
      assert cart[i].id != id;
    }
  }

  /** Updating keeps the id of every position, so uniqueness survives. */
  lemma UpdateKeepsIdsUnique(cart: seq<Item>, id: string, quantity: int)
    requires UniqueIds(cart)
    ensures UniqueIds(Updated(cart, id, quantity))
  {
    var r := Updated(cart, id, quantity);
    assert forall i :: 0 <= i < |cart| ==> r[i].id == cart[i].id;
  }

  // ---------------------------------------------------------------------
  // removeFromCart

  /** The filter distributes over concatenation: the kept entries stay in
      their relative order. */
  lemma {:induction false} RemovedAppend(a: seq<Item>, b: seq<Item>, id: string)
    ensures Removed(a + b, id) == Removed(a, id) + Removed(b, id)
  {
    if a == [] {
      assert a + b == b;
    } else {
      assert (a + b)[0] == a[0];
      assert (a + b)[1..] == a[1..] + b;
      RemovedAppend(a[1..], b, id);
    }
  }

  /** An item survives the removal exactly when it was in the cart under
      another id. */
  lemma {:induction false} RemovedMembers(cart: seq<Item>, id: string)
    ensures forall x :: x in Removed(cart, id) <==> x in cart && x.id != id
  {
    if cart != [] {
      RemovedMembers(cart[1..], id);
      assert cart == [cart[0]] + cart[1..];
    }
  }

  /** Removing an id that no entry carries leaves the cart as it was. */
  lemma {:induction false} RemoveAbsentIsNoOp(cart: seq<Item>, id: string)
    requires !HasId(cart, id)
    ensures Removed(cart, id) == cart
  {
    if cart != [] {
      assert cart[0].id != id;
      assert !HasId(cart[1..], id) by {
        forall j | 0 <= j < |cart[1..]| ensures cart[1..][j].id != id {
          assert cart[1..][j] == cart[j + 1];
        }
      }
      RemoveAbsentIsNoOp(cart[1..], id);
      assert cart == [cart[0]] + cart[1..];
    }
  }

  /** Removing twice is removing once. */
  lemma RemoveIdempotent(cart: seq<Item>, id: string)
    ensures Removed(Removed(cart, id), id) == Removed(cart, id)
  {
    RemoveAbsentIsNoOp(Removed(cart, id), id);
  }

  /** With unique ids, removing the id of entry `k` deletes exactly that
      entry and keeps the rest in order. */
  lemma {:induction false} RemoveUniqueAt(cart: seq<Item>, k: nat)
    requires UniqueIds(cart)
    requires k < |cart|
    ensures Removed(cart, cart[k].id) == cart[..k] + cart[k + 1..]
  {
    var id := cart[k].id;
    var rest := cart[1..];
    UniqueTail(cart);
    if k == 0 {
      assert !HasId(rest, id) by {
        forall j | 0 <= j < |rest| ensures rest[j].id != id {
          assert rest[j] == cart[j + 1];
        }
      }
      RemoveAbsentIsNoOp(rest, id);
      assert cart[..0] + cart[1..] == rest;
    } else {
      assert cart[0].id != id;
      assert rest[k - 1] == cart[k];
      RemoveUniqueAt(rest, k - 1);
      assert Removed(cart, id) == [cart[0]] + (rest[..k - 1] + rest[k..]);
      assert [cart[0]] + rest[..k - 1] == cart[..k];
      assert rest[k..] == cart[k + 1..];
    }
  }

  /** The tail of a cart with unique ids has unique ids. */
  lemma UniqueTail(cart: seq<Item>)
    requires UniqueIds(cart) && cart != []
    ensures UniqueIds(cart[1..])
  {
    var rest := cart[1..];
    forall i, j | 0 <= i < j < |rest| ensures rest[i].id != rest[j].id {
      assert rest[i] == cart[i + 1] && rest[j] == cart[j + 1];
    }
  }

  /** Removing keeps the ids unique. */
  lemma {:induction false} RemoveKeepsIdsUnique(cart: seq<Item>, id: string)
    requires UniqueIds(cart)
    ensures UniqueIds(Removed(cart, id))
  {
    if cart != [] {
      var rest := cart[1..];
      UniqueTail(cart);
      RemoveKeepsIdsUnique(rest, id);
      if cart[0].id != id {
        var r := [cart[0]] + Removed(rest, id);
        forall i, j | 0 <= i < j < |r| ensures r[i].id != r[j].id {
          if i == 0 {
            RemovedMembers(rest, id);
            assert r[j] in rest;
            var m :| 0 <= m < |rest| && rest[m] == r[j];
            assert cart[m + 1] == r[j];
          } else {
            assert r[i] == Removed(rest, id)[i - 1] && r[j] == Removed(rest, id)[j - 1];
          }
        }
      }
    }
  }

  /** The store. `items` is the zustand state field `cart`; each action
      overwrites it with the value computed by the function above. */
  class Cart {
    var items: seq<Item>

    /** The invariant every action keeps: at most one entry per id. */
    ghost predicate Valid()
      reads this
    {
      UniqueIds(items)
    }

    /** The cart starts empty. */
    constructor ()
      ensures Valid()
      ensures items == []
    {
      items := [];
    }

    method AddToCart(product: Item)
      requires Valid()
      modifies this
      ensures Valid()
      ensures items == AddedTo(old(items), product)
    {
      AddKeepsIdsUnique(items, product);
      items := AddedTo(items, product);
    }

    method UpdateCartItem(id: string, quantity: int)
      requires Valid()
      modifies this
      ensures Valid()
      ensures items == Updated(old(items), id, quantity)
    {
      UpdateKeepsIdsUnique(items, id, quantity);
      items := Updated(items, id, quantity);
    }

    method RemoveFromCart(id: string)
      requires Valid()
      modifies this
      ensures Valid()
      ensures items == Removed(old(items), id)
    {
      RemoveKeepsIdsUnique(items, id);
      items := Removed(items, id);
    }

    /** Not one of the store's actions: the checkout page calls a `clearCart`
        that the store does not define. This is the action that call
        evidently means, used by the corrected checkout callback. */
    method ClearCart()
      modifies this
      ensures Valid()
      ensures items == []
    {
      items := [];
    }
  }
}

/** The cart hooks of app/hooks/useCartHooks.ts: the action constructors behind
    `addItem`, `removeItem` and `clearCart`, and the view `useCartData` derives
    from the reducer state. */
module CartHooks {
  import opened Cart

  /** What `useCartData` returns. */
  datatype CartData = CartData(items: seq<CartItem>, total: real, itemCount: int)

  /** `items.reduce((sum, item) => sum + item.quantity, 0)`. */
  function ItemCount(items: seq<CartItem>): int {
    if items == [] then 0 else items[0].quantity + ItemCount(items[1..])
  }

  /** The summed quantity of the items carrying `id`. */
  function QuantityOf(items: seq<CartItem>, id: int): int {
    if items == [] then 0
    else (if items[0].id == id then items[0].quantity else 0) + QuantityOf(items[1..], id)
  }

  /** The number of items carrying `id`. */
  function CountOf(items: seq<CartItem>, id: int): nat {
    if items == [] then 0
    else (if items[0].id == id then 1 else 0) + CountOf(items[1..], id)
  }

  /** `useCartData`: the items and the total as the reducer holds them, and the
      item count. */
  function UseCartData(state: CartState): (r: CartData)
    ensures r.items == state.items && r.total == state.total
    ensures r.itemCount == ItemCount(state.items)
  {
    CartData(state.items, state.total, ItemCount(state.items))
  }

  /** `addItem(product)` dispatches this action. */
  function AddItemAction(product: Product): (a: CartAction)
    ensures ActionType(a) == "ADD_ITEM" && a.AddItem? && a.product == product
  {
    AddItem(product)
  }

  /** `removeItem(id)` dispatches this action. */
  function RemoveItemAction(id: int): (a: CartAction)
    ensures ActionType(a) == "REMOVE_ITEM" && a.RemoveItem? && a.id == id
  {
    RemoveItem(id)
  }

  /** `clearCart()` dispatches this action. */
  function ClearCartAction(): (a: CartAction)
    ensures ActionType(a) == "CLEAR_CART"
  {
    ClearCart
  }

  // ---------------------------------------------------------------------------

  lemma {:induction false} ItemCountIncrement(items: seq<CartItem>, id: int)
    ensures ItemCount(IncrementItem(items, id)) == ItemCount(items) + CountOf(items, id)
  {
    if items != [] {
      ItemCountIncrement(items[1..], id);
    }
  }

  lemma {:induction false} ItemCountAppend(items: seq<CartItem>, item: CartItem)
    ensures ItemCount(items + [item]) == ItemCount(items) + item.quantity
  {
    if items != [] {
      assert (items + [item])[1..] == items[1..] + [item];
      ItemCountAppend(items[1..], item);
    }
  }

  lemma {:induction false} ItemCountWithout(items: seq<CartItem>, id: int)
    ensures ItemCount(WithoutItem(items, id)) == ItemCount(items) - QuantityOf(items, id)
  {
    if items != [] {
      ItemCountWithout(items[1..], id);
    }
  }

  /** With unique ids, an id present in the cart is carried by exactly one item. */
  lemma {:induction false} CountOfUnique(items: seq<CartItem>, id: int)
    requires UniqueIds(items)
    ensures CountOf(items, id) == if HasItem(items, id) then 1 else 0
  {
    if items != [] {
      assert UniqueIds(items[1..]) by {
        forall i, j | 0 <= i < j < |items[1..]| ensures items[1..][i].id != items[1..][j].id {
          assert items[1..][i] == items[i + 1] && items[1..][j] == items[j + 1];
        }
      }
      CountOfUnique(items[1..], id);
      if items[0].id == id {
        assert !HasItem(items[1..], id) by {
          forall k | 0 <= k < |items[1..]| ensures items[1..][k].id != id {
            assert items[1..][k] == items[k + 1];
          }
        }
      } else {
        assert HasItem(items, id) <==> HasItem(items[1..], id) by {
          if HasItem(items, id) {
            var k :| 0 <= k < |items| && items[k].id == id;
            assert items[1..][k - 1] == items[k];
          }
          if HasItem(items[1..], id) {
            var k :| 0 <= k < |items[1..]| && items[1..][k].id == id;
            assert items[k + 1] == items[1..][k];
          }
        }
      }
    }
  }

  /** `addItem` raises the item count by exactly one when the ids in the cart are
      unique (for a new product and for one already there). */
  lemma AddItemCountsOne(state: CartState, product: Product)
    requires UniqueIds(state.items)
    ensures UseCartData(CartReducer(state, AddItemAction(product))).itemCount
      == UseCartData(state).itemCount + 1
  {
    if HasItem(state.items, product.id) {
      ItemCountIncrement(state.items, product.id);
      CountOfUnique(state.items, product.id);
    } else {
      ItemCountAppend(state.items, CartItem(product.id, product.name, product.price, 1));
    }
  }

  /** `removeItem` lowers the item count by the quantity the removed id held. */
  lemma RemoveItemCount(state: CartState, id: int)
    ensures UseCartData(CartReducer(state, RemoveItemAction(id))).itemCount
      == UseCartData(state).itemCount - QuantityOf(state.items, id)
  {
    ItemCountWithout(state.items, id);
  }

  /** `clearCart` brings the item count, and the total, to zero. */
  lemma ClearCartCountsZero(state: CartState)
    ensures UseCartData(CartReducer(state, ClearCartAction())).itemCount == 0
    ensures UseCartData(CartReducer(state, ClearCartAction())).total == 0.0
  {
  }
}

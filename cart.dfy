/** The cart state machine of app/context/CartContext.tsx: a reducer over the
    line items, with the total recomputed from them after every change. */
module Cart {

  datatype Product = Product(id: int, name: string, price: real)

  datatype CartItem = CartItem(id: int, name: string, price: real, quantity: int)

  datatype CartState = CartState(items: seq<CartItem>, total: real)

  /** An action `type` the reducer has no case for. */
  type UnknownActionType = k: string | k != "ADD_ITEM" && k != "REMOVE_ITEM" && k != "CLEAR_CART" witness ""

  /** The dispatched actions; `UnknownAction` stands for any other `type`. */
  datatype CartAction =
    | AddItem(product: Product)
    | RemoveItem(id: int)
    | ClearCart
    | UnknownAction(kind: UnknownActionType)

  /** The `type` tag an action carries when it is dispatched. */
  function ActionType(a: CartAction): string {
    match a
    case AddItem(_) => "ADD_ITEM"
    case RemoveItem(_) => "REMOVE_ITEM"
    case ClearCart => "CLEAR_CART"
    case UnknownAction(kind) => kind
  }

  /** The state `useReducer` starts from. */
  const InitialState: CartState := CartState([], 0.0)

  /** `items.reduce((sum, item) => sum + item.price * item.quantity, 0)`. */
  function Total(items: seq<CartItem>): real {
    if items == [] then 0.0
    else items[0].price * items[0].quantity as real + Total(items[1..])
  }

  /** `items.find(item => item.id === id)` finds something. */
  predicate HasItem(items: seq<CartItem>, id: int) {
    exists k :: 0 <= k < |items| && items[k].id == id
  }

  predicate UniqueIds(items: seq<CartItem>) {
    forall i, j :: 0 <= i < j < |items| ==> items[i].id != items[j].id
  }

  /** `items.map(item => item.id === id ? {...item, quantity: item.quantity + 1} : item)`. */
  function IncrementItem(items: seq<CartItem>, id: int): seq<CartItem> {
    if items == [] then []
    else
      var head := if items[0].id == id then items[0].(quantity := items[0].quantity + 1) else items[0];
      [head] + IncrementItem(items[1..], id)
  }

  /** `items.filter(item => item.id !== id)`. */
  function WithoutItem(items: seq<CartItem>, id: int): seq<CartItem> {
    if items == [] then []
    else if items[0].id == id then WithoutItem(items[1..], id)
    else [items[0]] + WithoutItem(items[1..], id)
  }

  /** `cartReducer`. */
  function CartReducer(state: CartState, action: CartAction): (r: CartState)
    ensures action.AddItem? || action.RemoveItem? ==> r.total == Total(r.items)
    ensures action.ClearCart? ==> r == InitialState
    ensures action.UnknownAction? ==> r == state
  {
    match action
    case AddItem(product) =>
      if HasItem(state.items, product.id) then
        var updatedItems := IncrementItem(state.items, product.id);
        CartState(updatedItems, Total(updatedItems))
      else
        var newItems := state.items + [CartItem(product.id, product.name, product.price, 1)];
        CartState(newItems, Total(newItems))
    case RemoveItem(id) =>
      var filteredItems := WithoutItem(state.items, id);
      CartState(filteredItems, Total(filteredItems))
    case ClearCart => CartState([], 0.0)
    case UnknownAction(_) => state
  }

  // ---------------------------------------------------------------------------

  lemma {:induction false} IncrementItemAt(items: seq<CartItem>, id: int)
    ensures |IncrementItem(items, id)| == |items|
    ensures forall k :: 0 <= k < |items| ==>
      IncrementItem(items, id)[k]
        == if items[k].id == id then items[k].(quantity := items[k].quantity + 1) else items[k]
  {
    if items != [] {
      IncrementItemAt(items[1..], id);
      var r := IncrementItem(items, id);
      forall k | 1 <= k < |items|
        ensures r[k] == if items[k].id == id then items[k].(quantity := items[k].quantity + 1) else items[k]
      {
        assert r[k] == IncrementItem(items[1..], id)[k - 1];
        assert items[k] == items[1..][k - 1];
      }
    }
  }

  lemma {:induction false} TotalAppend(items: seq<CartItem>, item: CartItem)
    ensures Total(items + [item]) == Total(items) + item.price * item.quantity as real
  {
    if items != [] {
      assert (items + [item])[1..] == items[1..] + [item];
      TotalAppend(items[1..], item);
    }
  }

  lemma {:induction false} WithoutItemRemovesAll(items: seq<CartItem>, id: int)
    ensures !HasItem(WithoutItem(items, id), id)
    ensures forall k :: 0 <= k < |WithoutItem(items, id)| ==> WithoutItem(items, id)[k] in items
    ensures forall k :: 0 <= k < |items| && items[k].id != id ==> items[k] in WithoutItem(items, id)
  {
    if items != [] {
      WithoutItemRemovesAll(items[1..], id);
      var rest := WithoutItem(items[1..], id);
      var r := WithoutItem(items, id);
      forall k | 0 <= k < |r| ensures r[k] in items && r[k].id != id {
        if items[0].id != id && k == 0 {
        } else {
          var k' := if items[0].id == id then k else k - 1;
          assert r[k] == rest[k'];
          assert rest[k'] in items[1..];
          assert rest[k'].id != id;
        }
      }
      forall k | 0 <= k < |items| && items[k].id != id ensures items[k] in r {
        if k > 0 {
          assert items[k] == items[1..][k - 1];
          assert items[k] in rest;
        }
      }
    }
  }

  /** Filtering distributes over concatenation: it keeps the remaining items in
      their order. */
  lemma {:induction false} WithoutItemAppend(a: seq<CartItem>, b: seq<CartItem>, id: int)
    ensures WithoutItem(a + b, id) == WithoutItem(a, id) + WithoutItem(b, id)
  {
    if a != [] {
      assert (a + b)[1..] == a[1..] + b;
      WithoutItemAppend(a[1..], b, id);
    } else {
      assert a + b == b;
    }
  }

  /** Filtering a cart that holds no item with the id returns it unchanged. */
  lemma {:induction false} WithoutAbsentItem(items: seq<CartItem>, id: int)
    requires !HasItem(items, id)
    ensures WithoutItem(items, id) == items
  {
    if items != [] {
      assert !HasItem(items[1..], id) by {
        forall k | 0 <= k < |items[1..]| ensures items[1..][k].id != id {
          assert items[1..][k] == items[k + 1];
        }
      }
      WithoutAbsentItem(items[1..], id);
      assert items == [items[0]] + items[1..];
    }
  }

  /** ADD_ITEM for an id already in the cart adds one to the quantity of the
      items with that id and changes nothing else: same length, same order, same
      names and prices (even if the product offered differs). */
  lemma AddExistingIncrements(state: CartState, product: Product)
    requires HasItem(state.items, product.id)
    ensures var r := CartReducer(state, AddItem(product));
      && |r.items| == |state.items|
      && (forall k :: 0 <= k < |state.items| ==>
            r.items[k] == if state.items[k].id == product.id
                          then state.items[k].(quantity := state.items[k].quantity + 1)
                          else state.items[k])
      && r.total == Total(r.items)
  {
    IncrementItemAt(state.items, product.id);
  }

  /** ADD_ITEM for a new id appends the product with quantity 1, and the total
      grows by its price. */
  lemma AddNewAppends(state: CartState, product: Product)
    requires !HasItem(state.items, product.id)
    ensures var r := CartReducer(state, AddItem(product));
      && r.items == state.items + [CartItem(product.id, product.name, product.price, 1)]
      && r.total == Total(state.items) + product.price
  {
    TotalAppend(state.items, CartItem(product.id, product.name, product.price, 1));
  }

  /** REMOVE_ITEM drops every item with the id and keeps all the others (that it
      keeps their order is `WithoutItemAppend`). */
  lemma RemoveDropsItem(state: CartState, id: int)
    ensures var r := CartReducer(state, RemoveItem(id));
      && !HasItem(r.items, id)
      && (forall k :: 0 <= k < |r.items| ==> r.items[k] in state.items)
      && (forall k :: 0 <= k < |state.items| && state.items[k].id != id ==> state.items[k] in r.items)
      && (!HasItem(state.items, id) ==> r.items == state.items)
      && r.total == Total(r.items)
  {
    WithoutItemRemovesAll(state.items, id);
    if !HasItem(state.items, id) {
      WithoutAbsentItem(state.items, id);
    }
  }

  /** CLEAR_CART yields the initial state: no items, total 0. */
  lemma ClearEmpties(state: CartState)
    ensures CartReducer(state, ClearCart) == InitialState
  {
  }

  lemma {:induction false} WithoutItemUnique(items: seq<CartItem>, id: int)
    requires UniqueIds(items)
    ensures UniqueIds(WithoutItem(items, id))
  {
    if items != [] {
      WithoutItemUnique(items[1..], id);
      WithoutItemRemovesAll(items[1..], id);
      var rest := WithoutItem(items[1..], id);
      if items[0].id != id {
        var r := [items[0]] + rest;
        forall i, j | 0 <= i < j < |r| ensures r[i].id != r[j].id {
          if i == 0 {
            assert r[j] == rest[j - 1] && rest[j - 1] in items[1..];
            var m :| 0 <= m < |items[1..]| && items[1..][m] == rest[j - 1];
            assert items[1..][m] == items[m + 1];
          } else {
            assert r[i] == rest[i - 1] && r[j] == rest[j - 1];
          }
        }
      }
    }
  }

  /** Item ids stay unique under every action when they start unique. */
  lemma ReducerKeepsIdsUnique(state: CartState, action: CartAction)
    requires UniqueIds(state.items)
    ensures UniqueIds(CartReducer(state, action).items)
  {
    match action
    case AddItem(product) =>
      if HasItem(state.items, product.id) {
        IncrementItemAt(state.items, product.id);
      }
    case RemoveItem(id) =>
      WithoutItemUnique(state.items, id);
    case ClearCart =>
    case UnknownAction(_) =>
  }
}

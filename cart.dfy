/**
 * The cart state machine: a pure transition function over a cart whose
 * `total` and `itemCount` are recomputed from its ordered lines after every
 * action. Notifications that the reducer emits are not modelled.
 */
module Cart {
  import opened Catalog

  /** One cart line: a product (by value) and how many of it. */
  datatype CartItem = CartItem(product: Product, quantity: int)

  /** Ordered lines plus the two derived fields. */
  datatype CartState = CartState(items: seq<CartItem>, total: int, itemCount: int)

  datatype CartAction =
    | AddItem(product: Product)
    | RemoveItem(productId: int)
    | UpdateQuantity(productId: int, quantity: int)
    | ClearCart
    | LoadCart(lines: seq<CartItem>)

  /** The state a fresh cart starts in, and the one ClearCart produces. */
  const EmptyCart := CartState([], 0, 0)

  /** No line has a negative price or a negative quantity. */
  predicate NonNegativeLines(items: seq<CartItem>) {
    forall i :: 0 <= i < |items| ==> items[i].product.price >= 0 && items[i].quantity >= 0
  }

  /** Sum of price times quantity over the lines. */
  function TotalPrice(items: seq<CartItem>): (r: int)
  {
    if items == [] then 0
    else items[0].product.price * items[0].quantity + TotalPrice(items[1..])
  }

  /** Sum of quantities over the lines. */
  function ItemCount(items: seq<CartItem>): (r: int)
  {
    if items == [] then 0
    else items[0].quantity + ItemCount(items[1..])
  }

  /** The derived fields agree with the lines. */
  predicate Consistent(s: CartState) {
    s.total == TotalPrice(s.items) && s.itemCount == ItemCount(s.items)
  }

  /** At most one line per product id. */
  predicate UniqueIds(items: seq<CartItem>) {
    forall i, j :: 0 <= i < j < |items| ==> items[i].product.id != items[j].product.id
  }

  /** Every line holds at least one unit. */
  predicate PositiveQuantities(items: seq<CartItem>) {
    forall i :: 0 <= i < |items| ==> items[i].quantity >= 1
  }

  /** The invariant a cart built by the reducer keeps. */
  predicate WellFormed(s: CartState) {
    Consistent(s) && UniqueIds(s.items) && PositiveQuantities(s.items)
  }

  /** Some line carries product id `id` (the reducer's `find` succeeds). */
  predicate HasId(items: seq<CartItem>, id: int) {
    exists i :: 0 <= i < |items| && items[i].product.id == id
  }

  /** Recompute the derived fields from the lines, keeping the lines. */
  function CalculateTotals(s: CartState): (r: CartState)
    ensures r.items == s.items && Consistent(r)
  {
    s.(total := TotalPrice(s.items), itemCount := ItemCount(s.items))
  }

  /** `map` that adds one unit to every line with product id `id`. */
  function IncrementWhere(items: seq<CartItem>, id: int): (r: seq<CartItem>)
    ensures |r| == |items|
    ensures forall i :: 0 <= i < |items| ==>
      r[i] == if items[i].product.id == id then items[i].(quantity := items[i].quantity + 1) else items[i]
  {
    if items == [] then []
    else
      var head := if items[0].product.id == id then items[0].(quantity := items[0].quantity + 1) else items[0];
      [head] + IncrementWhere(items[1..], id)
  }

  /** `map` that sets every line with product id `id` to quantity `q`. */
  function SetQuantityWhere(items: seq<CartItem>, id: int, q: int): (r: seq<CartItem>)
    ensures |r| == |items|
    ensures forall i :: 0 <= i < |items| ==>
      r[i] == if items[i].product.id == id then items[i].(quantity := q) else items[i]
  {
    if items == [] then []
    else
      var head := if items[0].product.id == id then items[0].(quantity := q) else items[0];
      [head] + SetQuantityWhere(items[1..], id, q)
  }

  /** `filter` that drops every line with product id `id`. */
  function RemoveWhere(items: seq<CartItem>, id: int): (r: seq<CartItem>)
    ensures forall x :: x in r <==> x in items && x.product.id != id
    ensures |r| <= |items|
  {
    if items == [] then []
    else if items[0].product.id == id then RemoveWhere(items[1..], id)
    else [items[0]] + RemoveWhere(items[1..], id)
  }

  /** The reducer: the state after `a`, with totals consistent with its lines. */
  function Apply(s: CartState, a: CartAction): (r: CartState)
    ensures Consistent(r)
  {
    match a
    case AddItem(p) =>
      if HasId(s.items, p.id) then CalculateTotals(s.(items := IncrementWhere(s.items, p.id)))
      else CalculateTotals(s.(items := s.items + [CartItem(p, 1)]))
    case RemoveItem(id) =>
      CalculateTotals(s.(items := RemoveWhere(s.items, id)))
    case UpdateQuantity(id, q) =>
      if q <= 0 then CalculateTotals(s.(items := RemoveWhere(s.items, id)))
      else CalculateTotals(s.(items := SetQuantityWhere(s.items, id, q)))
    case ClearCart =>
      EmptyCart
    case LoadCart(lines) =>
      CalculateTotals(s.(items := lines))
  }

  /** Dispatch the actions one after another. */
  function ApplyAll(s: CartState, actions: seq<CartAction>): CartState
    decreases |actions|
  {
    if actions == [] then s else ApplyAll(Apply(s, actions[0]), actions[1..])
  }

  // ---------------------------------------------------------------------
  // Sums over lines

  lemma {:induction false} ItemCountAppend(a: seq<CartItem>, b: seq<CartItem>)
    ensures ItemCount(a + b) == ItemCount(a) + ItemCount(b)
  {
    if a == [] {
      assert a + b == b;
    } else {
      assert (a + b)[1..] == a[1..] + b;
      ItemCountAppend(a[1..], b);
    }
  }

  lemma {:induction false} TotalPriceAppend(a: seq<CartItem>, b: seq<CartItem>)
    ensures TotalPrice(a + b) == TotalPrice(a) + TotalPrice(b)
  {
    if a == [] {
      assert a + b == b;
    } else {
      assert (a + b)[1..] == a[1..] + b;
      TotalPriceAppend(a[1..], b);
    }
  }

  /** With at least one unit on every line, the count is at least the number of lines. */
  lemma {:induction false} ItemCountAtLeastLines(items: seq<CartItem>)
    requires PositiveQuantities(items)
    ensures ItemCount(items) >= |items|
  {
    if items != [] {
      assert PositiveQuantities(items[1..]) by {
        forall i | 0 <= i < |items[1..]| ensures items[1..][i].quantity >= 1 {
          assert items[1..][i] == items[i + 1];
        }
      }
      ItemCountAtLeastLines(items[1..]);
    }
  }

  /** With no negative price or quantity, the total is not negative. */
  lemma {:induction false} TotalPriceNonNegative(items: seq<CartItem>)
    requires NonNegativeLines(items)
    ensures TotalPrice(items) >= 0
  {
    if items != [] {
      assert NonNegativeLines(items[1..]) by {
        forall i | 0 <= i < |items[1..]|
          ensures items[1..][i].product.price >= 0 && items[1..][i].quantity >= 0
        {
          assert items[1..][i] == items[i + 1];
        }
      }
      TotalPriceNonNegative(items[1..]);
    }
  }

  /** Replacing one line changes the sums by the difference of that line alone. */
  lemma {:induction false} SumsAfterUpdate(items: seq<CartItem>, k: int, x: CartItem)
    requires 0 <= k < |items|
    ensures ItemCount(items[k := x]) == ItemCount(items) - items[k].quantity + x.quantity
    ensures TotalPrice(items[k := x]) ==
      TotalPrice(items) - items[k].product.price * items[k].quantity + x.product.price * x.quantity
  {
    if k > 0 {
      assert items[k := x][1..] == items[1..][k - 1 := x];
      SumsAfterUpdate(items[1..], k - 1, x);
    } else {
      assert items[k := x][1..] == items[1..];
    }
  }

  lemma MulSucc(a: int, b: int)
    ensures a * (b + 1) == a * b + a
  {
  }

  // ---------------------------------------------------------------------
  // Properties of the list operations

  /** Removing an id that no line carries leaves the lines as they are. */
  lemma {:induction false} RemoveWhereAbsent(items: seq<CartItem>, id: int)
    requires !HasId(items, id)
    ensures RemoveWhere(items, id) == items
  {
    if items != [] {
      assert !HasId(items[1..], id) by {
        forall i | 0 <= i < |items[1..]| ensures items[1..][i].product.id != id {
          assert items[1..][i] == items[i + 1];
        }
      }
      RemoveWhereAbsent(items[1..], id);
      assert items == [items[0]] + items[1..];
    }
  }

  /** Removal keeps the surviving lines in their relative order. */
  lemma {:induction false} RemoveWhereAppend(a: seq<CartItem>, b: seq<CartItem>, id: int)
    ensures RemoveWhere(a + b, id) == RemoveWhere(a, id) + RemoveWhere(b, id)
  {
    if a == [] {
      assert a + b == b;
    } else {
      assert (a + b)[0] == a[0];
      assert (a + b)[1..] == a[1..] + b;
      RemoveWhereAppend(a[1..], b, id);
    }
  }

  /** Removal cannot create a duplicate id. */
  lemma {:induction false} RemoveWherePreservesUnique(items: seq<CartItem>, id: int)
    requires UniqueIds(items)
    ensures UniqueIds(RemoveWhere(items, id))
  {
    if items != [] {
      var rest := items[1..];
      assert UniqueIds(rest) by {
        forall i, j | 0 <= i < j < |rest| ensures rest[i].product.id != rest[j].product.id {
          assert rest[i] == items[i + 1] && rest[j] == items[j + 1];
        }
      }
      RemoveWherePreservesUnique(rest, id);
      var tail := RemoveWhere(rest, id);
      if items[0].product.id != id {
        forall y | y in tail ensures y.product.id != items[0].product.id {
          var m :| 0 <= m < |rest| && rest[m] == y;
          assert rest[m] == items[m + 1];
        }
        ConsPreservesUnique(items[0], tail);
      }
    }
  }

  /** Prepending a line whose id no other line carries keeps the ids unique. */
  lemma ConsPreservesUnique(x: CartItem, tail: seq<CartItem>)
    requires UniqueIds(tail)
    requires forall y :: y in tail ==> y.product.id != x.product.id
    ensures UniqueIds([x] + tail)
  {
    var r := [x] + tail;
    forall i, j | 0 <= i < j < |r| ensures r[i].product.id != r[j].product.id {
      assert r[j] == tail[j - 1];
      if i > 0 {
        assert r[i] == tail[i - 1];
      }
    }
  }

  /** Setting a quantity twice is the same as setting it once. */
  lemma SetQuantityWhereIdempotent(items: seq<CartItem>, id: int, q: int)
    ensures SetQuantityWhere(SetQuantityWhere(items, id, q), id, q) == SetQuantityWhere(items, id, q)
  {
    var once := SetQuantityWhere(items, id, q);
    var twice := SetQuantityWhere(once, id, q);
    assert forall i :: 0 <= i < |once| ==> twice[i] == once[i];
  }

  /** Setting the quantity of an id that no line carries leaves the lines as they are. */
  lemma SetQuantityWhereAbsent(items: seq<CartItem>, id: int, q: int)
    requires !HasId(items, id)
    ensures SetQuantityWhere(items, id, q) == items
  {
    var r := SetQuantityWhere(items, id, q);
    assert forall i :: 0 <= i < |items| ==> r[i] == items[i];
  }

  // ---------------------------------------------------------------------
  // ADD_ITEM

  /**
   * Adding a product already in the cart adds one unit to every line with its
   * id (the stored product is kept) and changes nothing else: same number of
   * lines, same order.
   */
  lemma AddExistingLines(s: CartState, p: Product)
    requires HasId(s.items, p.id)
    ensures |Apply(s, AddItem(p)).items| == |s.items|
    ensures forall i :: 0 <= i < |s.items| ==>
      Apply(s, AddItem(p)).items[i] ==
        if s.items[i].product.id == p.id then s.items[i].(quantity := s.items[i].quantity + 1) else s.items[i]
  {
  }

  /**
   * In a cart with unique ids, adding a product already present at line `k`
   * adds exactly one to `itemCount` and that line's stored price to `total`.
   */
  lemma AddExistingTotals(s: CartState, p: Product, k: int)
    requires Consistent(s) && UniqueIds(s.items)
    requires 0 <= k < |s.items| && s.items[k].product.id == p.id
    ensures Apply(s, AddItem(p)).itemCount == s.itemCount + 1
    ensures Apply(s, AddItem(p)).total == s.total + s.items[k].product.price
  {
    AddExistingUpdatesLine(s, p, k);
    SumsAfterIncrement(s.items, k);
  }

  /** One more unit on line `k` adds one to the count and that line's price to the total. */
  lemma SumsAfterIncrement(items: seq<CartItem>, k: int)
    requires 0 <= k < |items|
    ensures ItemCount(items[k := items[k].(quantity := items[k].quantity + 1)]) == ItemCount(items) + 1
    ensures TotalPrice(items[k := items[k].(quantity := items[k].quantity + 1)]) ==
      TotalPrice(items) + items[k].product.price
  {
    SumsAfterUpdate(items, k, items[k].(quantity := items[k].quantity + 1));
    MulSucc(items[k].product.price, items[k].quantity);
  }

  /** With unique ids, adding the product of line `k` rewrites line `k` alone. */
  lemma AddExistingUpdatesLine(s: CartState, p: Product, k: int)
    requires UniqueIds(s.items)
    requires 0 <= k < |s.items| && s.items[k].product.id == p.id
    ensures Apply(s, AddItem(p)).items == s.items[k := s.items[k].(quantity := s.items[k].quantity + 1)]
  {
    assert HasId(s.items, p.id);
    IncrementWhereUniqueLine(s.items, k);
  }

  /** With unique ids, incrementing line `k`'s id touches line `k` alone. */
  lemma IncrementWhereUniqueLine(items: seq<CartItem>, k: int)
    requires UniqueIds(items) && 0 <= k < |items|
    ensures IncrementWhere(items, items[k].product.id) ==
      items[k := items[k].(quantity := items[k].quantity + 1)]
  {
    var id := items[k].product.id;
    var r := IncrementWhere(items, id);
    var u := items[k := items[k].(quantity := items[k].quantity + 1)];
    forall i | 0 <= i < |items| ensures r[i] == u[i] {
      if i != k {
        assert items[i].product.id != id by {
          if i < k {} else {}
        }
      }
    }
  }

  /**
   * Adding a product not in the cart appends one line with quantity 1, keeps
   * the existing lines in order, and on a consistent cart adds one to
   * `itemCount` and the product's price to `total`.
   */
  lemma AddNewProduct(s: CartState, p: Product)
    requires !HasId(s.items, p.id)
    ensures Apply(s, AddItem(p)).items == s.items + [CartItem(p, 1)]
    ensures Consistent(s) ==> Apply(s, AddItem(p)).itemCount == s.itemCount + 1
    ensures Consistent(s) ==> Apply(s, AddItem(p)).total == s.total + p.price
  {
    ItemCountAppend(s.items, [CartItem(p, 1)]);
    TotalPriceAppend(s.items, [CartItem(p, 1)]);
  }

  /** Adding the same product twice to an empty cart gives one line of quantity 2. */
  lemma AddSameProductTwice(p: Product)
    ensures ApplyAll(EmptyCart, [AddItem(p), AddItem(p)]).items == [CartItem(p, 2)]
  {
    var once := Apply(EmptyCart, AddItem(p));
    AddNewProduct(EmptyCart, p);
    assert once.items == [CartItem(p, 1)];
    assert HasId(once.items, p.id);
    var twice := Apply(once, AddItem(p));
    assert twice.items == [CartItem(p, 2)];
    assert [AddItem(p), AddItem(p)][1..] == [AddItem(p)];
    assert ApplyAll(once, [AddItem(p)]) == ApplyAll(twice, []);
  }

  /** The AddItem actions for `ps`, in order. */
  function AddActions(ps: seq<Product>): (r: seq<CartAction>)
    ensures |r| == |ps|
  {
    if ps == [] then [] else [AddItem(ps[0])] + AddActions(ps[1..])
  }

  /** New one-unit lines for `ps`, in order. */
  function NewLines(ps: seq<Product>): seq<CartItem> {
    if ps == [] then [] else [CartItem(ps[0], 1)] + NewLines(ps[1..])
  }

  /** Sum of the prices of `ps`. */
  function PriceSum(ps: seq<Product>): int {
    if ps == [] then 0 else ps[0].price + PriceSum(ps[1..])
  }

  /** An id occurs after appending a line iff it occurred before or is the new line's. */
  lemma HasIdAppend(items: seq<CartItem>, x: CartItem, id: int)
    ensures HasId(items + [x], id) <==> HasId(items, id) || x.product.id == id
  {
    var r := items + [x];
    if HasId(r, id) {
      var m :| 0 <= m < |r| && r[m].product.id == id;
      if m < |items| {
        assert items[m] == r[m];
      }
    }
    if HasId(items, id) {
      var m :| 0 <= m < |items| && items[m].product.id == id;
      assert r[m] == items[m];
    }
    if x.product.id == id {
      assert r[|items|] == x;
    }
  }

  /** The products have pairwise distinct ids. */
  predicate DistinctIds(ps: seq<Product>) {
    forall i, j :: 0 <= i < j < |ps| ==> ps[i].id != ps[j].id
  }

  /** No product of `ps` has a line in `items`. */
  predicate NoneInCart(items: seq<CartItem>, ps: seq<Product>) {
    forall i :: 0 <= i < |ps| ==> !HasId(items, ps[i].id)
  }

  /** After appending the line for `ps[0]`, the remaining products are still absent and distinct. */
  lemma AddHeadKeepsRestFresh(items: seq<CartItem>, ps: seq<Product>)
    requires |ps| > 0 && DistinctIds(ps) && NoneInCart(items, ps)
    ensures !HasId(items, ps[0].id)
    ensures DistinctIds(ps[1..]) && NoneInCart(items + [CartItem(ps[0], 1)], ps[1..])
  {
    var rest := ps[1..];
    forall i | 0 <= i < |rest| ensures !HasId(items + [CartItem(ps[0], 1)], rest[i].id) {
      assert rest[i] == ps[i + 1];
      HasIdAppend(items, CartItem(ps[0], 1), rest[i].id);
    }
    forall i, j | 0 <= i < j < |rest| ensures rest[i].id != rest[j].id {
      assert rest[i] == ps[i + 1] && rest[j] == ps[j + 1];
    }
  }

  /**
   * Adding products with distinct ids, none already in the cart, appends one
   * line per product; `itemCount` grows by the number of actions and `total`
   * by the sum of the products' prices.
   */
  lemma {:induction false} AddDistinctProducts(s: CartState, ps: seq<Product>)
    requires Consistent(s) && DistinctIds(ps) && NoneInCart(s.items, ps)
    ensures ApplyAll(s, AddActions(ps)).items == s.items + NewLines(ps)
    ensures ApplyAll(s, AddActions(ps)).itemCount == s.itemCount + |ps|
    ensures ApplyAll(s, AddActions(ps)).total == s.total + PriceSum(ps)
    decreases |ps|
  {
    if ps == [] {
      assert s.items + [] == s.items;
    } else {
      var p, rest := ps[0], ps[1..];
      AddHeadKeepsRestFresh(s.items, ps);
      var s' := Apply(s, AddItem(p));
      AddNewProduct(s, p);
      AddDistinctProducts(s', rest);
      ApplyAllAddActions(s, ps);
      assert NewLines(ps) == [CartItem(p, 1)] + NewLines(rest);
      assert s.items + NewLines(ps) == (s.items + [CartItem(p, 1)]) + NewLines(rest);
    }
  }

  /** Dispatching the adds for `ps` is dispatching the first, then the rest. */
  lemma ApplyAllAddActions(s: CartState, ps: seq<Product>)
    requires |ps| > 0
    ensures ApplyAll(s, AddActions(ps)) == ApplyAll(Apply(s, AddItem(ps[0])), AddActions(ps[1..]))
  {
    var acts := AddActions(ps);
    assert acts[0] == AddItem(ps[0]) && acts[1..] == AddActions(ps[1..]);
  }

  // ---------------------------------------------------------------------
  // REMOVE_ITEM

  /**
   * Removing an id drops every line with that id and keeps every other line;
   * the survivors stay in their relative order (RemoveWhereAppend).
   */
  lemma RemoveDropsExactlyThatId(s: CartState, id: int)
    ensures !HasId(Apply(s, RemoveItem(id)).items, id)
    ensures forall x :: x in Apply(s, RemoveItem(id)).items <==> x in s.items && x.product.id != id
  {
  }

  /** Removing an id that is not in a consistent cart changes nothing. */
  lemma RemoveAbsentIsNoOp(s: CartState, id: int)
    requires Consistent(s) && !HasId(s.items, id)
    ensures Apply(s, RemoveItem(id)) == s
  {
    RemoveWhereAbsent(s.items, id);
  }

  // ---------------------------------------------------------------------
  // UPDATE_QUANTITY

  /** A quantity of zero or less behaves exactly as RemoveItem. */
  lemma UpdateNonPositiveIsRemove(s: CartState, id: int, q: int)
    requires q <= 0
    ensures Apply(s, UpdateQuantity(id, q)) == Apply(s, RemoveItem(id))
  {
  }

  /**
   * A positive quantity sets every line with the id to exactly that quantity
   * and leaves every other line as it was; with no such line, nothing changes.
   */
  lemma UpdatePositiveSetsQuantity(s: CartState, id: int, q: int)
    requires q > 0
    ensures |Apply(s, UpdateQuantity(id, q)).items| == |s.items|
    ensures forall i :: 0 <= i < |s.items| ==>
      Apply(s, UpdateQuantity(id, q)).items[i] ==
        if s.items[i].product.id == id then s.items[i].(quantity := q) else s.items[i]
    ensures !HasId(s.items, id) && Consistent(s) ==> Apply(s, UpdateQuantity(id, q)) == s
  {
    if !HasId(s.items, id) {
      SetQuantityWhereAbsent(s.items, id, q);
    }
  }

  /** Applying the same UpdateQuantity twice equals applying it once. */
  lemma UpdateQuantityIdempotent(s: CartState, id: int, q: int)
    ensures Apply(Apply(s, UpdateQuantity(id, q)), UpdateQuantity(id, q)) == Apply(s, UpdateQuantity(id, q))
  {
    var once := Apply(s, UpdateQuantity(id, q));
    if q <= 0 {
      RemoveWhereAbsent(once.items, id);
    } else {
      SetQuantityWhereIdempotent(s.items, id, q);
    }
  }

  // ---------------------------------------------------------------------
  // CLEAR_CART and LOAD_CART

  /** Clearing yields the empty cart from any state. */
  lemma ClearCartEmpties(s: CartState)
    ensures Apply(s, ClearCart) == CartState([], 0, 0)
  {
  }

  /** Reloading a consistent cart's own lines reproduces it exactly, totals included. */
  lemma LoadCartRoundTrip(s: CartState, t: CartState)
    requires Consistent(s)
    ensures Apply(t, LoadCart(s.items)) == s
  {
  }

  /** Loaded lines are installed verbatim, so LoadCart can introduce a duplicate id. */
  lemma LoadCartMayDuplicate(p: Product)
    ensures !UniqueIds(Apply(EmptyCart, LoadCart([CartItem(p, 1), CartItem(p, 1)])).items)
  {
    var items := Apply(EmptyCart, LoadCart([CartItem(p, 1), CartItem(p, 1)])).items;
    assert items[0].product.id == items[1].product.id;
  }

  // ---------------------------------------------------------------------
  // The invariant

  /**
   * Every action keeps the cart well formed (consistent totals, unique ids,
   * positive quantities), provided that lines installed by LoadCart are
   * themselves unique and positive.
   */
  lemma ApplyPreservesWellFormed(s: CartState, a: CartAction)
    requires WellFormed(s)
    requires a.LoadCart? ==> UniqueIds(a.lines) && PositiveQuantities(a.lines)
    ensures WellFormed(Apply(s, a))
  {
    match a
    case AddItem(p) =>
      if HasId(s.items, p.id) {
        IncrementWherePreservesInvariant(s.items, p.id);
      } else {
        AppendFreshPreservesInvariant(s.items, CartItem(p, 1));
      }
    case RemoveItem(id) =>
      RemoveWherePreservesUnique(s.items, id);
    case UpdateQuantity(id, q) =>
      if q <= 0 {
        RemoveWherePreservesUnique(s.items, id);
      } else {
        SetQuantityWherePreservesInvariant(s.items, id, q);
      }
    case ClearCart =>
    case LoadCart(_) =>
  }

  lemma IncrementWherePreservesInvariant(items: seq<CartItem>, id: int)
    requires UniqueIds(items) && PositiveQuantities(items)
    ensures UniqueIds(IncrementWhere(items, id)) && PositiveQuantities(IncrementWhere(items, id))
  {
  }

  lemma SetQuantityWherePreservesInvariant(items: seq<CartItem>, id: int, q: int)
    requires UniqueIds(items) && PositiveQuantities(items) && q > 0
    ensures UniqueIds(SetQuantityWhere(items, id, q)) && PositiveQuantities(SetQuantityWhere(items, id, q))
  {
  }

  lemma AppendFreshPreservesInvariant(items: seq<CartItem>, x: CartItem)
    requires UniqueIds(items) && PositiveQuantities(items)
    requires !HasId(items, x.product.id) && x.quantity >= 1
    ensures UniqueIds(items + [x]) && PositiveQuantities(items + [x])
  {
    var r := items + [x];
    assert forall i :: 0 <= i < |items| ==> r[i] == items[i];
  }

  /** The empty cart the provider starts from satisfies the invariant. */
  lemma EmptyCartWellFormed()
    ensures WellFormed(EmptyCart) && EmptyCart.items == []
  {
  }

  /** Every LoadCart among `actions` carries unique ids and positive quantities. */
  predicate LoadsWellFormed(actions: seq<CartAction>) {
    forall i :: 0 <= i < |actions| ==>
      actions[i].LoadCart? ==> UniqueIds(actions[i].lines) && PositiveQuantities(actions[i].lines)
  }

  /** The invariant holds across any sequence of actions whose loads are well formed. */
  lemma {:induction false} ApplyAllPreservesWellFormed(s: CartState, actions: seq<CartAction>)
    requires WellFormed(s)
    requires LoadsWellFormed(actions)
    ensures WellFormed(ApplyAll(s, actions))
    decreases |actions|
  {
    if actions != [] {
      ApplyPreservesWellFormed(s, actions[0]);
      assert LoadsWellFormed(actions[1..]) by {
        forall i | 0 <= i < |actions[1..]|
          ensures actions[1..][i].LoadCart? ==>
            UniqueIds(actions[1..][i].lines) && PositiveQuantities(actions[1..][i].lines)
        {
          assert actions[1..][i] == actions[i + 1];
        }
      }
      ApplyAllPreservesWellFormed(Apply(s, actions[0]), actions[1..]);
    }
  }
}

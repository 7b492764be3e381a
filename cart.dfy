/** The client's shopping cart: a list of lines, one per product, that the
    cart provider replaces through its updaters, and the three totals it
    derives from the lines on every render. */
module Cart {
  import opened Schema

  /** One cart line: the product as it was when added, and how many. */
  datatype CartItem = CartItem(product: Product, quantity: int)

  /** No product id appears on two lines. */
  predicate UniqueProducts(items: seq<CartItem>) {
    forall i, j :: 0 <= i < j < |items| ==> items[i].product.id != items[j].product.id
  }

  /** The position of the first line for `productId`; |items| when there is none. */
  function IndexOfProduct(items: seq<CartItem>, productId: int): (k: nat)
    ensures k <= |items|
    ensures forall j :: 0 <= j < k ==> items[j].product.id != productId
    ensures k < |items| ==> items[k].product.id == productId
  {
    if items == [] then 0
    else if items[0].product.id == productId then 0
    else 1 + IndexOfProduct(items[1..], productId)
  }

  /** Whether some line holds `productId` (the `find` of the add updater). */
  predicate HasProduct(items: seq<CartItem>, productId: int) {
    IndexOfProduct(items, productId) < |items|
  }

  // ---------------------------------------------------------------------
  // The updaters handed to setItems
  // ---------------------------------------------------------------------

  /** Every line for `productId` gets `quantity` more. */
  function Bumped(items: seq<CartItem>, productId: int, quantity: int): (r: seq<CartItem>)
    ensures |r| == |items| && forall i :: 0 <= i < |items| ==> r[i].product == items[i].product
  {
    seq(|items|, i requires 0 <= i < |items| =>
      if items[i].product.id == productId then items[i].(quantity := items[i].quantity + quantity)
      else items[i])
  }

  /** The add updater: merge into the existing line, or append a new one. */
  function AddedItem(items: seq<CartItem>, product: Product, quantity: int): (r: seq<CartItem>)
    ensures HasProduct(r, product.id)
    ensures |r| == if HasProduct(items, product.id) then |items| else |items| + 1
    ensures forall i :: 0 <= i < |items| ==> r[i].product == items[i].product
  {
    if HasProduct(items, product.id) then
      var r := Bumped(items, product.id, quantity);
      assert r[IndexOfProduct(items, product.id)].product.id == product.id;
      r
    else
      var r := items + [CartItem(product, quantity)];
      assert r[|items|].product.id == product.id;
      r
  }

  /** The remove updater: keep the lines of every other product, in order. */
  function WithoutProduct(items: seq<CartItem>, productId: int): (r: seq<CartItem>)
    ensures forall x :: x in r <==> x in items && x.product.id != productId
  {
    if items == [] then []
    else
      var rest := WithoutProduct(items[1..], productId);
      assert forall x :: x in items <==> x == items[0] || x in items[1..];
      if items[0].product.id == productId then rest else [items[0]] + rest
  }

  /** The quantity updater for a positive quantity: every line for
      `productId` gets exactly `quantity`. */
  function WithQuantity(items: seq<CartItem>, productId: int, quantity: int): (r: seq<CartItem>)
    ensures |r| == |items|
    ensures forall i :: 0 <= i < |items| ==> r[i].product == items[i].product
    ensures forall i :: 0 <= i < |items| && items[i].product.id == productId ==> r[i].quantity == quantity
    ensures forall i :: 0 <= i < |items| && items[i].product.id != productId ==> r[i] == items[i]
  {
    seq(|items|, i requires 0 <= i < |items| =>
      if items[i].product.id == productId then items[i].(quantity := quantity) else items[i])
  }

  /** What updateQuantity does to the lines: a quantity of zero or less removes. */
  function QuantityUpdated(items: seq<CartItem>, productId: int, quantity: int): (r: seq<CartItem>)
    ensures forall x :: x in r && x.product.id == productId ==> quantity > 0 && x.quantity == quantity
    ensures forall x :: x in items && x.product.id != productId ==> x in r
  {
    if quantity <= 0 then WithoutProduct(items, productId) else WithQuantity(items, productId, quantity)
  }

  // ---------------------------------------------------------------------
  // The derived totals
  // ---------------------------------------------------------------------

  /** The left fold `reduce((sum, item) => sum + f(item), 0)`. */
  function SumOver(items: seq<CartItem>, f: CartItem -> int): int {
    if items == [] then 0 else SumOver(items[..|items| - 1], f) + f(items[|items| - 1])
  }

  function LineCount(item: CartItem): int {
    item.quantity
  }

  function LineTotal(item: CartItem): int {
    item.product.price * item.quantity
  }

  function LineSavings(item: CartItem): int {
    (item.product.originalPrice - item.product.price) * item.quantity
  }

  /** itemCount: the number of units in the cart; with every quantity at
      least 1 there are at least as many units as lines. */
  function ItemCount(items: seq<CartItem>): (r: int)
    ensures (forall i :: 0 <= i < |items| ==> items[i].quantity >= 1) ==> r >= |items|
  {
    CountAtLeastLines(items);
    SumOver(items, LineCount)
  }

  /** total: what the cart costs at the prices stored on its lines; never
      negative when prices and quantities are not. */
  function Total(items: seq<CartItem>): (r: int)
    ensures (forall i :: 0 <= i < |items| ==> items[i].product.price >= 0 && items[i].quantity >= 0) ==> r >= 0
  {
    TotalBound(items);
    SumOver(items, LineTotal)
  }

  /** savings: the reference price minus the sale price, over all units;
      never negative when no sale price exceeds its reference price. */
  function Savings(items: seq<CartItem>): (r: int)
    ensures (forall i :: 0 <= i < |items| ==>
               items[i].product.originalPrice >= items[i].product.price && items[i].quantity >= 0)
            ==> r >= 0
  {
    SavingsBound(items);
    SumOver(items, LineSavings)
  }

  /** A fold of non-negative terms is non-negative. */
  lemma {:induction false} SumNonNegative(items: seq<CartItem>, f: CartItem -> int)
    requires forall i :: 0 <= i < |items| ==> f(items[i]) >= 0
    ensures SumOver(items, f) >= 0
    decreases |items|
  {
    if items != [] {
      var init := items[..|items| - 1];
      assert forall i :: 0 <= i < |init| ==> init[i] == items[i];
      SumNonNegative(init, f);
    }
  }

  lemma {:induction false} CountAtLeastLines(items: seq<CartItem>)
    ensures (forall i :: 0 <= i < |items| ==> items[i].quantity >= 1) ==> SumOver(items, LineCount) >= |items|
    decreases |items|
  {
    if items != [] {
      var init := items[..|items| - 1];
      assert forall i :: 0 <= i < |init| ==> init[i] == items[i];
      CountAtLeastLines(init);
    }
  }

  lemma {:induction false} TotalBound(items: seq<CartItem>)
    ensures (forall i :: 0 <= i < |items| ==> items[i].product.price >= 0 && items[i].quantity >= 0)
            ==> SumOver(items, LineTotal) >= 0
  {
    if forall i :: 0 <= i < |items| ==> items[i].product.price >= 0 && items[i].quantity >= 0 {
      forall i | 0 <= i < |items|
        ensures LineTotal(items[i]) >= 0
      {
        var it := items[i];
        assert it.product.price * it.quantity >= 0;
      }
      SumNonNegative(items, LineTotal);
    }
  }

  lemma {:induction false} SavingsBound(items: seq<CartItem>)
    ensures (forall i :: 0 <= i < |items| ==>
               items[i].product.originalPrice >= items[i].product.price && items[i].quantity >= 0)
            ==> SumOver(items, LineSavings) >= 0
  {
    if forall i :: 0 <= i < |items| ==>
         items[i].product.originalPrice >= items[i].product.price && items[i].quantity >= 0 {
      forall i | 0 <= i < |items|
        ensures LineSavings(items[i]) >= 0
      {
        var it := items[i];
        assert (it.product.originalPrice - it.product.price) * it.quantity >= 0;
      }
      SumNonNegative(items, LineSavings);
    }
  }

  lemma {:induction false} SumAppend(a: seq<CartItem>, b: seq<CartItem>, f: CartItem -> int)
    ensures SumOver(a + b, f) == SumOver(a, f) + SumOver(b, f)
    decreases |b|
  {
    if b != [] {
      var n := |b|;
      assert (a + b)[..|a + b| - 1] == a + b[..n - 1];
      assert (a + b)[|a + b| - 1] == b[n - 1];
      SumAppend(a, b[..n - 1], f);
    } else {
      assert a + b == a;
    }
  }

  /** A fold over one line is that line's term. */
  lemma SumSingleton(x: CartItem, f: CartItem -> int)
    ensures SumOver([x], f) == f(x)
  {
    assert [x][..0] == [];
  }

  /** Replacing one line changes a fold by the difference of that line's terms. */
  lemma {:induction false} SumReplace(items: seq<CartItem>, k: nat, x: CartItem, f: CartItem -> int)
    requires k < |items|
    ensures SumOver(items[k := x], f) == SumOver(items, f) - f(items[k]) + f(x)
  {
    var pre, post := items[..k], items[k + 1..];
    assert items == pre + [items[k]] + post;
    assert items[k := x] == pre + [x] + post;
    SumAppend(pre + [items[k]], post, f);
    SumAppend(pre + [x], post, f);
    SumAppend(pre, [items[k]], f);
    SumAppend(pre, [x], f);
    SumSingleton(items[k], f);
    SumSingleton(x, f);
  }

  /** Dropping one line takes that line's term out of a fold. */
  lemma {:induction false} SumDrop(items: seq<CartItem>, k: nat, f: CartItem -> int)
    requires k < |items|
    ensures SumOver(items[..k] + items[k + 1..], f) == SumOver(items, f) - f(items[k])
  {
    var pre, x, post := items[..k], items[k], items[k + 1..];
    calc {
      SumOver(items, f);
    == { assert items == (pre + [x]) + post; }
      SumOver((pre + [x]) + post, f);
    == { SumAppend(pre + [x], post, f); }
      SumOver(pre + [x], f) + SumOver(post, f);
    == { SumAppend(pre, [x], f); SumSingleton(x, f); }
      SumOver(pre, f) + f(x) + SumOver(post, f);
    == { SumAppend(pre, post, f); }
      SumOver(pre + post, f) + f(x);
    }
  }

  // ---------------------------------------------------------------------
  // What each operation does to the lines
  // ---------------------------------------------------------------------

  /** Adding a product already in the cart raises that line's quantity and
      leaves the length, the order and every other line as they were. */
  lemma {:induction false} AddMerges(items: seq<CartItem>, product: Product, quantity: int, k: nat)
    requires UniqueProducts(items) && k == IndexOfProduct(items, product.id) && k < |items|
    ensures AddedItem(items, product, quantity) == items[k := items[k].(quantity := items[k].quantity + quantity)]
  {
    var r := Bumped(items, product.id, quantity);
    var expected := items[k := items[k].(quantity := items[k].quantity + quantity)];
    forall j | 0 <= j < |items|
      ensures r[j] == expected[j]
    {
      if j > k {
        assert items[k].product.id != items[j].product.id;
      }
    }
    assert r == expected;
  }

  /** Adding a product not in the cart appends a new line at the end. */
  lemma AddAppends(items: seq<CartItem>, product: Product, quantity: int)
    requires !HasProduct(items, product.id)
    ensures AddedItem(items, product, quantity) == items + [CartItem(product, quantity)]
  {
  }

  /** Adding keeps every product on at most one line. */
  lemma {:induction false} AddKeepsUnique(items: seq<CartItem>, product: Product, quantity: int)
    requires UniqueProducts(items)
    ensures UniqueProducts(AddedItem(items, product, quantity))
  {
    if !HasProduct(items, product.id) {
      var r := AddedItem(items, product, quantity);
      forall i, j | 0 <= i < j < |r|
        ensures r[i].product.id != r[j].product.id
      {
        if j == |items| {
          assert !(IndexOfProduct(items, product.id) < |items|);
          assert forall m :: 0 <= m < |items| ==> items[m].product.id != product.id;
        }
      }
    }
  }

  /** Removing a product that has a line cuts out exactly that line; removing
      one that has none changes nothing. */
  lemma {:induction false} RemoveSplices(items: seq<CartItem>, productId: int)
    requires UniqueProducts(items)
    ensures var k := IndexOfProduct(items, productId);
      WithoutProduct(items, productId) == if k < |items| then items[..k] + items[k + 1..] else items
  {
    if items != [] {
      var tail := items[1..];
      TailKeepsUnique(items);
      if items[0].product.id == productId {
        RemoveAtHead(items, productId);
      } else {
        RemoveSplices(tail, productId);
        var kt := IndexOfProduct(tail, productId);
        assert IndexOfProduct(items, productId) == 1 + kt;
        assert WithoutProduct(items, productId) == [items[0]] + WithoutProduct(tail, productId);
        if kt < |tail| {
          ConsSplice(items, kt);
        } else {
          assert items == [items[0]] + tail;
        }
      }
    }
  }

  /** Cutting line `kt + 1` out of a cart is cutting line `kt` out of its tail. */
  lemma {:induction false} ConsSplice(items: seq<CartItem>, kt: nat)
    requires kt + 1 < |items|
    ensures items[..kt + 1] + items[kt + 2..] == [items[0]] + (items[1..][..kt] + items[1..][kt + 1..])
  {
    assert items[..kt + 1] == [items[0]] + items[1..][..kt];
    assert items[kt + 2..] == items[1..][kt + 1..];
  }

  /** Dropping the first line keeps the products unique. */
  lemma {:induction false} TailKeepsUnique(items: seq<CartItem>)
    requires UniqueProducts(items) && items != []
    ensures UniqueProducts(items[1..])
  {
    var tail := items[1..];
    forall i, j | 0 <= i < j < |tail|
      ensures tail[i].product.id != tail[j].product.id
    {
      assert tail[i] == items[i + 1] && tail[j] == items[j + 1];
    }
  }

  /** Removing the product of the first line leaves exactly the other lines. */
  lemma {:induction false} RemoveAtHead(items: seq<CartItem>, productId: int)
    requires UniqueProducts(items) && items != [] && items[0].product.id == productId
    ensures WithoutProduct(items, productId) == items[..0] + items[1..]
  {
    var tail := items[1..];
    forall m | 0 <= m < |tail|
      ensures tail[m].product.id != productId
    {
      assert tail[m] == items[m + 1];
    }
    NoLineNoChange(tail, productId);
    assert items[..0] + items[1..] == tail;
  }

  /** Removing a product that has no line changes nothing. */
  lemma {:induction false} NoLineNoChange(items: seq<CartItem>, productId: int)
    requires forall m :: 0 <= m < |items| ==> items[m].product.id != productId
    ensures WithoutProduct(items, productId) == items
  {
    if items != [] {
      NoLineNoChange(items[1..], productId);
    }
  }

  /** Cutting one line out keeps every product on at most one line. */
  lemma {:induction false} CutKeepsUnique(items: seq<CartItem>, k: nat)
    requires UniqueProducts(items) && k < |items|
    ensures UniqueProducts(items[..k] + items[k + 1..])
  {
    var r := items[..k] + items[k + 1..];
    forall i, j | 0 <= i < j < |r|
      ensures r[i].product.id != r[j].product.id
    {
      var i' := if i < k then i else i + 1;
      var j' := if j < k then j else j + 1;
      assert r[i] == items[i'] && r[j] == items[j'];
    }
  }

  /** Removing keeps every product on at most one line, and leaves none for
      the removed product. */
  lemma {:induction false} RemoveKeepsUnique(items: seq<CartItem>, productId: int)
    requires UniqueProducts(items)
    ensures UniqueProducts(WithoutProduct(items, productId))
    ensures var r := WithoutProduct(items, productId);
      forall m :: 0 <= m < |r| ==> r[m].product.id != productId
  {
    var r := WithoutProduct(items, productId);
    assert UniqueProducts(r) by {
      RemoveSplices(items, productId);
      var k := IndexOfProduct(items, productId);
      if k < |items| {
        CutKeepsUnique(items, k);
      }
    }
    forall m | 0 <= m < |r|
      ensures r[m].product.id != productId
    {
      assert r[m] in r;
    }
  }

  /** A positive quantity replaces the quantity of that product's line and
      nothing else; for a product with no line nothing changes. */
  lemma SetQuantitySetsOneLine(items: seq<CartItem>, productId: int, quantity: int)
    requires UniqueProducts(items) && quantity > 0
    ensures var k := IndexOfProduct(items, productId);
      QuantityUpdated(items, productId, quantity)
        == if k < |items| then items[k := items[k].(quantity := quantity)] else items
  {
  }

  /** A quantity of zero or less is the same as removing the product. */
  lemma NonPositiveQuantityRemoves(items: seq<CartItem>, productId: int, quantity: int)
    requires quantity <= 0
    ensures QuantityUpdated(items, productId, quantity) == WithoutProduct(items, productId)
  {
  }

  /** Updating a quantity keeps every product on at most one line. */
  lemma {:induction false} UpdateKeepsUnique(items: seq<CartItem>, productId: int, quantity: int)
    requires UniqueProducts(items)
    ensures UniqueProducts(QuantityUpdated(items, productId, quantity))
  {
    if quantity <= 0 {
      RemoveKeepsUnique(items, productId);
    }
  }

  // ---------------------------------------------------------------------
  // What each operation does to the totals
  // ---------------------------------------------------------------------

  /** An empty cart counts, costs and saves nothing. */
  lemma EmptyCartTotals()
    ensures ItemCount([]) == 0 && Total([]) == 0 && Savings([]) == 0
  {
  }

  /** Merging into line `k` replaces that line's term in any fold. */
  lemma {:induction false} MergedSum(items: seq<CartItem>, product: Product, quantity: int, k: nat, f: CartItem -> int)
    requires UniqueProducts(items) && k == IndexOfProduct(items, product.id) && k < |items|
    ensures SumOver(AddedItem(items, product, quantity), f)
      == SumOver(items, f) - f(items[k]) + f(items[k].(quantity := items[k].quantity + quantity))
  {
    var x := items[k].(quantity := items[k].quantity + quantity);
    AddMerges(items, product, quantity, k);
    SumReplace(items, k, x, f);
  }

  /** Appending a new line adds its term to any fold. */
  lemma {:induction false} AppendedSum(items: seq<CartItem>, product: Product, quantity: int, f: CartItem -> int)
    requires !HasProduct(items, product.id)
    ensures SumOver(AddedItem(items, product, quantity), f) == SumOver(items, f) + f(CartItem(product, quantity))
  {
    var x := CartItem(product, quantity);
    SumAppend(items, [x], f);
    SumSingleton(x, f);
  }

  /** Raising a line's quantity by `q` raises its terms by those of `q` units. */
  lemma BumpedLineTerms(item: CartItem, q: int)
    ensures LineTotal(item.(quantity := item.quantity + q)) == LineTotal(item) + LineTotal(item.(quantity := q))
    ensures LineSavings(item.(quantity := item.quantity + q)) == LineSavings(item) + LineSavings(item.(quantity := q))
  {
    var p := item.product;
    assert p.price * (item.quantity + q) == p.price * item.quantity + p.price * q;
    assert (p.originalPrice - p.price) * (item.quantity + q)
      == (p.originalPrice - p.price) * item.quantity + (p.originalPrice - p.price) * q;
  }

  /** For a term that is additive in the quantity, merging `quantity` units
      into line `k` adds the term of `quantity` units of that line. */
  lemma {:induction false} MergedAdditiveSum(items: seq<CartItem>, product: Product, quantity: int, k: nat, f: CartItem -> int)
    requires UniqueProducts(items) && k == IndexOfProduct(items, product.id) && k < |items|
    requires f(items[k].(quantity := items[k].quantity + quantity)) == f(items[k]) + f(items[k].(quantity := quantity))
    ensures SumOver(AddedItem(items, product, quantity), f) == SumOver(items, f) + f(items[k].(quantity := quantity))
  {
    MergedSum(items, product, quantity, k, f);
  }

  /** Merging `quantity` units into line `k` raises the total by those units at the line's price. */
  lemma {:induction false} MergedTotal(items: seq<CartItem>, product: Product, quantity: int, k: nat)
    requires UniqueProducts(items) && k == IndexOfProduct(items, product.id) && k < |items|
    ensures Total(AddedItem(items, product, quantity)) == Total(items) + LineTotal(CartItem(items[k].product, quantity))
  {
    BumpedLineTerms(items[k], quantity);
    MergedAdditiveSum(items, product, quantity, k, LineTotal);
    assert items[k].(quantity := quantity) == CartItem(items[k].product, quantity);
  }

  /** Merging `quantity` units into line `k` raises the savings by those units at the line's prices. */
  lemma {:induction false} MergedSavings(items: seq<CartItem>, product: Product, quantity: int, k: nat)
    requires UniqueProducts(items) && k == IndexOfProduct(items, product.id) && k < |items|
    ensures Savings(AddedItem(items, product, quantity)) == Savings(items) + LineSavings(CartItem(items[k].product, quantity))
  {
    BumpedLineTerms(items[k], quantity);
    MergedAdditiveSum(items, product, quantity, k, LineSavings);
    assert items[k].(quantity := quantity) == CartItem(items[k].product, quantity);
  }

  /** Adding `quantity` units of a product already in the cart raises the
      count by `quantity`, and the total and savings by that many units of
      the product stored on its line (not of the product passed in). */
  lemma {:induction false} AddToLineTotals(items: seq<CartItem>, product: Product, quantity: int, k: nat)
    requires UniqueProducts(items) && k == IndexOfProduct(items, product.id) && k < |items|
    ensures ItemCount(AddedItem(items, product, quantity)) == ItemCount(items) + quantity
    ensures Total(AddedItem(items, product, quantity)) == Total(items) + LineTotal(CartItem(items[k].product, quantity))
    ensures Savings(AddedItem(items, product, quantity)) == Savings(items) + LineSavings(CartItem(items[k].product, quantity))
  {
    MergedSum(items, product, quantity, k, LineCount);
    MergedTotal(items, product, quantity, k);
    MergedSavings(items, product, quantity, k);
  }

  /** Adding a product not in the cart raises the count by `quantity`, and
      the total and savings by that many units of the product. */
  lemma {:induction false} AddNewLineTotals(items: seq<CartItem>, product: Product, quantity: int)
    requires !HasProduct(items, product.id)
    ensures ItemCount(AddedItem(items, product, quantity)) == ItemCount(items) + quantity
    ensures Total(AddedItem(items, product, quantity)) == Total(items) + LineTotal(CartItem(product, quantity))
    ensures Savings(AddedItem(items, product, quantity)) == Savings(items) + LineSavings(CartItem(product, quantity))
  {
    var r := AddedItem(items, product, quantity);
    assert ItemCount(r) == ItemCount(items) + quantity by {
      AppendedSum(items, product, quantity, LineCount);
    }
    assert Total(r) == Total(items) + LineTotal(CartItem(product, quantity)) by {
      AppendedSum(items, product, quantity, LineTotal);
    }
    assert Savings(r) == Savings(items) + LineSavings(CartItem(product, quantity)) by {
      AppendedSum(items, product, quantity, LineSavings);
    }
  }

  /** Removing a product takes its whole line out of every total. */
  lemma {:induction false} RemoveTotals(items: seq<CartItem>, productId: int)
    requires UniqueProducts(items) && HasProduct(items, productId)
    ensures var k := IndexOfProduct(items, productId);
      var r := WithoutProduct(items, productId);
      && ItemCount(r) == ItemCount(items) - items[k].quantity
      && Total(r) == Total(items) - items[k].product.price * items[k].quantity
      && Savings(r) == Savings(items) - LineSavings(items[k])
  {
    var k := IndexOfProduct(items, productId);
    RemoveSplices(items, productId);
    SumDrop(items, k, LineCount);
    SumDrop(items, k, LineTotal);
    SumDrop(items, k, LineSavings);
  }

  /** Setting a positive quantity swaps the old line's share of every total for the new one's. */
  lemma {:induction false} UpdateTotals(items: seq<CartItem>, productId: int, quantity: int, k: nat)
    requires UniqueProducts(items) && quantity > 0
    requires k == IndexOfProduct(items, productId) && k < |items|
    ensures ItemCount(QuantityUpdated(items, productId, quantity)) == ItemCount(items) - items[k].quantity + quantity
    ensures Total(QuantityUpdated(items, productId, quantity))
      == Total(items) - LineTotal(items[k]) + LineTotal(items[k].(quantity := quantity))
    ensures Savings(QuantityUpdated(items, productId, quantity))
      == Savings(items) - LineSavings(items[k]) + LineSavings(items[k].(quantity := quantity))
  {
    SetQuantitySetsOneLine(items, productId, quantity);
    var x := items[k].(quantity := quantity);
    assert QuantityUpdated(items, productId, quantity) == items[k := x];
    SumReplace(items, k, x, LineCount);
    SumReplace(items, k, x, LineTotal);
    SumReplace(items, k, x, LineSavings);
  }

  // ---------------------------------------------------------------------
  // The provider's state
  // ---------------------------------------------------------------------

  class CartProvider {
    /** The cart lines, in the order they were first added. */
    var items: seq<CartItem>

    ghost predicate Valid()
      reads this
    {
      UniqueProducts(items)
    }

    /** An empty cart. */
    constructor ()
      ensures Valid() && items == []
    {
      items := [];
    }

    /** Puts `quantity` units of `product` in the cart (one by default). */
    method AddItem(product: Product, quantity: int := 1)
      requires Valid()
      modifies this
      ensures Valid()
      ensures items == AddedItem(old(items), product, quantity)
    {
      AddKeepsUnique(items, product, quantity);
      items := AddedItem(items, product, quantity);
    }

    /** Drops the line of `productId`, if any. */
    method RemoveItem(productId: int)
      requires Valid()
      modifies this
      ensures Valid()
      ensures items == WithoutProduct(old(items), productId)
    {
      RemoveKeepsUnique(items, productId);
      items := WithoutProduct(items, productId);
    }

    /** Sets the quantity of `productId`'s line; zero or less removes it. */
    method UpdateQuantity(productId: int, quantity: int)
      requires Valid()
      modifies this
      ensures Valid()
      ensures items == QuantityUpdated(old(items), productId, quantity)
    {
      if quantity <= 0 {
        RemoveItem(productId);
        return;
      }
      UpdateKeepsUnique(items, productId, quantity);
      items := WithQuantity(items, productId, quantity);
    }

    /** Empties the cart. */
    method ClearCart()
      requires Valid()
      modifies this
      ensures Valid()
      ensures items == [] && ItemCount(items) == 0 && Total(items) == 0 && Savings(items) == 0
    {
      items := [];
    }
  }
}

/**
 * The shopping cart: lines keyed by (product, variant), merged on re-adding, removed
 * when their quantity is set to zero or below.
 */
module Cart {
  import opened Wrappers
  import opened Seqs
  import Business

  datatype CartItem = CartItem(
    id: string,
    productId: string,
    productTitle: string,
    productImage: string,
    price: real,
    currency: string,
    quantity: int,
    variant: Option<string>,
    store: Business.Store)

  /** What `addItem` receives: a cart item without id and quantity. */
  datatype CartProduct = CartProduct(
    productId: string,
    productTitle: string,
    productImage: string,
    price: real,
    currency: string,
    variant: Option<string>,
    store: Business.Store)

  /** The line a product goes to: same product id and same variant (both absent counts as same). */
  predicate SameLine(i: CartItem, item: CartProduct)
  {
    i.productId == item.productId && i.variant == item.variant
  }

  /** No two lines share a product and variant. */
  ghost predicate LinesUnique(items: seq<CartItem>)
  {
    forall i, j :: 0 <= i < j < |items| ==>
      !(items[i].productId == items[j].productId && items[i].variant == items[j].variant)
  }

  /** No two lines share an id. */
  ghost predicate IdsUnique(items: seq<CartItem>)
  {
    forall i, j :: 0 <= i < j < |items| ==> items[i].id != items[j].id
  }

  function Quantity(i: CartItem): int { i.quantity }
  function LineAmount(i: CartItem): real { i.price * i.quantity as real }

  /** `getTotalItems`: the sum of the quantities. */
  function TotalItems(items: seq<CartItem>): (n: int)
    ensures items == [] ==> n == 0
    ensures (forall k :: 0 <= k < |items| ==> items[k].quantity >= 0) ==> n >= 0
  {
    SumIntNonNegative(items, Quantity);
    SumInt(items, Quantity)
  }

  /** `getTotalPrice`: the sum of price times quantity. */
  function TotalPrice(items: seq<CartItem>): (total: real)
    ensures items == [] ==> total == 0.0
  {
    SumReal(items, LineAmount)
  }

  /** With no negative price and no negative quantity, the cart never costs less than nothing. */
  lemma TotalPriceNonNegative(items: seq<CartItem>)
    requires forall k :: 0 <= k < |items| ==> items[k].price >= 0.0 && items[k].quantity >= 0
    ensures TotalPrice(items) >= 0.0
  {
    forall k | 0 <= k < |items|
      ensures LineAmount(items[k]) >= 0.0
    {
      assert items[k].price >= 0.0 && items[k].quantity as real >= 0.0;
    }
    SumRealNonNegative(items, LineAmount);
  }

  /** The existing line for a product, if any. */
  function ExistingLine(items: seq<CartItem>, item: CartProduct): (r: Option<CartItem>)
    ensures r.None? <==> forall k :: 0 <= k < |items| ==> !SameLine(items[k], item)
    ensures r.Some? ==> exists k :: 0 <= k < |items| && items[k] == r.value && SameLine(r.value, item)
  {
    Find(items, (i: CartItem) => SameLine(i, item))
  }

  /** Every line with the id gets `quantity` more. */
  function BumpQuantity(items: seq<CartItem>, itemId: string, quantity: int): (r: seq<CartItem>)
    ensures |r| == |items|
    ensures forall k :: 0 <= k < |items| && items[k].id != itemId ==> r[k] == items[k]
    ensures forall k :: 0 <= k < |items| && items[k].id == itemId ==>
              r[k] == items[k].(quantity := items[k].quantity + quantity)
  {
    seq(|items|, k requires 0 <= k < |items| =>
      if items[k].id == itemId then items[k].(quantity := items[k].quantity + quantity) else items[k])
  }

  /**
   * `addItem`: with a line for the same product and variant, that line (by its id) grows
   * by `quantity`; otherwise a new line with id `newId` is appended.
   */
  function WithItemAdded(items: seq<CartItem>, item: CartProduct, quantity: int, newId: string): (r: seq<CartItem>)
    ensures ExistingLine(items, item).Some? ==>
              r == BumpQuantity(items, ExistingLine(items, item).value.id, quantity)
    ensures ExistingLine(items, item).None? ==>
              r == items + [CartItem(newId, item.productId, item.productTitle, item.productImage,
                                     item.price, item.currency, quantity, item.variant, item.store)]
  {
    match ExistingLine(items, item)
    case Some(existingItem) => BumpQuantity(items, existingItem.id, quantity)
    case None =>
      items + [CartItem(newId, item.productId, item.productTitle, item.productImage,
                        item.price, item.currency, quantity, item.variant, item.store)]
  }

  /** Merging keeps the number of lines; a new product adds exactly one. */
  lemma AddItemLength(items: seq<CartItem>, item: CartProduct, quantity: int, newId: string)
    ensures ExistingLine(items, item).Some? ==> |WithItemAdded(items, item, quantity, newId)| == |items|
    ensures ExistingLine(items, item).None? ==> |WithItemAdded(items, item, quantity, newId)| == |items| + 1
  {
  }

  /** Adding never creates a second line for the same product and variant. */
  lemma AddItemKeepsLinesUnique(items: seq<CartItem>, item: CartProduct, quantity: int, newId: string)
    requires LinesUnique(items)
    ensures LinesUnique(WithItemAdded(items, item, quantity, newId))
  {
    var r := WithItemAdded(items, item, quantity, newId);
    if ExistingLine(items, item).None? {
      forall i, j | 0 <= i < j < |r|
        ensures !(r[i].productId == r[j].productId && r[i].variant == r[j].variant)
      {
        if j == |items| {
          assert !SameLine(items[i], item);
        }
      }
    }
  }

  /** With distinct ids and a fresh id for new lines, ids stay distinct. */
  lemma AddItemKeepsIdsUnique(items: seq<CartItem>, item: CartProduct, quantity: int, newId: string)
    requires IdsUnique(items)
    requires forall k :: 0 <= k < |items| ==> items[k].id != newId
    ensures IdsUnique(WithItemAdded(items, item, quantity, newId))
  {
  }

  /** With distinct ids, adding raises the item count by exactly `quantity`, in both branches. */
  lemma AddItemTotal(items: seq<CartItem>, item: CartProduct, quantity: int, newId: string)
    requires IdsUnique(items)
    ensures TotalItems(WithItemAdded(items, item, quantity, newId)) == TotalItems(items) + quantity
  {
    var r := WithItemAdded(items, item, quantity, newId);
    match ExistingLine(items, item)
    case None =>
      SumIntSnoc(items, r[|items|], Quantity);
      assert r == items + [r[|items|]];
    case Some(e) =>
      var j :| 0 <= j < |items| && items[j] == e && SameLine(e, item);
      forall k | 0 <= k < |items| && k != j
        ensures Quantity(items[k]) == Quantity(r[k])
      {
        if k < j { assert items[k].id != items[j].id; } else if k > j { assert items[j].id != items[k].id; }
      }
      SumIntChangeAt(items, r, j, Quantity);
  }

  /**
   * The price total rises by the quantity times the unit price of the line that takes it:
   * the existing line's price on a merge, the product's price on a new line.
   */
  lemma AddItemPrice(items: seq<CartItem>, item: CartProduct, quantity: int, newId: string)
    requires IdsUnique(items)
    ensures ExistingLine(items, item).None? ==>
              TotalPrice(WithItemAdded(items, item, quantity, newId)) == TotalPrice(items) + item.price * quantity as real
    ensures ExistingLine(items, item).Some? ==>
              TotalPrice(WithItemAdded(items, item, quantity, newId))
                == TotalPrice(items) + ExistingLine(items, item).value.price * quantity as real
  {
    var r := WithItemAdded(items, item, quantity, newId);
    match ExistingLine(items, item)
    case None =>
      var line := CartItem(newId, item.productId, item.productTitle, item.productImage,
                           item.price, item.currency, quantity, item.variant, item.store);
      assert r == items + [line];
      SumRealSnoc(items, line, LineAmount);
    case Some(e) =>
      BumpPrice(items, e, quantity);
  }

  /** Bumping a line by its id adds its price times the quantity to the total. */
  lemma BumpPrice(items: seq<CartItem>, e: CartItem, quantity: int)
    requires IdsUnique(items) && e in items
    ensures TotalPrice(BumpQuantity(items, e.id, quantity)) == TotalPrice(items) + e.price * quantity as real
  {
    var j :| 0 <= j < |items| && items[j] == e;
    var r := BumpQuantity(items, e.id, quantity);
    forall k | 0 <= k < |items| && k != j
      ensures LineAmount(items[k]) == LineAmount(r[k])
    {
      if k < j { assert items[k].id != items[j].id; } else { assert items[j].id != items[k].id; }
    }
    SumRealChangeAt(items, r, j, LineAmount);
    LineAmountOfBump(items[j], quantity);
  }

  /** Adding to a line's quantity adds that many times its price to its amount. */
  lemma LineAmountOfBump(e: CartItem, quantity: int)
    ensures LineAmount(e.(quantity := e.quantity + quantity)) == LineAmount(e) + e.price * quantity as real
  {
    assert (e.quantity + quantity) as real == e.quantity as real + quantity as real;
  }

  /** `removeItem`: the lines without the id, in their order. */
  function WithoutItem(items: seq<CartItem>, itemId: string): (r: seq<CartItem>)
    ensures forall x :: x in r <==> x in items && x.id != itemId
    ensures forall x :: multiset(r)[x] == if x.id != itemId then multiset(items)[x] else 0
    ensures IsSubsequence(r, items)
  {
    Filter(items, (i: CartItem) => i.id != itemId)
  }

  /**
   * `updateQuantity`: a quantity of zero or below removes the line; otherwise every line
   * with the id gets that quantity and nothing else changes.
   */
  function WithQuantity(items: seq<CartItem>, itemId: string, quantity: int): (r: seq<CartItem>)
    ensures quantity <= 0 ==> r == WithoutItem(items, itemId)
    ensures quantity > 0 ==> |r| == |items|
    ensures quantity > 0 ==> forall k :: 0 <= k < |items| ==>
              r[k] == if items[k].id == itemId then items[k].(quantity := quantity) else items[k]
  {
    if quantity <= 0 then WithoutItem(items, itemId)
    else
      seq(|items|, k requires 0 <= k < |items| =>
        if items[k].id == itemId then items[k].(quantity := quantity) else items[k])
  }

  /** Quantity updates and removals never merge or duplicate lines. */
  lemma UpdateKeepsLinesUnique(items: seq<CartItem>, itemId: string, quantity: int)
    requires LinesUnique(items)
    ensures LinesUnique(WithQuantity(items, itemId, quantity))
  {
    if quantity <= 0 {
      SubsequenceKeepsLinesUnique(WithoutItem(items, itemId), items);
    }
  }

  lemma {:induction false} SubsequenceKeepsLinesUnique(xs: seq<CartItem>, ys: seq<CartItem>)
    requires IsSubsequence(xs, ys) && LinesUnique(ys)
    ensures LinesUnique(xs)
    decreases |ys|
  {
    if xs != [] && ys != [] {
      if xs[0] == ys[0] && IsSubsequence(xs[1..], ys[1..]) {
        SubsequenceKeepsLinesUnique(xs[1..], ys[1..]);
        forall j | 0 < j < |xs|
          ensures !(xs[0].productId == xs[j].productId && xs[0].variant == xs[j].variant)
        {
          assert xs[j] == xs[1..][j - 1];
          SubsequenceMember(xs[1..], ys[1..], j - 1);
          var m :| 0 <= m < |ys[1..]| && ys[1..][m] == xs[j];
          assert ys[m + 1] == xs[j];
        }
        forall i, j | 0 <= i < j < |xs|
          ensures !(xs[i].productId == xs[j].productId && xs[i].variant == xs[j].variant)
        {
          if i > 0 { assert xs[i] == xs[1..][i - 1] && xs[j] == xs[1..][j - 1]; }
        }
      } else {
        SubsequenceKeepsLinesUnique(xs, ys[1..]);
      }
    }
  }

  lemma {:induction false} SubsequenceMember(xs: seq<CartItem>, ys: seq<CartItem>, i: nat)
    requires IsSubsequence(xs, ys) && i < |xs|
    ensures exists m :: 0 <= m < |ys| && ys[m] == xs[i]
    decreases |ys|
  {
    assert ys != [];
    if xs[0] == ys[0] && IsSubsequence(xs[1..], ys[1..]) {
      if i == 0 {
        assert ys[0] == xs[0];
      } else {
        SubsequenceMember(xs[1..], ys[1..], i - 1);
        var m :| 0 <= m < |ys[1..]| && ys[1..][m] == xs[1..][i - 1];
        assert ys[m + 1] == xs[i];
      }
    } else {
      SubsequenceMember(xs, ys[1..], i);
      var m :| 0 <= m < |ys[1..]| && ys[1..][m] == xs[i];
      assert ys[m + 1] == xs[i];
    }
  }

  /** The cart; `clearCart` empties it, so both totals are 0. */
  class ShoppingCart {
    var items: seq<CartItem>

    constructor(stored: seq<CartItem>)
      ensures items == stored
    {
      items := stored;
    }

    /** `addItem(item, quantity = 1)`; `newId` stands for the clock-and-random line id. */
    method AddItem(item: CartProduct, newId: string, quantity: int := 1)
      modifies this
      ensures items == WithItemAdded(old(items), item, quantity, newId)
    {
      items := WithItemAdded(items, item, quantity, newId);
    }

    method UpdateQuantity(itemId: string, quantity: int)
      modifies this
      ensures items == WithQuantity(old(items), itemId, quantity)
    {
      if quantity <= 0 {
        RemoveItem(itemId);
        return;
      }
      items := WithQuantity(items, itemId, quantity);
    }

    method RemoveItem(itemId: string)
      modifies this
      ensures items == WithoutItem(old(items), itemId)
    {
      items := WithoutItem(items, itemId);
    }

    method ClearCart()
      modifies this
      ensures items == [] && TotalItems(items) == 0 && TotalPrice(items) == 0.0
    {
      items := [];
    }

    function GetTotalItems(): (n: int)
      reads this
      ensures n == TotalItems(items)
    {
      TotalItems(items)
    }

    function GetTotalPrice(): (total: real)
      reads this
      ensures total == TotalPrice(items)
    {
      TotalPrice(items)
    }
  }
}

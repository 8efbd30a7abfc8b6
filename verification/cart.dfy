/** The shopping cart: an ordered list of lines, each a copy of a product with a quantity. */
module Cart {
  import opened Wrappers
  import opened Sequences
  import opened Catalog

  /** One cart line: the product as it was copied into the cart, and how many of it. */
  datatype CartLine = CartLine(item: Product, quantity: int)

  /** Lines in the order their products were first added. */
  type Cart = seq<CartLine>

  datatype CartError = ProductNotFound(id: int)

  /** The product ids of the lines, in cart order. */
  ghost function Ids(cart: Cart): seq<int> {
    seq(|cart|, i requires 0 <= i < |cart| => cart[i].item.id)
  }

  /** The cart holds a line for `id`. */
  ghost predicate HasLine(cart: Cart, id: int) {
    exists i :: 0 <= i < |cart| && cart[i].item.id == id
  }

  /** At most one line per product id. */
  ghost predicate DistinctLines(cart: Cart) {
    forall i, j :: 0 <= i < j < |cart| ==> cart[i].item.id != cart[j].item.id
  }

  /** Every line holds at least one unit. */
  ghost predicate PositiveQuantities(cart: Cart) {
    forall i :: 0 <= i < |cart| ==> cart[i].quantity >= 1
  }

  /** The invariant every cart operation keeps. */
  ghost predicate Valid(cart: Cart) {
    DistinctLines(cart) && PositiveQuantities(cart)
  }

  // ---------------------------------------------------------------------------
  // Sums over the lines

  function LineQuantity(l: CartLine): int {
    l.quantity
  }

  /** What one line costs, in cents. */
  function LineCost(l: CartLine): int {
    l.item.price * l.quantity
  }

  /** Reference definition: the sum of `w` over the lines. */
  function LineSum(cart: Cart, w: CartLine -> int): int {
    if |cart| == 0 then 0 else w(cart[0]) + LineSum(cart[1..], w)
  }

  /** The number of units in the cart. */
  ghost function TotalQuantity(cart: Cart): int {
    LineSum(cart, LineQuantity)
  }

  /** The price of the cart's contents, in cents. */
  ghost function TotalCost(cart: Cart): int {
    LineSum(cart, LineCost)
  }

  /** `Array.prototype.reduce` with an integer accumulator: a left fold of `w` starting at `acc`. */
  function Reduce(cart: Cart, w: CartLine -> int, acc: int): (r: int)
    ensures r == acc + LineSum(cart, w)
  {
    if |cart| == 0 then acc else Reduce(cart[1..], w, acc + w(cart[0]))
  }

  /** The badge count: the quantities folded from 0. */
  function Count(cart: Cart): (r: int)
    ensures r == TotalQuantity(cart)
    ensures |cart| == 0 ==> r == 0
  {
    Reduce(cart, LineQuantity, 0)
  }

  lemma {:induction false} LineSumConcat(a: Cart, b: Cart, w: CartLine -> int)
    ensures LineSum(a + b, w) == LineSum(a, w) + LineSum(b, w)
  {
    if |a| == 0 {
      assert a + b == b;
    } else {
      assert (a + b)[1..] == a[1..] + b;
      LineSumConcat(a[1..], b, w);
    }
  }

  /** Replacing one line changes the sum by the difference of the two lines' weights. */
  lemma LineSumUpdate(cart: Cart, k: nat, l: CartLine, w: CartLine -> int)
    requires k < |cart|
    ensures LineSum(cart[k := l], w) == LineSum(cart, w) - w(cart[k]) + w(l)
  {
    var c := cart[k := l];
    assert cart == cart[..k] + cart[k..];
    assert c == cart[..k] + c[k..];
    assert cart[k..][1..] == c[k..][1..];
    LineSumConcat(cart[..k], cart[k..], w);
    LineSumConcat(cart[..k], c[k..], w);
  }

  /** Deleting one line takes its weight out of the sum. */
  lemma LineSumDelete(cart: Cart, k: nat, w: CartLine -> int)
    requires k < |cart|
    ensures LineSum(cart[..k] + cart[k + 1..], w) == LineSum(cart, w) - w(cart[k])
  {
    assert cart == cart[..k] + cart[k..];
    assert cart[k..][1..] == cart[k + 1..];
    LineSumConcat(cart[..k], cart[k..], w);
    LineSumConcat(cart[..k], cart[k + 1..], w);
  }

  /** In a valid cart the count is at least the number of lines, so it is 0 exactly when the cart is empty. */
  lemma {:induction false} CountBoundsLines(cart: Cart)
    requires Valid(cart)
    ensures Count(cart) >= |cart|
    ensures Count(cart) == 0 <==> |cart| == 0
  {
    if |cart| > 0 {
      CountBoundsLines(cart[1..]);
    }
  }

  /** In a valid cart the total is never negative. */
  lemma {:induction false} TotalCostNonnegative(cart: Cart)
    ensures PositiveQuantities(cart) ==> TotalCost(cart) >= 0
  {
    if |cart| > 0 && PositiveQuantities(cart) {
      TotalCostNonnegative(cart[1..]);
    }
  }

  // ---------------------------------------------------------------------------
  // Operations

  /** The test `find` applies to each line. */
  function IsLineFor(id: int): CartLine -> bool {
    (l: CartLine) => l.item.id == id
  }

  /** The test `removeFromCart`'s filter applies to each line. */
  function IsOtherThan(id: int): CartLine -> bool {
    (l: CartLine) => l.item.id != id
  }

  /** The position of the first line for `id` (the cart's `find`). */
  function FindLine(cart: Cart, id: int): (r: Option<nat>)
    ensures r.None? <==> !HasLine(cart, id)
    ensures r.Some? ==> r.value < |cart| && cart[r.value].item.id == id
    ensures r.Some? ==> forall j :: 0 <= j < r.value ==> cart[j].item.id != id
    ensures r.Some? && DistinctLines(cart) ==>
      forall j :: 0 <= j < |cart| && j != r.value ==> cart[j].item.id != id
  {
    Find(cart, IsLineFor(id))
  }

  /** Deletes every line for `id`, keeping the others in order (`removeFromCart`). */
  function RemoveFromCart(cart: Cart, id: int): (r: Cart)
    ensures !HasLine(r, id)
    ensures forall l :: l in r <==> l in cart && l.item.id != id
    ensures IsSubsequence(r, cart)
    ensures forall l :: multiset(r)[l] == if l.item.id != id then multiset(cart)[l] else 0
    ensures !HasLine(cart, id) ==> r == cart
    ensures Valid(cart) ==> Valid(r)
  {
    FilterMembers(cart, IsOtherThan(id));
    FilterCounts(cart, IsOtherThan(id));
    FilterIsSubsequence(cart, IsOtherThan(id));
    FilterKeepsDistinct(cart, IsOtherThan(id));
    FilterKeepsAll(cart, IsOtherThan(id));
    Filter(cart, IsOtherThan(id))
  }

  /** A filtered cart keeps distinct lines distinct. */
  lemma {:induction false} FilterKeepsDistinct(cart: Cart, keep: CartLine -> bool)
    ensures DistinctLines(cart) ==> DistinctLines(Filter(cart, keep))
  {
    if |cart| > 0 && DistinctLines(cart) {
      FilterKeepsDistinct(cart[1..], keep);
      var rest := Filter(cart[1..], keep);
      forall i | 0 <= i < |rest|
        ensures rest[i].item.id != cart[0].item.id
      {
        var j :| 0 <= j < |cart[1..]| && cart[1..][j] == rest[i];
        assert cart[j + 1] == rest[i];
      }
    }
  }

  /** `addToCart`: one more unit of `id`, either on its existing line or on a new line at the end. */
  function AddToCart(catalog: seq<Product>, cart: Cart, id: int): (r: Result<Cart, CartError>)
    ensures r.Err? <==> !HasLine(cart, id) && FindById(catalog, id).None?
    ensures r.Err? ==> r.error == ProductNotFound(id)
    // An id already in the cart: that line gains one unit, every line keeps its place.
    ensures HasLine(cart, id) ==>
      r.Ok? && |r.value| == |cart| &&
      var k := FindLine(cart, id).value;
      r.value[k].item == cart[k].item && r.value[k].quantity == cart[k].quantity + 1 &&
      forall j :: 0 <= j < |cart| && j != k ==> r.value[j] == cart[j]
    // A catalog id not yet in the cart: exactly one line appended, one unit of that product.
    ensures !HasLine(cart, id) && r.Ok? ==>
      |r.value| == |cart| + 1 && r.value[..|cart|] == cart &&
      r.value[|cart|] == CartLine(FindById(catalog, id).value, 1) &&
      r.value[|cart|].item in catalog && r.value[|cart|].item.id == id
    ensures r.Ok? ==> Ids(r.value) == if HasLine(cart, id) then Ids(cart) else Ids(cart) + [id]
    ensures Valid(cart) && r.Ok? ==> Valid(r.value)
  {
    match FindLine(cart, id)
    case Some(k) =>
      var c := cart[k := cart[k].(quantity := cart[k].quantity + 1)];
      assert Ids(c) == Ids(cart);
      Ok(c)
    case None =>
      match FindById(catalog, id)
      case None => Err(ProductNotFound(id))
      case Some(p) =>
        var c := cart + [CartLine(p, 1)];
        assert Ids(c) == Ids(cart) + [id];
        assert c[..|cart|] == cart;
        Ok(c)
  }

  /** `updateQuantity`: shifts the first line for `id` by `change`; a line that would drop to zero or below is removed. */
  function UpdateQuantity(cart: Cart, id: int, change: int): (r: Cart)
    ensures !HasLine(cart, id) ==> r == cart
    ensures HasLine(cart, id) && cart[FindLine(cart, id).value].quantity + change <= 0 ==>
      r == RemoveFromCart(cart, id) && !HasLine(r, id)
    ensures HasLine(cart, id) && cart[FindLine(cart, id).value].quantity + change > 0 ==>
      |r| == |cart| && Ids(r) == Ids(cart) &&
      var k := FindLine(cart, id).value;
      r[k].item == cart[k].item && r[k].quantity == cart[k].quantity + change &&
      forall j :: 0 <= j < |cart| && j != k ==> r[j] == cart[j]
    ensures Valid(cart) ==> Valid(r)
  {
    match FindLine(cart, id)
    case None => cart
    case Some(k) =>
      var q := cart[k].quantity + change;
      if q <= 0 then RemoveFromCart(cart, id)
      else
        var c := cart[k := cart[k].(quantity := q)];
        assert Ids(c) == Ids(cart);
        c
  }

  /** What `checkout` leaves behind: the cart afterwards and the total charged, if any. */
  datatype CheckoutOutcome = CheckoutOutcome(cart: Cart, total: Option<int>)

  /** `checkout`: refuses an empty cart; otherwise charges the sum of price times quantity and empties the cart. */
  function Checkout(cart: Cart): (r: CheckoutOutcome)
    ensures |cart| == 0 ==> r.cart == cart && r.total.None?
    ensures |cart| > 0 ==> r.cart == [] && r.total == Some(TotalCost(cart))
    ensures Valid(cart) ==> Valid(r.cart)
    ensures r.total.Some? && PositiveQuantities(cart) ==> r.total.value >= 0
  {
    if |cart| == 0 then CheckoutOutcome(cart, None)
    else
      TotalCostNonnegative(cart);
      CheckoutOutcome([], Some(Reduce(cart, LineCost, 0)))
  }

  /** The running total the cart panel shows, accumulated line by line. */
  method DisplayTotal(cart: Cart) returns (total: int)
    ensures total == TotalCost(cart)
    ensures Checkout(cart).total.Some? ==> total == Checkout(cart).total.value
    ensures |cart| == 0 ==> total == 0
  {
    if |cart| == 0 {
      return 0;
    }
    total := 0;
    var i := 0;
    while i < |cart|
      invariant 0 <= i <= |cart|
      invariant total == TotalCost(cart[..i])
    {
      assert cart[..i + 1] == cart[..i] + [cart[i]];
      LineSumConcat(cart[..i], [cart[i]], LineCost);
      total := total + cart[i].item.price * cart[i].quantity;
      i := i + 1;
    }
    assert cart[..|cart|] == cart;
  }

  // ---------------------------------------------------------------------------
  // How the operations move the count and the total

  /** Adding raises the count by exactly one. */
  lemma AddToCartCount(catalog: seq<Product>, cart: Cart, id: int)
    requires AddToCart(catalog, cart, id).Ok?
    ensures Count(AddToCart(catalog, cart, id).value) == Count(cart) + 1
  {
    var c := AddToCart(catalog, cart, id).value;
    if HasLine(cart, id) {
      var k := FindLine(cart, id).value;
      var l := CartLine(cart[k].item, cart[k].quantity + 1);
      assert c == cart[k := l];
      LineSumUpdate(cart, k, l, LineQuantity);
    } else {
      assert c == cart + [c[|cart|]];
      LineSumConcat(cart, [c[|cart|]], LineQuantity);
    }
  }

  /** Adding raises the total by the unit price of the product added. */
  lemma AddToCartTotal(catalog: seq<Product>, cart: Cart, id: int)
    requires AddToCart(catalog, cart, id).Ok?
    ensures HasLine(cart, id) ==>
      TotalCost(AddToCart(catalog, cart, id).value) == TotalCost(cart) + cart[FindLine(cart, id).value].item.price
    ensures !HasLine(cart, id) ==>
      TotalCost(AddToCart(catalog, cart, id).value) == TotalCost(cart) + FindById(catalog, id).value.price
  {
    var c := AddToCart(catalog, cart, id).value;
    if HasLine(cart, id) {
      var k := FindLine(cart, id).value;
      var l := CartLine(cart[k].item, cart[k].quantity + 1);
      assert c == cart[k := l];
      LineSumUpdate(cart, k, l, LineCost);
      assert LineCost(l) == LineCost(cart[k]) + cart[k].item.price;
    } else {
      assert c == cart + [c[|cart|]];
      LineSumConcat(cart, [c[|cart|]], LineCost);
    }
  }

  /** In a valid cart, removing `id` deletes exactly its one line and closes the gap. */
  lemma RemoveDeletesOneLine(cart: Cart, id: int)
    requires Valid(cart) && HasLine(cart, id)
    ensures var k := FindLine(cart, id).value;
      RemoveFromCart(cart, id) == cart[..k] + cart[k + 1..]
  {
    var k := FindLine(cart, id).value;
    FilterDropsOne(cart, IsOtherThan(id), k);
  }

  /** Removing an id takes that line's units and cost out of the sums. */
  lemma RemoveFromCartSums(cart: Cart, id: int)
    requires Valid(cart)
    ensures !HasLine(cart, id) ==> Count(RemoveFromCart(cart, id)) == Count(cart)
    ensures HasLine(cart, id) ==>
      var k := FindLine(cart, id).value;
      Count(RemoveFromCart(cart, id)) == Count(cart) - cart[k].quantity &&
      TotalCost(RemoveFromCart(cart, id)) == TotalCost(cart) - LineCost(cart[k])
  {
    if HasLine(cart, id) {
      var k := FindLine(cart, id).value;
      RemoveDeletesOneLine(cart, id);
      LineSumDelete(cart, k, LineQuantity);
      LineSumDelete(cart, k, LineCost);
    }
  }

  /** In a valid cart, updating shifts the count by `change`, or by minus the old quantity when the line goes. */
  lemma UpdateQuantityCount(cart: Cart, id: int, change: int)
    requires Valid(cart)
    ensures !HasLine(cart, id) ==> Count(UpdateQuantity(cart, id, change)) == Count(cart)
    ensures HasLine(cart, id) ==>
      var q := cart[FindLine(cart, id).value].quantity;
      Count(UpdateQuantity(cart, id, change)) == if q + change <= 0 then Count(cart) - q else Count(cart) + change
  {
    if HasLine(cart, id) {
      var k := FindLine(cart, id).value;
      if cart[k].quantity + change <= 0 {
        RemoveFromCartSums(cart, id);
      } else {
        var l := CartLine(cart[k].item, cart[k].quantity + change);
        assert UpdateQuantity(cart, id, change) == cart[k := l];
        LineSumUpdate(cart, k, l, LineQuantity);
      }
    }
  }

  /** On a line already in a valid cart, the panel's "+" button does exactly what "add to cart" does. */
  lemma PlusIsAdd(catalog: seq<Product>, cart: Cart, id: int)
    requires Valid(cart) && HasLine(cart, id)
    ensures AddToCart(catalog, cart, id) == Ok(UpdateQuantity(cart, id, 1))
  {
  }

  /** One add of a catalog id to a valid cart succeeds, keeps it valid, counts one more and leaves a line for the id. */
  lemma AddOneMore(catalog: seq<Product>, cart: Cart, id: int)
    requires Valid(cart)
    requires FindById(catalog, id).Some?
    ensures AddToCart(catalog, cart, id).Ok?
    ensures Valid(AddToCart(catalog, cart, id).value)
    ensures Count(AddToCart(catalog, cart, id).value) == Count(cart) + 1
    ensures HasLine(AddToCart(catalog, cart, id).value, id)
    ensures |AddToCart(catalog, cart, id).value| == if HasLine(cart, id) then |cart| else |cart| + 1
  {
    var r := AddToCart(catalog, cart, id);
    AddToCartCount(catalog, cart, id);
    if HasLine(cart, id) {
      var k := FindLine(cart, id).value;
      assert r.value[k].item.id == id;
    } else {
      assert r.value[|cart|].item.id == id;
    }
  }

  /** `n` successive calls of `addToCart` for one id; the first failure stops the run. */
  function AddN(catalog: seq<Product>, cart: Cart, id: int, n: nat): Result<Cart, CartError> {
    if n == 0 then Ok(cart)
    else
      var prev := AddN(catalog, cart, id, n - 1);
      if prev.Err? then prev else AddToCart(catalog, prev.value, id)
  }

  /** One more add after `i` successful ones giving `c`: the facts about the first `i` adds carry over to `i + 1`. */
  lemma AddNStep(catalog: seq<Product>, cart: Cart, id: int, i: nat, c: Cart)
    requires FindById(catalog, id).Some?
    requires AddN(catalog, cart, id, i) == Ok(c)
    requires Valid(c) && Count(c) == Count(cart) + i
    requires HasLine(cart, id) || i > 0 ==> HasLine(c, id)
    requires HasLine(cart, id) || i == 0 ==> |c| == |cart|
    requires !HasLine(cart, id) && i > 0 ==> |c| == |cart| + 1
    ensures AddN(catalog, cart, id, i + 1) == AddToCart(catalog, c, id)
    ensures AddToCart(catalog, c, id).Ok?
    ensures var next := AddToCart(catalog, c, id).value;
      Valid(next) && Count(next) == Count(cart) + i + 1 && HasLine(next, id) &&
      (HasLine(cart, id) ==> |next| == |cart|) && (!HasLine(cart, id) ==> |next| == |cart| + 1)
  {
    AddOneMore(catalog, c, id);
    if i == 0 {
      assert c == cart;
    }
  }

  /** `n` adds of a catalog id to a valid cart never fail, count `n` more units and leave exactly one line for the id. */
  lemma {:induction false} AddNFacts(catalog: seq<Product>, cart: Cart, id: int, n: nat)
    requires Valid(cart)
    requires FindById(catalog, id).Some?
    ensures AddN(catalog, cart, id, n).Ok?
    ensures var r := AddN(catalog, cart, id, n).value;
      Valid(r) && Count(r) == Count(cart) + n && (n > 0 ==> HasLine(r, id)) &&
      (HasLine(cart, id) ==> |r| == |cart|) && (!HasLine(cart, id) && n > 0 ==> |r| == |cart| + 1)
  {
    if n > 0 {
      AddNFacts(catalog, cart, id, n - 1);
      AddNStep(catalog, cart, id, n - 1, AddN(catalog, cart, id, n - 1).value);
    }
  }

  /** `n` clicks on "add" for one catalog id: the cart after `n` calls of `addToCart`, none of which fails. */
  method AddTimes(catalog: seq<Product>, cart: Cart, id: int, n: nat) returns (r: Cart)
    requires Valid(cart)
    requires FindById(catalog, id).Some?
    ensures AddN(catalog, cart, id, n) == Ok(r)
    ensures Valid(r)
    ensures Count(r) == Count(cart) + n
    ensures n > 0 ==> HasLine(r, id)
    ensures HasLine(cart, id) ==> |r| == |cart|
    ensures !HasLine(cart, id) && n > 0 ==> |r| == |cart| + 1
  {
    r := cart;
    var i := 0;
    while i < n
      invariant 0 <= i <= n
      invariant AddN(catalog, cart, id, i) == Ok(r)
    {
      AddNFacts(catalog, cart, id, i + 1);
      r := AddToCart(catalog, r, id).value;
      i := i + 1;
    }
    AddNFacts(catalog, cart, id, n);
  }
}

/** The cart store (the 'cart' slice): the cart lines, their total and the
    drawer's open flag. */
module Cart {
  import opened ProductTypes

  // ---------------------------------------------------------------------
  // Functions on the list of lines

  /** `items.find(item => item.product.id === id)`, as the index it finds. */
  function FindLine(items: seq<CartItem>, id: string): (r: Option<nat>)
    ensures r.Some? ==> r.value < |items| && items[r.value].product.id == id
    ensures r.Some? ==> forall j :: 0 <= j < r.value ==> items[j].product.id != id
    ensures r.None? <==> forall j :: 0 <= j < |items| ==> items[j].product.id != id
  {
    if items == [] then None
    else if items[0].product.id == id then Some(0)
    else match FindLine(items[1..], id)
      case None => None
      case Some(k) => Some(k + 1)
  }

  /** `items.filter(item => item.product.id !== id)`. */
  function WithoutId(items: seq<CartItem>, id: string): (r: seq<CartItem>)
    ensures |r| <= |items|
  {
    if items == [] then []
    else (if items[0].product.id != id then [items[0]] else []) + WithoutId(items[1..], id)
  }

  function LineTotal(item: CartItem): real {
    item.product.price * item.quantity as real
  }

  /** Sum of price times quantity over the lines. */
  function Sum(items: seq<CartItem>): real {
    if items == [] then 0.0 else LineTotal(items[0]) + Sum(items[1..])
  }

  /** `items.reduce((total, item) => total + price * quantity, acc)`, folding
      from the left as `reduce` does. */
  function Reduce(items: seq<CartItem>, acc: real): real {
    if items == [] then acc else Reduce(items[1..], acc + LineTotal(items[0]))
  }

  /** The number of articles shown on the cart badges: the sum of quantities. */
  function ItemCount(items: seq<CartItem>): int {
    if items == [] then 0 else items[0].quantity + ItemCount(items[1..])
  }

  /** No product id has two lines. */
  predicate DistinctIds(items: seq<CartItem>) {
    forall i, j :: 0 <= i < j < |items| ==> items[i].product.id != items[j].product.id
  }

  predicate PositiveQuantities(items: seq<CartItem>) {
    forall i :: 0 <= i < |items| ==> items[i].quantity >= 1
  }

  /** The line update of `addToCart`: one more of a product already in the
      cart, in place, or a new line `(product, 1)` pushed at the end. */
  method AddLine(items: seq<CartItem>, product: Product) returns (next: seq<CartItem>)
    ensures match FindLine(items, product.id)
      case Some(i) => next == items[i := CartItem(items[i].product, items[i].quantity + 1)]
      case None => next == items + [CartItem(product, 1)]
    ensures Sum(next) == Sum(items) + (match FindLine(items, product.id)
      case Some(i) => items[i].product.price
      case None => product.price)
    ensures ItemCount(next) == ItemCount(items) + 1
    ensures DistinctIds(items) ==> DistinctIds(next)
    ensures PositiveQuantities(items) ==> PositiveQuantities(next)
  {
    var found := FindLine(items, product.id);
    match found {
      case Some(i) =>
        var line := CartItem(items[i].product, items[i].quantity + 1);
        SumUpdate(items, i, line);
        ItemCountUpdate(items, i, line);
        next := items[i := line];
      case None =>
        var line := CartItem(product, 1);
        SumAppend(items, [line]);
        ItemCountAppend(items, [line]);
        next := items + [line];
    }
  }

  // ---------------------------------------------------------------------
  // Lemmas

  /** The left fold that `calculateTotal` runs computes the sum. */
  lemma {:induction false} ReduceIsSum(items: seq<CartItem>, acc: real)
    ensures Reduce(items, acc) == acc + Sum(items)
  {
    if items != [] {
      ReduceIsSum(items[1..], acc + LineTotal(items[0]));
    }
  }

  lemma {:induction false} SumAppend(a: seq<CartItem>, b: seq<CartItem>)
    ensures Sum(a + b) == Sum(a) + Sum(b)
  {
    if a == [] {
      assert a + b == b;
    } else {
      assert (a + b)[1..] == a[1..] + b;
      SumAppend(a[1..], b);
    }
  }

  /** Changing one line changes the sum by the difference of its line totals. */
  lemma {:induction false} SumUpdate(items: seq<CartItem>, i: nat, line: CartItem)
    requires i < |items|
    ensures Sum(items[i := line]) == Sum(items) - LineTotal(items[i]) + LineTotal(line)
  {
    if i > 0 {
      SumUpdate(items[1..], i - 1, line);
      assert items[i := line][1..] == items[1..][i - 1 := line];
    }
  }

  /** The filter removes exactly the lines with that id and keeps the order
      of the others. */
  lemma {:induction false} WithoutIdKeeps(items: seq<CartItem>, id: string)
    ensures IsSubsequence(WithoutId(items, id), items)
    ensures forall x :: x in WithoutId(items, id) <==> x in items && x.product.id != id
  {
    if items != [] {
      WithoutIdKeeps(items[1..], id);
      var r := WithoutId(items, id);
      if items[0].product.id != id {
        assert r[0] == items[0] && r[1..] == WithoutId(items[1..], id);
      } else {
        assert r == WithoutId(items[1..], id);
      }
      assert items == [items[0]] + items[1..];
    }
  }

  /** Removing an id no line has changes nothing. */
  lemma {:induction false} WithoutAbsentId(items: seq<CartItem>, id: string)
    requires forall j :: 0 <= j < |items| ==> items[j].product.id != id
    ensures WithoutId(items, id) == items
  {
    if items != [] {
      WithoutAbsentId(items[1..], id);
      assert items == [items[0]] + items[1..];
    }
  }

  /** Removing the one line with an id subtracts that line's total. */
  lemma {:induction false} SumWithoutId(items: seq<CartItem>, id: string, i: nat)
    requires DistinctIds(items)
    requires i < |items| && items[i].product.id == id
    ensures Sum(WithoutId(items, id)) == Sum(items) - LineTotal(items[i])
  {
    if i == 0 {
      assert forall j :: 0 <= j < |items[1..]| ==> items[1..][j].product.id != items[0].product.id;
      WithoutAbsentId(items[1..], id);
      assert WithoutId(items, id) == items[1..];
    } else {
      SumWithoutId(items[1..], id, i - 1);
    }
  }

  /** What line `i` holds does not matter when its id is filtered out. */
  lemma {:induction false} WithoutIdIgnoresLine(items: seq<CartItem>, i: nat, line: CartItem, id: string)
    requires i < |items| && items[i].product.id == id && line.product.id == id
    ensures WithoutId(items[i := line], id) == WithoutId(items, id)
  {
    if i > 0 {
      WithoutIdIgnoresLine(items[1..], i - 1, line, id);
      assert items[i := line][1..] == items[1..][i - 1 := line];
    }
  }

  lemma DistinctIdsWithout(items: seq<CartItem>, id: string)
    requires DistinctIds(items) && PositiveQuantities(items)
    ensures DistinctIds(WithoutId(items, id)) && PositiveQuantities(WithoutId(items, id))
  {
    WithoutIdKeeps(items, id);
    SubsequenceKeepsDistinct(WithoutId(items, id), items);
  }

  lemma {:induction false} SubsequenceKeepsDistinct(r: seq<CartItem>, s: seq<CartItem>)
    requires IsSubsequence(r, s) && DistinctIds(s) && PositiveQuantities(s)
    ensures DistinctIds(r) && PositiveQuantities(r)
    decreases |s|
  {
    if r != [] {
      if r[0] == s[0] && IsSubsequence(r[1..], s[1..]) {
        SubsequenceKeepsDistinct(r[1..], s[1..]);
        SubsequenceMembers(r[1..], s[1..]);
        forall j | 0 < j < |r|
          ensures r[0].product.id != r[j].product.id
        {
          assert r[1..][j - 1] in s[1..];
        }
      } else {
        SubsequenceKeepsDistinct(r, s[1..]);
      }
    }
  }

  lemma {:induction false} SubsequenceMembers(r: seq<CartItem>, s: seq<CartItem>)
    requires IsSubsequence(r, s)
    ensures forall x :: x in r ==> x in s
    decreases |s|
  {
    if r != [] {
      if r[0] == s[0] && IsSubsequence(r[1..], s[1..]) {
        SubsequenceMembers(r[1..], s[1..]);
        assert r == [r[0]] + r[1..];
      } else {
        SubsequenceMembers(r, s[1..]);
      }
    }
  }

  /** With every quantity at least 1, the badge count is at least the number
      of lines, and it is 0 only for an empty cart. */
  lemma {:induction false} ItemCountBounds(items: seq<CartItem>)
    requires PositiveQuantities(items)
    ensures ItemCount(items) >= |items|
    ensures ItemCount(items) == 0 <==> items == []
  {
    if items != [] {
      ItemCountBounds(items[1..]);
    }
  }

  lemma {:induction false} ItemCountUpdate(items: seq<CartItem>, i: nat, line: CartItem)
    requires i < |items|
    ensures ItemCount(items[i := line]) == ItemCount(items) - items[i].quantity + line.quantity
  {
    if i > 0 {
      ItemCountUpdate(items[1..], i - 1, line);
      assert items[i := line][1..] == items[1..][i - 1 := line];
    }
  }

  lemma {:induction false} ItemCountAppend(a: seq<CartItem>, b: seq<CartItem>)
    ensures ItemCount(a + b) == ItemCount(a) + ItemCount(b)
  {
    if a == [] {
      assert a + b == b;
    } else {
      assert (a + b)[1..] == a[1..] + b;
      ItemCountAppend(a[1..], b);
    }
  }

  // ---------------------------------------------------------------------
  // The store

  class CartStore {
    var items: seq<CartItem>
    var total: real
    var isOpen: bool

    /** One line per product id, every quantity at least 1, and `total` the
        sum of price times quantity. */
    ghost predicate Valid()
      reads this
    {
      DistinctIds(items) && PositiveQuantities(items) && total == Sum(items)
    }

    /** `initialState`. */
    constructor ()
      ensures Valid()
      ensures items == [] && total == 0.0 && !isOpen
    {
      items := [];
      total := 0.0;
      isOpen := false;
    }

    /** `calculateTotal`: the fold over the lines. */
    method CalculateTotal()
      modifies this
      ensures total == Sum(items)
      ensures items == old(items) && isOpen == old(isOpen)
    {
      ReduceIsSum(items, 0.0);
      total := Reduce(items, 0.0);
    }

    /** `addToCart`: one more of a product already in the cart, or a new line
        with quantity 1 at the end. An existing line keeps its product record,
        so its price is the one from the first add. */
    method AddToCart(product: Product)
      requires Valid()
      modifies this
      ensures Valid()
      ensures match FindLine(old(items), product.id)
        case Some(i) => items == old(items)[i := CartItem(old(items)[i].product, old(items)[i].quantity + 1)]
        case None => items == old(items) + [CartItem(product, 1)]
      ensures total == old(total) + (match FindLine(old(items), product.id)
        case Some(i) => old(items)[i].product.price
        case None => product.price)
      ensures ItemCount(items) == ItemCount(old(items)) + 1
      ensures isOpen == old(isOpen)
    {
      items := AddLine(items, product);
      CalculateTotal();
    }

    /** `removeFromCart`: drops the line with that id, if any. */
    method RemoveFromCart(id: string)
      requires Valid()
      modifies this
      ensures Valid()
      ensures items == WithoutId(old(items), id)
      ensures FindLine(old(items), id).None? ==> items == old(items) && total == old(total)
      ensures match FindLine(old(items), id)
        case Some(i) => |items| == |old(items)| - 1 && total == old(total) - LineTotal(old(items)[i])
        case None => true
      ensures isOpen == old(isOpen)
    {
      DistinctIdsWithout(items, id);
      match FindLine(items, id) {
        case Some(i) =>
          SumWithoutId(items, id, i);
          RemovesOneLine(items, id, i);
        case None =>
          WithoutAbsentId(items, id);
      }
      items := WithoutId(items, id);
      CalculateTotal();
    }

    /** `updateQuantity`: a quantity of 0 or less removes the line, a positive
        one replaces the quantity; an unknown id changes no line. */
    method UpdateQuantity(id: string, quantity: int)
      requires Valid()
      modifies this
      ensures Valid()
      ensures match FindLine(old(items), id)
        case None => items == old(items)
        case Some(i) =>
          if quantity <= 0 then items == WithoutId(old(items), id)
          else items == old(items)[i := CartItem(old(items)[i].product, quantity)]
      ensures total == Sum(items)
      ensures isOpen == old(isOpen)
    {
      var found := FindLine(items, id);
      if found.Some? {
        var i := found.value;
        var clamped := if quantity > 0 then quantity else 0;
        var line := CartItem(items[i].product, clamped);
        if clamped == 0 {
          WithoutIdIgnoresLine(items, i, line, id);
          DistinctIdsWithout(items, id);
        }
        items := items[i := line];
        if clamped == 0 {
          items := WithoutId(items, id);
        }
      }
      CalculateTotal();
    }

    /** `clearCart`. */
    method ClearCart()
      requires Valid()
      modifies this
      ensures Valid()
      ensures items == [] && total == 0.0 && isOpen == old(isOpen)
    {
      items := [];
      total := 0.0;
    }

    /** `toggleCart`. */
    method ToggleCart()
      requires Valid()
      modifies this
      ensures Valid()
      ensures isOpen == !old(isOpen) && items == old(items) && total == old(total)
    {
      isOpen := !isOpen;
    }

    /** `setCartOpen`. */
    method SetCartOpen(open: bool)
      requires Valid()
      modifies this
      ensures Valid()
      ensures isOpen == open && items == old(items) && total == old(total)
    {
      isOpen := open;
    }
  }

  /** With distinct ids, the filter removes exactly one line for a present id. */
  lemma {:induction false} RemovesOneLine(items: seq<CartItem>, id: string, i: nat)
    requires DistinctIds(items)
    requires i < |items| && items[i].product.id == id
    ensures |WithoutId(items, id)| == |items| - 1
  {
    if i == 0 {
      WithoutAbsentId(items[1..], id);
    } else {
      RemovesOneLine(items[1..], id, i - 1);
    }
  }

  /** Adding the same product twice gives one line of quantity 2. */
  method AddSameProductTwice(product: Product) returns (lines: seq<CartItem>, total: real)
    ensures lines == [CartItem(product, 2)]
    ensures total == 2.0 * product.price
  {
    var cart := new CartStore();
    cart.AddToCart(product);
    cart.AddToCart(product);
    lines, total := cart.items, cart.total;
  }

  /** A product at 10.00 added twice and one at 5.00 added once cost 25.00. */
  method TwoProductsScenario(first: Product, second: Product) returns (total: real, count: int)
    requires first.id != second.id
    requires first.price == 10.0 && second.price == 5.0
    ensures total == 25.0 && count == 3
  {
    var cart := new CartStore();
    cart.AddToCart(first);
    cart.AddToCart(first);
    cart.AddToCart(second);
    total, count := cart.total, ItemCount(cart.items);
  }

  /** Setting a quantity of 0 removes the line entirely. */
  method ZeroQuantityRemoves(product: Product) returns (lines: seq<CartItem>, total: real)
    ensures lines == [] && total == 0.0
  {
    var cart := new CartStore();
    cart.AddToCart(product);
    cart.UpdateQuantity(product.id, 0);
    lines, total := cart.items, cart.total;
  }
}

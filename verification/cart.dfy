/**
 * The in-memory shopping cart (`CartItem` and `CartManager`).
 *
 * The first half of the module is the cart as a value: a sequence of lines and
 * the functions `Added`, `Without` and `Updated` that say what each operation
 * makes of it, with the lemmas that state what those operations promise.  The
 * second half is the class `CartManager`, whose methods change the sequence in
 * place and are proved to agree with those functions.
 */
module Cart {
  import opened Wrappers
  import opened KotlinInt
  import opened Catalog

  /** One cart line (`CartItem`): a product and a Kotlin `Int` quantity. */
  datatype CartLine = CartLine(product: Product, quantity: Int32)

  /** `CartItem.getTotalPrice`: the line's price in cents. */
  function LineTotal(line: CartLine): (r: int)
    ensures line.quantity == 0 ==> r == 0
    ensures line.quantity == 1 ==> r == line.product.price
    ensures line.product.price >= 0 && line.quantity >= 0 ==> r >= 0
  {
    line.product.price * line.quantity
  }

  function Quantity(line: CartLine): int
  {
    line.quantity
  }

  /** Kotlin's `sumOf`, computed exactly (no wrap-around). */
  function SumOf(s: seq<CartLine>, f: CartLine -> int): (r: int)
    ensures (forall k :: 0 <= k < |s| ==> f(s[k]) >= 0) ==> r >= 0
  {
    if s == [] then 0 else f(s[0]) + SumOf(s[1..], f)
  }

  /** The cart's invariant: at most one line per product id. */
  predicate OneLinePerId(s: seq<CartLine>)
  {
    forall i, j :: 0 <= i < j < |s| ==> s[i].product.id != s[j].product.id
  }

  /** Every line holds at least one unit; true only when callers add positive quantities. */
  predicate AllPositive(s: seq<CartLine>)
  {
    forall line :: line in s ==> line.quantity >= 1
  }

  /** Kotlin's `find { it.product.id == id }`, as the index of the first matching line. */
  function FirstIndex(s: seq<CartLine>, id: string): (r: Option<nat>)
    ensures r.Some? ==> r.value < |s| && s[r.value].product.id == id
                        && forall j :: 0 <= j < r.value ==> s[j].product.id != id
    ensures r.None? ==> forall j :: 0 <= j < |s| ==> s[j].product.id != id
  {
    if s == [] then None
    else if s[0].product.id == id then Some(0)
    else match FirstIndex(s[1..], id)
      case None => None
      case Some(i) => Some(i + 1)
  }

  /** Merging `q` into the line with that id cannot overflow a Kotlin `Int`. */
  predicate NoWrapOnAdd(s: seq<CartLine>, id: string, q: Int32)
  {
    match FirstIndex(s, id)
    case Some(i) => MinInt <= s[i].quantity + q <= MaxInt
    case None => true
  }

  /** `addToCart(product, q)` on a cart: merge into the line with that id, else append. */
  function Added(s: seq<CartLine>, p: Product, q: Int32): (r: seq<CartLine>)
    ensures |r| == |s| <==> FirstIndex(s, p.id).Some?
    ensures |r| == |s| + 1 <==> FirstIndex(s, p.id).None?
  {
    match FirstIndex(s, p.id)
    case Some(i) => s[i := CartLine(s[i].product, Add32(s[i].quantity, q))]
    case None => s + [CartLine(p, q)]
  }

  /**
   * Adding merges into the first line with the product's id (its quantity grows
   * by `q`, wrapped, and no other line changes) or, when there is none, appends
   * one line `(p, q)` after the existing lines.
   */
  lemma AddedMergesOrAppends(s: seq<CartLine>, p: Product, q: Int32)
    ensures var r := Added(s, p, q);
      match FirstIndex(s, p.id)
      case Some(i) =>
        && |r| == |s|
        && r[i] == CartLine(s[i].product, Add32(s[i].quantity, q))
        && r[i].product.id == p.id
        && forall j :: 0 <= j < |s| && j != i ==> r[j] == s[j]
      case None =>
        && |r| == |s| + 1
        && r[..|s|] == s
        && r[|s|] == CartLine(p, q)
  {
  }

  /** `removeFromCart(id)` on a cart: Kotlin's `removeAll { it.product.id == id }`. */
  function Without(s: seq<CartLine>, id: string): (r: seq<CartLine>)
    ensures |r| <= |s|
    ensures forall i :: 0 <= i < |r| ==> r[i].product.id != id
    ensures (forall i :: 0 <= i < |s| ==> s[i].product.id != id) ==> r == s
  {
    if s == [] then []
    else if s[0].product.id == id then Without(s[1..], id)
    else [s[0]] + Without(s[1..], id)
  }

  /** `updateQuantity(id, q)` on a cart: set the quantity, then drop the line if it is not positive. */
  function Updated(s: seq<CartLine>, id: string, q: Int32): (r: seq<CartLine>)
    ensures FirstIndex(s, id).None? ==> r == s
    ensures q <= 0 ==> r == Without(s, id)
    ensures q > 0 && FirstIndex(s, id).Some? ==>
      var i := FirstIndex(s, id).value;
      && |r| == |s|
      && r[i] == CartLine(s[i].product, q)
      && forall j :: 0 <= j < |s| && j != i ==> r[j] == s[j]
  {
    match FirstIndex(s, id)
    case None => s
    case Some(i) =>
      var t := s[i := CartLine(s[i].product, q)];
      if q <= 0 then
        WithoutSetSameId(s, i, CartLine(s[i].product, q), id);
        Without(t, id)
      else t
  }

  /** Adding a product already in the cart leaves its line where it was. */
  lemma AddedPresent(s: seq<CartLine>, p: Product, q: Int32, i: nat)
    requires FirstIndex(s, p.id) == Some(i)
    ensures Added(s, p, q) == s[i := CartLine(s[i].product, Add32(s[i].quantity, q))]
    ensures FirstIndex(Added(s, p, q), p.id) == Some(i)
  {
    var t := Added(s, p, q);
    assert forall j :: 0 <= j < |s| ==> t[j].product.id == s[j].product.id;
  }

  /** Adding a product that is not in the cart makes it the last line, the first with its id. */
  lemma AddedAbsent(s: seq<CartLine>, p: Product, q: Int32)
    requires FirstIndex(s, p.id).None?
    ensures Added(s, p, q) == s + [CartLine(p, q)]
    ensures FirstIndex(Added(s, p, q), p.id) == Some(|s|)
  {
    var t := Added(s, p, q);
    assert t[|s|].product.id == p.id;
    assert forall j :: 0 <= j < |s| ==> t[j] == s[j];
  }

  // ---------------------------------------------------------------------------
  // Sequence facts, stated for any element type so that proving them never
  // compares two cart lines field by field

  lemma SplitAround<T>(s: seq<T>, i: nat)
    requires i < |s|
    ensures s == s[..i] + ([s[i]] + s[i + 1..])
  {
  }

  lemma UpdateAround<T>(s: seq<T>, i: nat, x: T)
    requires i < |s|
    ensures s[i := x] == s[..i] + ([x] + s[i + 1..])
  {
  }

  lemma AppendThenUpdate<T>(s: seq<T>, x: T, y: T)
    ensures (s + [x])[|s| := y] == s + [y]
  {
  }

  lemma UpdateTwice<T>(s: seq<T>, i: nat, x: T, y: T)
    requires i < |s|
    ensures s[i := x][i := y] == s[i := y]
  {
  }

  lemma TailOfAppend<T>(s: seq<T>, t: seq<T>)
    requires s != []
    ensures (s + t)[0] == s[0] && (s + t)[1..] == s[1..] + t
  {
  }

  // ---------------------------------------------------------------------------
  // Lemmas about removal

  /** Removal distributes over concatenation, so the kept lines keep their order. */
  lemma {:induction false} WithoutAppend(s: seq<CartLine>, t: seq<CartLine>, id: string)
    ensures Without(s + t, id) == Without(s, id) + Without(t, id)
  {
    if s == [] {
      assert s + t == t;
    } else {
      TailOfAppend(s, t);
      WithoutAppend(s[1..], t, id);
    }
  }

  /** Replacing a line that has the removed id by another with that id changes nothing. */
  lemma {:induction false} WithoutSetSameId(s: seq<CartLine>, i: nat, x: CartLine, id: string)
    requires i < |s| && s[i].product.id == id && x.product.id == id
    ensures Without(s[i := x], id) == Without(s, id)
  {
    if i == 0 {
      assert s[i := x][1..] == s[1..];
    } else {
      assert s[i := x][0] == s[0];
      assert s[i := x][1..] == s[1..][i - 1 := x];
      WithoutSetSameId(s[1..], i - 1, x, id);
    }
  }

  /** Removal only drops lines: every line it keeps was in the cart. */
  lemma {:induction false} WithoutKeepsOnlyOldLines(s: seq<CartLine>, id: string)
    ensures forall x | x in Without(s, id) :: x in s
  {
    if s != [] {
      WithoutKeepsOnlyOldLines(s[1..], id);
      forall x | x in Without(s[1..], id) ensures x in s {
        assert x in s[1..];
      }
    }
  }

  /** No line other than line `i` has line `i`'s product id. */
  predicate UniqueAt(s: seq<CartLine>, i: nat)
    requires i < |s|
  {
    forall k :: 0 <= k < |s| && k != i ==> s[k].product.id != s[i].product.id
  }

  /** The lines before a line whose id is unique do not carry that id. */
  lemma WithoutBefore(s: seq<CartLine>, i: nat)
    requires i < |s| && UniqueAt(s, i)
    ensures Without(s[..i], s[i].product.id) == s[..i]
  {
    assert forall k :: 0 <= k < i ==> s[..i][k] == s[k];
  }

  /** The lines after a line whose id is unique do not carry that id. */
  lemma WithoutAfter(s: seq<CartLine>, i: nat)
    requires i < |s| && UniqueAt(s, i)
    ensures Without(s[i + 1..], s[i].product.id) == s[i + 1..]
  {
    var after := s[i + 1..];
    assert forall k :: 0 <= k < |after| ==> after[k] == s[i + 1 + k];
  }

  /** When line `i` is the only one with its id, removing that id deletes exactly line `i`. */
  lemma WithoutOneLine(s: seq<CartLine>, i: nat)
    requires i < |s| && UniqueAt(s, i)
    ensures Without(s, s[i].product.id) == s[..i] + s[i + 1..]
  {
    var id := s[i].product.id;
    WithoutBefore(s, i);
    WithoutAfter(s, i);
    WithoutAppend([s[i]], s[i + 1..], id);
    assert Without([s[i]], id) == [];
    SplitAround(s, i);
    WithoutAppend(s[..i], [s[i]] + s[i + 1..], id);
  }

  lemma {:induction false} WithoutKeepsOneLinePerId(s: seq<CartLine>, id: string)
    requires OneLinePerId(s)
    ensures OneLinePerId(Without(s, id))
  {
    if s != [] {
      var rest := Without(s[1..], id);
      WithoutKeepsOnlyOldLines(s[1..], id);
      assert OneLinePerId(s[1..]) by {
        forall i, j | 0 <= i < j < |s[1..]| ensures s[1..][i].product.id != s[1..][j].product.id {
          assert s[1..][i] == s[i + 1] && s[1..][j] == s[j + 1];
        }
      }
      WithoutKeepsOneLinePerId(s[1..], id);
      if s[0].product.id != id {
        forall k | 0 <= k < |rest| ensures rest[k].product.id != s[0].product.id {
          assert rest[k] in s[1..];
          var m :| 0 <= m < |s[1..]| && s[1..][m] == rest[k];
          assert s[1..][m] == s[m + 1];
        }
        var r := [s[0]] + rest;
        forall i, j | 0 <= i < j < |r| ensures r[i].product.id != r[j].product.id {
          if i == 0 {
            assert r[j] == rest[j - 1];
          } else {
            assert r[i] == rest[i - 1] && r[j] == rest[j - 1];
          }
        }
      }
    }
  }

  // ---------------------------------------------------------------------------
  // Lemmas about sums

  lemma {:induction false} SumOfAppend(s: seq<CartLine>, t: seq<CartLine>, f: CartLine -> int)
    ensures SumOf(s + t, f) == SumOf(s, f) + SumOf(t, f)
  {
    if s == [] {
      assert s + t == t;
    } else {
      TailOfAppend(s, t);
      SumOfAppend(s[1..], t, f);
    }
  }

  /** Replacing one line changes a sum by exactly that line's difference. */
  lemma SumOfUpdate(s: seq<CartLine>, i: nat, x: CartLine, f: CartLine -> int)
    requires i < |s|
    ensures SumOf(s[i := x], f) == SumOf(s, f) - f(s[i]) + f(x)
  {
    SplitAround(s, i);
    UpdateAround(s, i, x);
    SumOfAppend(s[..i], [s[i]] + s[i + 1..], f);
    SumOfAppend([s[i]], s[i + 1..], f);
    SumOfAppend(s[..i], [x] + s[i + 1..], f);
    SumOfAppend([x], s[i + 1..], f);
  }

  /** With only positive quantities, the exact sum of the quantities is at least the number of lines. */
  lemma {:induction false} CountAtLeastLines(s: seq<CartLine>)
    requires AllPositive(s)
    ensures SumOf(s, Quantity) >= |s|
  {
    if s != [] {
      assert s[0] in s;
      assert AllPositive(s[1..]) by {
        forall line | line in s[1..] ensures line.quantity >= 1 {
          assert line in s;
        }
      }
      CountAtLeastLines(s[1..]);
    }
  }

  /**
   * Checkout is offered exactly when the cart has a line; with positive quantities
   * that is exactly when the exact sum of the quantities is non-zero.
   */
  lemma EmptyIffNoItems(s: seq<CartLine>)
    requires AllPositive(s)
    ensures s == [] <==> SumOf(s, Quantity) == 0
  {
    CountAtLeastLines(s);
  }

  /**
   * The same bound for the `Int` that `getItemCount` returns (the exact sum
   * wrapped, see `CartManager.GetItemCount`), as long as that sum fits in an `Int`.
   */
  lemma ItemCountAtLeastLines(s: seq<CartLine>)
    requires AllPositive(s) && SumOf(s, Quantity) <= MaxInt
    ensures Wrap32(SumOf(s, Quantity)) >= |s|
  {
    CountAtLeastLines(s);
  }

  /** While the exact sum fits in an `Int`, `getItemCount` is 0 exactly when the cart has no line. */
  lemma EmptyIffItemCountZero(s: seq<CartLine>)
    requires AllPositive(s) && SumOf(s, Quantity) <= MaxInt
    ensures s == [] <==> Wrap32(SumOf(s, Quantity)) == 0
  {
    CountAtLeastLines(s);
  }

  // ---------------------------------------------------------------------------
  // What each operation promises

  lemma AddedKeepsOneLinePerId(s: seq<CartLine>, p: Product, q: Int32)
    requires OneLinePerId(s)
    ensures OneLinePerId(Added(s, p, q))
  {
    var r := Added(s, p, q);
    if FirstIndex(s, p.id).None? {
      forall i, j | 0 <= i < j < |r| ensures r[i].product.id != r[j].product.id {
        if j == |s| {
          assert r[i] == s[i];
        }
      }
    }
  }

  /** A line's total is linear in its quantity. */
  lemma LineTotalGrows(product: Product, n: Int32, q: Int32)
    requires MinInt <= n + q <= MaxInt
    ensures LineTotal(CartLine(product, Add32(n, q))) == LineTotal(CartLine(product, n)) + product.price * q
  {
    assert product.price * (n + q) == product.price * n + product.price * q;
  }

  lemma AddedSumsPresent(s: seq<CartLine>, p: Product, q: Int32, i: nat)
    requires FirstIndex(s, p.id) == Some(i) && MinInt <= s[i].quantity + q <= MaxInt
    ensures SumOf(Added(s, p, q), Quantity) == SumOf(s, Quantity) + q
    ensures SumOf(Added(s, p, q), LineTotal) == SumOf(s, LineTotal) + s[i].product.price * q
  {
    var x := CartLine(s[i].product, Add32(s[i].quantity, q));
    AddedPresent(s, p, q, i);
    SumOfUpdate(s, i, x, Quantity);
    SumOfUpdate(s, i, x, LineTotal);
    LineTotalGrows(s[i].product, s[i].quantity, q);
  }

  lemma AddedSumsAbsent(s: seq<CartLine>, p: Product, q: Int32)
    requires FirstIndex(s, p.id).None?
    ensures SumOf(Added(s, p, q), Quantity) == SumOf(s, Quantity) + q
    ensures SumOf(Added(s, p, q), LineTotal) == SumOf(s, LineTotal) + p.price * q
  {
    AddedAbsent(s, p, q);
    SumOfAppend(s, [CartLine(p, q)], Quantity);
    SumOfAppend(s, [CartLine(p, q)], LineTotal);
  }

  /** Adding without overflow raises the item count by `q` and the total by `q` units of the line's price. */
  lemma AddedSums(s: seq<CartLine>, p: Product, q: Int32)
    requires NoWrapOnAdd(s, p.id, q)
    ensures SumOf(Added(s, p, q), Quantity) == SumOf(s, Quantity) + q
    ensures match FirstIndex(s, p.id)
      case Some(i) => SumOf(Added(s, p, q), LineTotal) == SumOf(s, LineTotal) + s[i].product.price * q
      case None => SumOf(Added(s, p, q), LineTotal) == SumOf(s, LineTotal) + p.price * q
  {
    match FirstIndex(s, p.id)
    case Some(i) => AddedSumsPresent(s, p, q, i);
    case None => AddedSumsAbsent(s, p, q);
  }

  /** Adding a positive quantity without overflow keeps every quantity positive. */
  lemma AddedKeepsPositive(s: seq<CartLine>, p: Product, q: Int32)
    requires AllPositive(s) && q >= 1 && NoWrapOnAdd(s, p.id, q)
    ensures AllPositive(Added(s, p, q))
  {
    var r := Added(s, p, q);
    forall line | line in r ensures line.quantity >= 1 {
      var k :| 0 <= k < |r| && r[k] == line;
      match FirstIndex(s, p.id)
      case Some(i) =>
        if k != i { assert s[k] in s; } else { assert s[i] in s; }
      case None =>
        if k < |s| { assert r[k] == s[k] && s[k] in s; }
    }
  }

  /** Removing an id drops that line's quantity and price from the sums (and changes nothing if absent). */
  lemma WithoutSums(s: seq<CartLine>, id: string, f: CartLine -> int)
    requires OneLinePerId(s)
    ensures match FirstIndex(s, id)
      case Some(i) => SumOf(Without(s, id), f) == SumOf(s, f) - f(s[i])
      case None => SumOf(Without(s, id), f) == SumOf(s, f)
  {
    match FirstIndex(s, id)
    case Some(i) =>
      assert UniqueAt(s, i);
      WithoutOneLine(s, i);
      SplitAround(s, i);
      SumOfAppend(s[..i], [s[i]] + s[i + 1..], f);
      SumOfAppend([s[i]], s[i + 1..], f);
      SumOfAppend(s[..i], s[i + 1..], f);
    case None =>
  }

  lemma UpdatedKeepsOneLinePerId(s: seq<CartLine>, id: string, q: Int32)
    requires OneLinePerId(s)
    ensures OneLinePerId(Updated(s, id, q))
  {
    if q <= 0 {
      WithoutKeepsOneLinePerId(s, id);
    } else if FirstIndex(s, id).Some? {
      var r := Updated(s, id, q);
      var m := FirstIndex(s, id).value;
      forall i, j | 0 <= i < j < |r| ensures r[i].product.id != r[j].product.id {
        assert r[i].product.id == s[i].product.id && r[j].product.id == s[j].product.id;
      }
    }
  }

  /** Updating quantities never leaves a non-positive line behind. */
  lemma UpdatedKeepsPositive(s: seq<CartLine>, id: string, q: Int32)
    requires AllPositive(s)
    ensures AllPositive(Updated(s, id, q))
  {
    var r := Updated(s, id, q);
    if q <= 0 {
      WithoutKeepsOnlyOldLines(s, id);
    } else if FirstIndex(s, id).Some? {
      var m := FirstIndex(s, id).value;
      forall line | line in r ensures line.quantity >= 1 {
        var k :| 0 <= k < |r| && r[k] == line;
        if k != m { assert s[k] in s; }
      }
    }
  }

  /** Setting a present line to a positive `q` replaces its quantity in the sums. */
  lemma UpdatedSums(s: seq<CartLine>, id: string, q: Int32)
    requires q > 0 && FirstIndex(s, id).Some?
    ensures var i := FirstIndex(s, id).value;
      && SumOf(Updated(s, id, q), Quantity) == SumOf(s, Quantity) - s[i].quantity + q
      && SumOf(Updated(s, id, q), LineTotal) == SumOf(s, LineTotal) - LineTotal(s[i]) + s[i].product.price * q
  {
    var i := FirstIndex(s, id).value;
    var x := CartLine(s[i].product, q);
    assert Updated(s, id, q) == s[i := x];
    SumOfUpdate(s, i, x, Quantity);
    SumOfUpdate(s, i, x, LineTotal);
  }

  // ---------------------------------------------------------------------------
  // Repeated additions of one product

  lemma AddedTwicePresent(s: seq<CartLine>, p: Product, q1: Int32, q2: Int32, i: nat)
    requires FirstIndex(s, p.id) == Some(i)
    ensures Added(Added(s, p, q1), p, q2) == Added(s, p, Add32(q1, q2))
  {
    var n, prod := s[i].quantity, s[i].product;
    var x := CartLine(prod, Add32(n, q1));
    var y := CartLine(prod, Add32(n, Add32(q1, q2)));
    AddedPresent(s, p, q1, i);
    var t := Added(s, p, q1);
    assert t == s[i := x] && t[i] == x;
    AddedPresent(t, p, q2, i);
    Add32Assoc(n, q1, q2);
    assert Added(t, p, q2) == t[i := y];
    AddedPresent(s, p, Add32(q1, q2), i);
    UpdateTwice(s, i, x, y);
  }

  lemma AddedTwiceAbsent(s: seq<CartLine>, p: Product, q1: Int32, q2: Int32)
    requires FirstIndex(s, p.id).None?
    ensures Added(Added(s, p, q1), p, q2) == Added(s, p, Add32(q1, q2))
  {
    AddedAbsent(s, p, q1);
    AddedAbsent(s, p, Add32(q1, q2));
    AddedPresent(s + [CartLine(p, q1)], p, q2, |s|);
    AppendThenUpdate(s, CartLine(p, q1), CartLine(p, Add32(q1, q2)));
  }

  /** Two adds of one product act as a single add of the (wrapped) sum of the quantities. */
  lemma AddedTwice(s: seq<CartLine>, p: Product, q1: Int32, q2: Int32)
    ensures Added(Added(s, p, q1), p, q2) == Added(s, p, Add32(q1, q2))
  {
    match FirstIndex(s, p.id)
    case Some(i) => AddedTwicePresent(s, p, q1, q2, i);
    case None => AddedTwiceAbsent(s, p, q1, q2);
  }

  // ---------------------------------------------------------------------------
  // Two worked scenarios

  function SampleProduct(id: string, price: int): Product
  {
    Product(id, "", "", price, "USD", "", "", "", "")
  }

  /** Adding 2 then 1 of a 10.00 product gives one line, 3 items and 30.00. */
  lemma MergeScenario()
    ensures var s := Added(Added([], SampleProduct("A", 1000), 2), SampleProduct("A", 1000), 1);
      |s| == 1 && SumOf(s, Quantity) == 3 && SumOf(s, LineTotal) == 3000
  {
    var a := SampleProduct("A", 1000);
    var s1 := Added([], a, 2);
    assert s1 == [CartLine(a, 2)];
    assert FirstIndex(s1, a.id) == Some(0);
    assert Added(s1, a, 1) == [CartLine(a, 3)];
  }

  /**
   * Past `Int.MAX_VALUE` the item count wraps: three lines with positive quantities
   * and distinct ids whose count `getItemCount` reports as 0.
   */
  lemma ItemCountWrapsToZero()
    ensures var s := [CartLine(SampleProduct("A", 100), MaxInt), CartLine(SampleProduct("B", 100), MaxInt),
                      CartLine(SampleProduct("C", 100), 2)];
      && OneLinePerId(s) && AllPositive(s) && |s| == 3
      && Wrap32(SumOf(s, Quantity)) == 0
  {
    var s := [CartLine(SampleProduct("A", 100), MaxInt), CartLine(SampleProduct("B", 100), MaxInt),
              CartLine(SampleProduct("C", 100), 2)];
    assert "A"[0] != "B"[0] && "A"[0] != "C"[0] && "B"[0] != "C"[0];
    assert s[1..][1..] == [s[2]] && [s[2]][1..] == [];
    assert SumOf(s[1..][1..], Quantity) == 2;
    assert SumOf(s, Quantity) == MaxInt + (MaxInt + 2);
  }

  /** Adding A then B and removing A leaves exactly B's line. */
  lemma RemoveScenario()
    ensures var a, b := SampleProduct("A", 1000), SampleProduct("B", 500);
      Without(Added(Added([], a, 1), b, 1), a.id) == [CartLine(b, 1)]
  {
    var a, b := SampleProduct("A", 1000), SampleProduct("B", 500);
    assert Added([], a, 1) == [CartLine(a, 1)];
    assert FirstIndex([CartLine(a, 1)], b.id).None? by {
      assert "A" != "B" by { assert "A"[0] != "B"[0]; }
    }
    var s := [CartLine(a, 1), CartLine(b, 1)];
    assert Added([CartLine(a, 1)], b, 1) == s;
    assert s[1..] == [CartLine(b, 1)];
    assert Without(s[1..], a.id) == [CartLine(b, 1)];
  }

  // ---------------------------------------------------------------------------
  // The store

  /** `CartManager`: the process-wide cart, one insertion-ordered list of lines. */
  class CartManager {
    var lines: seq<CartLine>

    ghost predicate Valid()
      reads this
    {
      OneLinePerId(lines)
    }

    /** The store is empty when the process starts. */
    constructor ()
      ensures Valid() && lines == []
    {
      lines := [];
    }

    /** `cartItems.find { it.product.id == productId }`, as an index. */
    method Find(productId: string) returns (index: Option<nat>)
      ensures index == FirstIndex(lines, productId)
    {
      var k := 0;
      while k < |lines|
        invariant 0 <= k <= |lines|
        invariant forall j :: 0 <= j < k ==> lines[j].product.id != productId
      {
        if lines[k].product.id == productId {
          return Some(k);
        }
        k := k + 1;
      }
      return None;
    }

    /** `addToCart`: bump the existing line for that id, or append a new one. */
    method AddToCart(product: Product, quantity: Int32)
      requires Valid()
      modifies this
      ensures Valid()
      ensures lines == Added(old(lines), product, quantity)
    {
      var found := Find(product.id);
      if found.Some? {
        var i := found.value;
        lines := lines[i := CartLine(lines[i].product, Add32(lines[i].quantity, quantity))];
      } else {
        lines := lines + [CartLine(product, quantity)];
      }
      AddedKeepsOneLinePerId(old(lines), product, quantity);
    }

    /** `removeFromCart`: drop every line with that id, keeping the others in order. */
    method RemoveFromCart(productId: string)
      requires Valid()
      modifies this
      ensures Valid()
      ensures lines == Without(old(lines), productId)
    {
      var s := lines;
      var kept: seq<CartLine> := [];
      var k := 0;
      while k < |s|
        invariant 0 <= k <= |s|
        invariant kept == Without(s[..k], productId)
      {
        assert s[..k + 1] == s[..k] + [s[k]];
        WithoutAppend(s[..k], [s[k]], productId);
        if s[k].product.id != productId {
          kept := kept + [s[k]];
        }
        k := k + 1;
      }
      assert s[..k] == s;
      WithoutKeepsOneLinePerId(s, productId);
      lines := kept;
    }

    /** `updateQuantity`: set the line's quantity; a quantity of zero or less removes the line. */
    method UpdateQuantity(productId: string, quantity: Int32)
      requires Valid()
      modifies this
      ensures Valid()
      ensures lines == Updated(old(lines), productId, quantity)
    {
      var found := Find(productId);
      if found.Some? {
        var i := found.value;
        ghost var s := lines;
        lines := lines[i := CartLine(lines[i].product, quantity)];
        assert OneLinePerId(lines) by {
          assert forall j :: 0 <= j < |s| ==> lines[j].product.id == s[j].product.id;
        }
        if lines[i].quantity <= 0 {
          RemoveFromCart(productId);
        }
      }
    }

    /** `getCartItems`: a snapshot of the lines, in insertion order. */
    method GetCartItems() returns (items: seq<CartLine>)
      ensures items == lines
    {
      items := lines;
    }

    /** `getCartTotal`: the sum of the line totals, in cents. */
    method GetCartTotal() returns (total: int)
      ensures total == SumOf(lines, LineTotal)
    {
      total := 0;
      var k := 0;
      while k < |lines|
        invariant 0 <= k <= |lines|
        invariant total == SumOf(lines[..k], LineTotal)
      {
        assert lines[..k + 1] == lines[..k] + [lines[k]];
        SumOfAppend(lines[..k], [lines[k]], LineTotal);
        total := total + LineTotal(lines[k]);
        k := k + 1;
      }
      assert lines[..k] == lines;
    }

    /** `getItemCount`: the sum of the quantities, accumulated in a Kotlin `Int`. */
    method GetItemCount() returns (count: Int32)
      ensures count == Wrap32(SumOf(lines, Quantity))
      ensures MinInt <= SumOf(lines, Quantity) <= MaxInt ==> count == SumOf(lines, Quantity)
    {
      count := 0;
      var k := 0;
      while k < |lines|
        invariant 0 <= k <= |lines|
        invariant count == Wrap32(SumOf(lines[..k], Quantity))
      {
        assert lines[..k + 1] == lines[..k] + [lines[k]];
        SumOfAppend(lines[..k], [lines[k]], Quantity);
        WrapAdd(SumOf(lines[..k], Quantity), lines[k].quantity);
        Add32IsWrap(count, lines[k].quantity);
        count := Add32(count, lines[k].quantity);
        k := k + 1;
      }
      assert lines[..k] == lines;
    }

    /** `clearCart`: drop every line. */
    method ClearCart()
      requires Valid()
      modifies this
      ensures Valid() && lines == []
    {
      lines := [];
    }

    /** The "in cart" test of the catalog and product screens. */
    function Contains(productId: string): (b: bool)
      reads this
      ensures b <==> exists i :: 0 <= i < |lines| && lines[i].product.id == productId
    {
      FirstIndex(lines, productId).Some?
    }
  }
}

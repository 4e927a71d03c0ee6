/**
 * The computation inside `calculateTotal`: the subtotal is a `reduce` over the
 * items starting at 0, adding `price * quantity` per item from the left, and
 * the total is `subtotal - discount + taxes`.
 */
module Totals {

  import opened LineItems

  /** What one line adds to the subtotal. */
  function Amount(it: LineItem): int
  {
    it.price * it.quantity
  }

  /** The `reduce` callback applied from the left, starting from `acc`. */
  function Fold(acc: int, items: seq<LineItem>): int
    decreases |items|
  {
    if items == [] then acc else Fold(acc + Amount(items[0]), items[1..])
  }

  /** `items.reduce((acc, item) => acc + item.price * item.quantity, 0)`. */
  function Subtotal(items: seq<LineItem>): int
  {
    Fold(0, items)
  }

  /** `subtotal - discount + taxes`. */
  function Total(items: seq<LineItem>, discount: int, taxes: int): int
  {
    Subtotal(items) - discount + taxes
  }

  /** Reference definition: the sum of the line amounts, peeled off the end. */
  function Sum(items: seq<LineItem>): int
    decreases |items|
  {
    if items == [] then 0 else Sum(items[..|items| - 1]) + Amount(items[|items| - 1])
  }

  lemma {:induction false} SumCons(x: LineItem, s: seq<LineItem>)
    ensures Sum([x] + s) == Amount(x) + Sum(s)
    decreases |s|
  {
    var t := [x] + s;
    if s == [] {
      assert t[..|t| - 1] == [];
    } else {
      assert t[..|t| - 1] == [x] + s[..|s| - 1];
      SumCons(x, s[..|s| - 1]);
    }
  }

  lemma {:induction false} SumConcat(a: seq<LineItem>, b: seq<LineItem>)
    ensures Sum(a + b) == Sum(a) + Sum(b)
    decreases |b|
  {
    if b == [] {
      assert a + b == a;
    } else {
      var t := a + b;
      assert t[..|t| - 1] == a + b[..|b| - 1];
      SumConcat(a, b[..|b| - 1]);
    }
  }

  /** The left fold from `acc` adds the reference sum to `acc`. */
  lemma {:induction false} FoldIsSum(acc: int, items: seq<LineItem>)
    ensures Fold(acc, items) == acc + Sum(items)
    decreases |items|
  {
    if items != [] {
      FoldIsSum(acc + Amount(items[0]), items[1..]);
      SumCons(items[0], items[1..]);
      assert [items[0]] + items[1..] == items;
    }
  }

  /** The subtotal is the sum of price × quantity over all items. */
  lemma SubtotalIsSum(items: seq<LineItem>)
    ensures Subtotal(items) == Sum(items)
  {
    FoldIsSum(0, items);
  }

  /** Appending a line adds exactly that line's amount. */
  lemma SubtotalAppend(items: seq<LineItem>, x: LineItem)
    ensures Subtotal(items + [x]) == Subtotal(items) + Amount(x)
  {
    SubtotalIsSum(items + [x]);
    SubtotalIsSum(items);
    SumConcat(items, [x]);
    assert Sum([x]) == Sum([x][..0]) + Amount(x);
  }

  /** Appending the default item (price 0) leaves the subtotal as it was. */
  lemma SubtotalAddDefault(items: seq<LineItem>)
    ensures Subtotal(items + [DefaultItem()]) == Subtotal(items)
  {
    SubtotalAppend(items, DefaultItem());
  }

  /** Removing line `i` takes exactly that line's amount off the subtotal. */
  lemma SubtotalRemoveAt(items: seq<LineItem>, i: nat)
    requires i < |items|
    ensures Subtotal(RemoveAt(items, i)) == Subtotal(items) - Amount(items[i])
  {
    var r := RemoveAt(items, i);
    assert r == items[..i] + items[i + 1..];
    assert items == items[..i] + ([items[i]] + items[i + 1..]);
    SumConcat(items[..i], items[i + 1..]);
    SumConcat(items[..i], [items[i]] + items[i + 1..]);
    SumCons(items[i], items[i + 1..]);
    SubtotalIsSum(r);
    SubtotalIsSum(items);
  }

  /** Editing line `i` swaps its old amount for the new one. */
  lemma SubtotalUpdate(items: seq<LineItem>, i: nat, x: LineItem)
    requires i < |items|
    ensures Subtotal(items[i := x]) == Subtotal(items) - Amount(items[i]) + Amount(x)
  {
    var u := items[i := x];
    assert items == items[..i] + ([items[i]] + items[i + 1..]);
    assert u == items[..i] + ([x] + items[i + 1..]);
    SumConcat(items[..i], [items[i]] + items[i + 1..]);
    SumConcat(items[..i], [x] + items[i + 1..]);
    SumCons(items[i], items[i + 1..]);
    SumCons(x, items[i + 1..]);
    SubtotalIsSum(u);
    SubtotalIsSum(items);
  }
}

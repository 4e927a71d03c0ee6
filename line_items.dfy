/**
 * The line items of the invoice form: one `{item, price, quantity}` group of
 * the `items` form array per entry.  Prices and quantities are exact integers
 * here; the form's JavaScript numbers are not modelled.
 */
module LineItems {

  /** One line of the invoice: its name (`item`), unit price and quantity. */
  datatype LineItem = LineItem(item: string, price: int, quantity: int)

  /** The group `createItemFormGroup` builds: empty name, price 0, quantity 1. */
  function DefaultItem(): (d: LineItem)
    ensures d.item == "" && d.price == 0 && d.quantity == 1
    ensures d.price * d.quantity == 0
  {
    LineItem("", 0, 1)
  }

  /**
   * What `removeAt(index)` does to the array's value: element `i` is gone and
   * every other element keeps its relative order.
   */
  function RemoveAt<T>(s: seq<T>, i: nat): (r: seq<T>)
    requires i < |s|
    ensures |r| == |s| - 1
    ensures forall j :: 0 <= j < i ==> r[j] == s[j]
    ensures forall j :: i <= j < |r| ==> r[j] == s[j + 1]
    ensures multiset(r) + multiset{s[i]} == multiset(s)
  {
    assert s == s[..i] + [s[i]] + s[i + 1..];
    s[..i] + s[i + 1..]
  }
}

/**
 * `InventarioComponent`: the invoice form's state and the handlers that change
 * it.  The Angular form controls become fields; the RxJS subscriptions become
 * event methods (`OnItemsValueChanges`, `OnItemsStatusChanges`) that the
 * `items` array is taken to call in arrival order; the 5000 ms `delay` becomes
 * a count of scheduled clears and a `TimerFired` event.
 */
module Inventario {

  import opened Wrappers
  import opened LineItems
  import opened Totals
  import opened Triggers
  import opened Export

  class InventoryForm {
    var customerName: string
    var currency: string
    var idRef: string
    var items: seq<LineItem>
    var discount: int
    var taxes: int
    var subtotal: int
    var total: int
    var showErrorItems: bool
    /** Clears of `showErrorItems` scheduled by `deleteItems` that have not fired yet. */
    var pendingClears: nat
    /** The state of `distinctUntilChanged`: the item values that last passed it. */
    var lastItems: Option<seq<LineItem>>
    /** Every emission of the `items` array since the subscription was made. */
    ghost var emissions: seq<Emission>

    /**
     * The form always holds at least one item, a shown warning always has a
     * clear scheduled (so it is hidden again at the latest when that clear
     * fires), and the de-duplicating operator remembers the last value the
     * array emitted.
     */
    ghost predicate Valid()
      reads this
    {
      && |items| >= 1
      && (showErrorItems ==> pendingClears > 0)
      && lastItems == LastValue(emissions)
    }

    /** The form built and wired by `ngOnInit`, after its first `calculateTotal`. */
    constructor ()
      ensures Valid()
      ensures customerName == "" && currency == "EUR" && idRef == ""
      ensures items == [DefaultItem()]
      ensures discount == 0 && taxes == 0
      ensures subtotal == 0 && total == 0
      ensures !showErrorItems && pendingClears == 0
      ensures emissions == []
    {
      customerName, currency, idRef := "", "EUR", "";
      items := [DefaultItem()];
      discount, taxes := 0, 0;
      subtotal, total := 0, 0;
      showErrorItems := false;
      pendingClears := 0;
      lastItems := None;
      emissions := [];
      new;
      CalculateTotal();
      assert [DefaultItem()][1..] == [];
    }

    /** Appends a default item; nothing else changes. */
    method AddItem()
      requires Valid()
      modifies this`items
      ensures Valid()
      ensures items == old(items) + [DefaultItem()]
    {
      items := items + [DefaultItem()];
    }

    /**
     * Removes item `index` when there is more than one, then raises the
     * warning exactly when one item is left, scheduling one clear for it.
     * `removeAt` makes the array emit its new value and then `status`, its
     * new status, synchronously inside the call, so both are delivered
     * between the removal and the raise of the warning.
     */
    method DeleteItems(index: nat, status: FormStatus)
      requires Valid()
      requires index < |items|
      modifies this`items, this`showErrorItems, this`pendingClears
      modifies this`lastItems, this`emissions, this`subtotal, this`total
      ensures Valid()
      ensures old(|items|) > 1 ==> items == RemoveAt(old(items), index)
      ensures old(|items|) > 1 ==>
        emissions == old(emissions) + [ItemsValue(items), ItemsStatus(status)]
      ensures old(|items|) > 1 && (old(lastItems) != Some(items) || status == Invalid) ==>
        subtotal == Subtotal(items) && total == Total(items, discount, taxes)
      ensures old(|items|) > 1 && old(lastItems) == Some(items) && status != Invalid ==>
        subtotal == old(subtotal) && total == old(total)
      ensures old(|items|) == 1 ==> items == old(items) && emissions == old(emissions)
      ensures old(|items|) == 1 ==> subtotal == old(subtotal) && total == old(total)
      ensures showErrorItems <==> |items| == 1
      ensures pendingClears == old(pendingClears) + (if |items| == 1 then 1 else 0)
    {
      showErrorItems := false;
      if |items| > 1 {
        showErrorItems := false;
        items := RemoveAt(items, index);
        OnItemsValueChanges();
        OnItemsStatusChanges(status);
      }
      if |items| == 1 {
        showErrorItems := true;
        pendingClears := pendingClears + 1;
      }
    }

    /** The oldest scheduled clear fires and hides the warning, whoever set it. */
    method TimerFired()
      requires Valid()
      requires pendingClears > 0
      modifies this`showErrorItems, this`pendingClears
      ensures Valid()
      ensures !showErrorItems
      ensures pendingClears == old(pendingClears) - 1
    {
      showErrorItems := false;
      pendingClears := pendingClears - 1;
    }

    /** Stores the subtotal and the total of the current items, discount and taxes. */
    method CalculateTotal()
      requires Valid()
      modifies this`subtotal, this`total
      ensures Valid()
      ensures subtotal == Subtotal(items)
      ensures total == Total(items, discount, taxes)
    {
      var s := Fold(0, items);
      subtotal := s;
      total := s - discount + taxes;
    }

    /**
     * The `items` array emits its current value; it reaches `calculateTotal`
     * only when it differs from the last value that got through.
     */
    method OnItemsValueChanges()
      requires Valid()
      modifies this`lastItems, this`emissions, this`subtotal, this`total
      ensures Valid()
      ensures emissions == old(emissions) + [ItemsValue(items)]
      ensures Fires(emissions, |emissions| - 1) <==> old(lastItems) != Some(items)
      ensures Fires(emissions, |emissions| - 1) ==>
        subtotal == Subtotal(items) && total == Total(items, discount, taxes)
      ensures !Fires(emissions, |emissions| - 1) ==>
        subtotal == old(subtotal) && total == old(total)
    {
      emissions := emissions + [ItemsValue(items)];
      assert emissions[..|emissions| - 1] == old(emissions);
      if lastItems != Some(items) {
        lastItems := Some(items);
        CalculateTotal();
      }
    }

    /**
     * The `items` array emits its status: VALID hides the warning, INVALID
     * reaches `calculateTotal`, any other status does neither.
     */
    method OnItemsStatusChanges(status: FormStatus)
      requires Valid()
      modifies this`emissions, this`showErrorItems, this`subtotal, this`total
      ensures Valid()
      ensures emissions == old(emissions) + [ItemsStatus(status)]
      ensures Fires(emissions, |emissions| - 1) <==> status == Invalid
      ensures showErrorItems == (old(showErrorItems) && status != FormStatus.Valid)
      ensures status == Invalid ==>
        subtotal == Subtotal(items) && total == Total(items, discount, taxes)
      ensures status != Invalid ==>
        subtotal == old(subtotal) && total == old(total)
    {
      emissions := emissions + [ItemsStatus(status)];
      assert emissions[..|emissions| - 1] == old(emissions);
      if status == FormStatus.Valid {
        showErrorItems := false;
      }
      if status == Invalid {
        CalculateTotal();
      }
    }

    /** The user edits item `index`; the form array's emissions follow as events. */
    method EditItem(index: nat, it: LineItem)
      requires Valid()
      requires index < |items|
      modifies this`items
      ensures Valid()
      ensures items == old(items)[index := it]
    {
      items := items[index := it];
    }

    /** The user edits the discount control, which is not among the triggers. */
    method SetDiscount(d: int)
      requires Valid()
      modifies this`discount
      ensures Valid()
      ensures discount == d
    {
      discount := d;
    }

    /** The user edits the taxes control, which is not among the triggers. */
    method SetTaxes(t: int)
      requires Valid()
      modifies this`taxes
      ensures Valid()
      ensures taxes == t
    {
      taxes := t;
    }

    /** The user edits the customer, currency and reference controls. */
    method SetHeader(name: string, cur: string, ref: string)
      requires Valid()
      modifies this`customerName, this`currency, this`idRef
      ensures Valid()
      ensures customerName == name && currency == cur && idRef == ref
    {
      customerName, currency, idRef := name, cur, ref;
    }

    /** `inventoryForm.value`. */
    function Value(): FormValue
      reads this
    {
      FormValue(customerName, currency, idRef, items, discount, taxes, total)
    }

    /** The records `generateDefaultReport` hands to the spreadsheet writer. */
    method GenerateDefaultReport() returns (rows: seq<ExportRow>)
      requires Valid()
      ensures rows == ExportRows(Value())
      ensures |rows| == |items| >= 1
    {
      rows := MapRows(Value(), items);
    }
  }

  /**
   * Two line items (10 × 2 and 5 × 1) with discount 3 and taxes 2 give
   * subtotal 25 and total 24.
   */
  method WorkedExample() returns (sub: int, tot: int)
    ensures sub == 25 && tot == 24
  {
    var f := new InventoryForm();
    f.EditItem(0, LineItem("a", 10, 2));
    f.AddItem();
    f.EditItem(1, LineItem("b", 5, 1));
    f.SetDiscount(3);
    f.SetTaxes(2);
    f.CalculateTotal();
    assert f.items == [LineItem("a", 10, 2), LineItem("b", 5, 1)];
    assert f.items[1..] == [LineItem("b", 5, 1)] && f.items[1..][1..] == [];
    assert Fold(0, f.items) == Fold(20, [LineItem("b", 5, 1)]) == Fold(25, []);
    sub, tot := f.subtotal, f.total;
  }

  /** `calculateTotal` twice in a row stores the same subtotal and total. */
  method CalculateTotalTwice(f: InventoryForm) returns (same: bool)
    requires f.Valid()
    modifies f
    ensures same
  {
    f.CalculateTotal();
    var s, t := f.subtotal, f.total;
    f.CalculateTotal();
    same := f.subtotal == s && f.total == t;
  }

  /**
   * The clear scheduled by an earlier `deleteItems` hides the warning raised
   * by a later one while the later call's own clear is still pending.
   */
  method WarningRace() returns (shownAfterSecond: bool, shownAfterFirstClear: bool, stillPending: nat)
    ensures shownAfterSecond && !shownAfterFirstClear && stillPending == 1
  {
    var f := new InventoryForm();
    f.AddItem();
    f.DeleteItems(1, Invalid);
    f.DeleteItems(0, Invalid);
    shownAfterSecond := f.showErrorItems;
    f.TimerFired();
    shownAfterFirstClear := f.showErrorItems;
    stillPending := f.pendingClears;
  }

  /**
   * A removal from two items to one keeps the warning on even when the array
   * reports VALID during the removal: the status tap runs inside
   * `deleteItems`, before the warning is raised.
   */
  method RemovalReportsValid() returns (shown: bool, pending: nat)
    ensures shown && pending == 1
  {
    var f := new InventoryForm();
    f.EditItem(0, LineItem("a", 0, 1));
    f.AddItem();
    f.DeleteItems(1, FormStatus.Valid);
    shown, pending := f.showErrorItems, f.pendingClears;
  }

  /**
   * A discount edit triggers nothing, so the exported rows keep the stored
   * total, which then differs from the total of the current form.
   */
  method StaleExportTotal() returns (exported: int, current: int)
    ensures exported == 0 && current == -5
  {
    var f := new InventoryForm();
    f.SetDiscount(5);
    var rows := f.GenerateDefaultReport();
    ExportRowAt(f.Value(), 0);
    exported := rows[0].total;
    assert Fold(0, f.items) == Fold(0, []);
    current := Total(f.items, f.discount, f.taxes);
  }

  /**
   * The same item values emitted twice recompute once, so a discount edit in
   * between is not picked up; an edit of a name alone recomputes again.
   */
  method DedupScenario() returns (afterRepeat: int, afterRename: int)
    ensures afterRepeat == 0 && afterRename == -1
  {
    var f := new InventoryForm();
    f.OnItemsValueChanges();
    f.SetDiscount(1);
    f.OnItemsValueChanges();
    afterRepeat := f.total;
    f.EditItem(0, LineItem("x", 0, 1));
    f.OnItemsValueChanges();
    assert f.items[1..] == [] && Fold(0, f.items) == Fold(0, []);
    afterRename := f.total;
  }
}

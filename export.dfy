/**
 * The rows `generateDefaultReport` hands to the spreadsheet writer: one flat
 * record per item, carrying the item's own columns and the form-level
 * columns repeated on every row.
 */
module Export {

  import opened LineItems
  import Totals

  /**
   * `inventoryForm.value`: the enabled controls only, so the disabled
   * `subtotal` control is absent while the stored `total` is present.
   */
  datatype FormValue = FormValue(
    customerName: string,
    currency: string,
    idRef: string,
    items: seq<LineItem>,
    discount: int,
    taxes: int,
    total: int)

  /**
   * One exported record, with the source's column keys: `item`, `precio`,
   * `cantidad`, `subtotal`, `Nombre Cliente`, `moneda`, `ID Ref`, `total`.
   */
  datatype ExportRow = ExportRow(
    item: string,
    precio: int,
    cantidad: int,
    subtotal: int,
    nombreCliente: string,
    moneda: string,
    idRef: string,
    total: int)

  /** The record the `map` callback builds for one item. */
  function RowOf(v: FormValue, it: LineItem): ExportRow
  {
    ExportRow(it.item, it.price, it.quantity, it.price * it.quantity,
              v.customerName, v.currency, v.idRef, v.total)
  }

  function MapRows(v: FormValue, items: seq<LineItem>): (rows: seq<ExportRow>)
    ensures |rows| == |items|
    decreases |items|
  {
    if items == [] then [] else [RowOf(v, items[0])] + MapRows(v, items[1..])
  }

  /** `formValues.items.map(...)`: one row per item, in item order. */
  function ExportRows(v: FormValue): (rows: seq<ExportRow>)
    ensures |rows| == |v.items|
  {
    MapRows(v, v.items)
  }

  lemma {:induction false} MapRowsAt(v: FormValue, items: seq<LineItem>, i: nat)
    requires i < |items|
    ensures MapRows(v, items)[i] == RowOf(v, items[i])
    decreases |items|
  {
    if i > 0 {
      MapRowsAt(v, items[1..], i - 1);
    }
  }

  /**
   * Row `i` carries item `i`'s name, price and quantity, their product as its
   * subtotal, and the form's customer, currency, reference and stored total.
   */
  lemma ExportRowAt(v: FormValue, i: nat)
    requires i < |v.items|
    ensures var row := ExportRows(v)[i];
      && row.item == v.items[i].item
      && row.precio == v.items[i].price
      && row.cantidad == v.items[i].quantity
      && row.subtotal == Totals.Amount(v.items[i])
      && row.nombreCliente == v.customerName
      && row.moneda == v.currency
      && row.idRef == v.idRef
      && row.total == v.total
  {
    MapRowsAt(v, v.items, i);
  }

  /** The line item a row was made from. */
  function ItemOfRow(row: ExportRow): LineItem
  {
    LineItem(row.item, row.precio, row.cantidad)
  }

  function ItemsOfRows(rows: seq<ExportRow>): seq<LineItem>
    decreases |rows|
  {
    if rows == [] then [] else [ItemOfRow(rows[0])] + ItemsOfRows(rows[1..])
  }

  lemma {:induction false} MapRowsRoundTrip(v: FormValue, items: seq<LineItem>)
    ensures ItemsOfRows(MapRows(v, items)) == items
    decreases |items|
  {
    if items != [] {
      var rows := MapRows(v, items);
      assert rows[1..] == MapRows(v, items[1..]);
      MapRowsRoundTrip(v, items[1..]);
      assert [items[0]] + items[1..] == items;
    }
  }

  /** The rows lose no item data: reading the item columns back gives the items. */
  lemma ExportRoundTrip(v: FormValue)
    ensures ItemsOfRows(ExportRows(v)) == v.items
  {
    MapRowsRoundTrip(v, v.items);
  }

  /** The sum of a `subtotal` column. */
  function ColumnSum(rows: seq<ExportRow>): int
    decreases |rows|
  {
    if rows == [] then 0 else rows[0].subtotal + ColumnSum(rows[1..])
  }

  lemma {:induction false} MapRowsColumnSum(v: FormValue, items: seq<LineItem>)
    ensures ColumnSum(MapRows(v, items)) == Totals.Sum(items)
    decreases |items|
  {
    if items != [] {
      var rows := MapRows(v, items);
      assert rows[1..] == MapRows(v, items[1..]);
      MapRowsColumnSum(v, items[1..]);
      Totals.SumCons(items[0], items[1..]);
      assert [items[0]] + items[1..] == items;
    }
  }

  /** The exported `subtotal` column adds up to the subtotal of the items. */
  lemma ExportColumnSum(v: FormValue)
    ensures ColumnSum(ExportRows(v)) == Totals.Subtotal(v.items)
  {
    MapRowsColumnSum(v, v.items);
    Totals.SubtotalIsSum(v.items);
  }
}

# Inventory invoice form — verified model

This project models the logic of `InventarioComponent`, the one component of the
inventory/invoice entry application with real logic. The user fills in a customer, a
reference id, a currency, a discount, taxes and a list of line items (name, price,
quantity). The form keeps a subtotal and a total, lets the user add and delete items,
and exports one spreadsheet row per item.

The model has six modules:

- `LineItems` (`line_items.dfy`): the line item record, the default item built by
  `createItemFormGroup`, and what `removeAt` does to the array's value.
- `Totals` (`totals.dfy`): the `reduce` in `calculateTotal` as a left fold. It is
  proved equal to a reference sum of price × quantity. Further lemmas cover how
  adding, removing and editing an item move the subtotal.
- `Triggers` (`triggers.dfy`): the merged recompute stream as a pure filter over a
  sequence of emissions of the `items` array. Value emissions go through
  `distinctUntilChanged`; status emissions go through the VALID/INVALID tap and
  filter. The filter is proved equal to a reference predicate: an emission fires
  when it is a value that differs from the previous value, or when it is INVALID.
- `Export` (`export.dfy`): the row projection of `generateDefaultReport`. It comes
  with a round trip back to the items and the sum of the exported subtotal column.
- `Inventario` (`inventario.dfy`): the component as a class `InventoryForm`.
  - The constructor is `ngOnInit`.
  - `AddItem`, `DeleteItems` and `CalculateTotal` mirror the source.
  - `OnItemsValueChanges` and `OnItemsStatusChanges` stand for the two subscribed
    streams.
  - `TimerFired` stands for one scheduled clear of the warning firing.
  - `EditItem`, `SetDiscount`, `SetTaxes` and `SetHeader` stand for the user
    typing into the form controls.
  - Client methods at the end play out concrete scenarios.
- `Wrappers` (`wrappers.dfy`): an `Option` type.

Behaviour the model follows from the code:

- A shown warning always has a clear pending, so the warning is hidden again at the latest when that clear fires (part of `Valid()`).
- `deleteItems` raises `showErrorItems` whenever exactly one item is left after the
  call. That includes a successful removal from two items to one, not only a
  refused removal at one item.
- Every such call schedules its own clear, and no clear is ever cancelled. An
  earlier call's clear therefore hides a warning that a later call raised
  (`WarningRace`).
- The `tap` before `distinctUntilChanged` only rebinds its own parameter. The
  comparison is therefore over whole item values, names included, not over prices
  and quantities alone.
- Discount and taxes are not among the triggers. The exported rows carry the
  stored `total`, which can be stale (`StaleExportTotal`).
- `inventoryForm.value` leaves out the disabled `subtotal` control, so `FormValue`
  has no subtotal field.

## Model

| member | source | states |
|---|---|---|
| `Inventario.InventoryForm.constructor` | src/app/features/inventario/inventario.component.ts:28-68 | initial form: one default item, currency "EUR", empty customer and reference, discount and taxes 0, warning off, no clear pending; after the first `calculateTotal` subtotal and total are 0 |
| `Inventario.InventoryForm.AddItem` | src/app/features/inventario/inventario.component.ts:70-72 | appends exactly one default item at the end; existing items, their order, the warning and every other field are unchanged; at least one item remains |
| `Inventario.InventoryForm.DeleteItems` | src/app/features/inventario/inventario.component.ts:100-115 | with more than one item removes exactly item `index`, others kept in order, and delivers the array's new value and the given status inside the call (recomputing as those events dictate); with one item the list, the history and the totals are unchanged, so the list never becomes empty; afterwards the warning is on iff one item is left, whatever status was delivered, each such call adds one pending clear, and a shown warning always has a clear pending |
| `Inventario.InventoryForm.TimerFired` | src/app/features/inventario/inventario.component.ts:109-113 | a pending clear firing turns the warning off whatever later calls did, and one fewer clear is pending |
| `Inventario.InventoryForm.CalculateTotal` | src/app/features/inventario/inventario.component.ts:74-87 | stores subtotal = left fold of price × quantity and total = subtotal − discount + taxes; items, discount and taxes are untouched |
| `Inventario.InventoryForm.OnItemsValueChanges` | src/app/features/inventario/inventario.component.ts:40-54 | a value emission recomputes iff it differs from the last value that passed (the first always passes); the result agrees with the reference `Fires` on the history; otherwise subtotal and total are unchanged |
| `Inventario.InventoryForm.OnItemsStatusChanges` | src/app/features/inventario/inventario.component.ts:56-65 | VALID turns the warning off and recomputes nothing; INVALID recomputes and leaves the warning; other statuses do neither |
| `Inventario.InventoryForm.GenerateDefaultReport` | src/app/features/inventario/inventario.component.ts:117-133 | the records handed to the writer are the export projection of the current form value, one per item and at least one |
| `Inventario.WorkedExample` | src/app/features/inventario/inventario.component.ts:74-87 | items (10, 2) and (5, 1) with discount 3 and taxes 2 give subtotal 25 and total 24 |
| `Inventario.CalculateTotalTwice` | src/app/features/inventario/inventario.component.ts:74-87 | running `calculateTotal` twice in a row stores the same subtotal and total |
| `Inventario.RemovalReportsValid` | src/app/features/inventario/inventario.component.ts:56-60 | a removal from two items to one that reports VALID still leaves the warning on, because the status tap runs before lines 107-108 raise it |
| `Inventario.WarningRace` | src/app/features/inventario/inventario.component.ts:107-113 | after a 2→1 removal and a refused removal, the first clear hides the warning while the second call's clear is still pending |
| `Inventario.StaleExportTotal` | src/app/features/inventario/inventario.component.ts:120-131 | a discount edit triggers no recompute, so the exported total (0) differs from the current form's total (−5) |
| `Inventario.DedupScenario` | src/app/features/inventario/inventario.component.ts:50-52 | re-emitting identical items does not recompute; changing only an item's name does |
| `LineItems.DefaultItem` | src/app/features/inventario/inventario.component.ts:89-95 | the item `createItemFormGroup` builds has an empty name, price 0 and quantity 1, so it adds 0 to the subtotal |
| `LineItems.RemoveAt` | src/app/features/inventario/inventario.component.ts:105 | removes exactly element `i`: length drops by one, earlier elements keep their index, later ones shift down by one, multiset loses exactly `s[i]` |
| `Totals.FoldIsSum` | src/app/features/inventario/inventario.component.ts:77-80 | the left fold from any accumulator equals the accumulator plus the reference sum of price × quantity |
| `Totals.SubtotalIsSum` | src/app/features/inventario/inventario.component.ts:77-80 | the subtotal equals the reference sum of price × quantity over all items |
| `Totals.SubtotalAppend` | src/app/features/inventario/inventario.component.ts:77-80 | appending an item adds exactly its price × quantity to the subtotal |
| `Totals.SubtotalAddDefault` | src/app/features/inventario/inventario.component.ts:89-95 | appending the default item (price 0) leaves the subtotal unchanged |
| `Totals.SubtotalRemoveAt` | src/app/features/inventario/inventario.component.ts:103-106 | removing item `i` subtracts exactly its price × quantity from the subtotal |
| `Totals.SubtotalUpdate` | src/app/features/inventario/inventario.component.ts:77-80 | editing item `i` replaces its amount in the subtotal by the new item's amount |
| `Triggers.Filter` | src/app/features/inventario/inventario.component.ts:40-65 | the merged pipeline run from a given dedup state yields exactly one fire/no-fire flag per emission |
| `Triggers.Triggers` | src/app/features/inventario/inventario.component.ts:63-65 | a fresh subscription yields one flag per emission |
| `Triggers.FilterAfter` | src/app/features/inventario/inventario.component.ts:50-52 | the pipeline resumed after a history `p` fires exactly where the reference predicate does on `p` followed by the new emissions |
| `Triggers.TriggersSpec` | src/app/features/inventario/inventario.component.ts:40-65 | emission `i` fires iff it is a value differing from the previous value emitted (or none came before), or the status INVALID |
| `Triggers.FirstValueFires` | src/app/features/inventario/inventario.component.ts:50-52 | the first value emission always fires |
| `Triggers.RepeatedValueDoesNotFire` | src/app/features/inventario/inventario.component.ts:50-52 | a value equal to the previous value emission never fires, even with status emissions in between |
| `Triggers.ChangedValueFires` | src/app/features/inventario/inventario.component.ts:42-52 | a value differing from the previous value emission in any field, the name included, fires |
| `Triggers.StatusFiresIffInvalid` | src/app/features/inventario/inventario.component.ts:56-61 | a status emission fires iff it is INVALID; VALID and the others never do |
| `Export.ExportRows` | src/app/features/inventario/inventario.component.ts:123-132 | one row per item |
| `Export.ExportRowAt` | src/app/features/inventario/inventario.component.ts:123-132 | row `i` carries item `i`'s name, price and quantity, subtotal = price × quantity, and the form's customer name, currency, reference id and stored total |
| `Export.ExportRoundTrip` | src/app/features/inventario/inventario.component.ts:123-126 | reading the item, precio and cantidad columns back gives exactly the form's items, in order |
| `Export.ExportColumnSum` | src/app/features/inventario/inventario.component.ts:127 | the exported subtotal column adds up to the subtotal of the items |

## Left out

- Spreadsheet creation, the sheet name "Hoja 1" and the write to `test.xlsx` (lines 118, 135-144): a foreign library and file I/O. The model stops at the rows handed to the writer.
- `getForm` and the `console.log` calls (lines 75, 146-153): debug output only.
- Angular's form machinery and `Validators.required`: the status of the `items` array is an input to `OnItemsStatusChanges`, not derived from the item values.
- The emissions Angular makes on its own, except inside a removal: adding or editing an item does not emit anything in the model, and the caller calls `OnItemsValueChanges` and `OnItemsStatusChanges` afterwards. Nothing follows the `push` in `addItem`, so that order is the source's. A removal's value and status are delivered inside `DeleteItems`, whose caller supplies the status the array reports.
- RxJS scheduling and the real 5000 ms delay: each scheduled clear is a pending count, and its firing is the `TimerFired` event. Clears are interchangeable, so the count does not record which call scheduled which clear.
- JavaScript numbers: prices, quantities, discount, taxes and totals are exact integers. Floating point, NaN and string concatenation through `+` are not modelled.
- `src/app/app.component.ts`: the application shell, a title string with no logic.
- Inventario.InventoryForm.DeleteItems: requires `index` to be a position in the list, as the template always passes one. What Angular's `removeAt` does with a negative or out-of-range index is not modelled.
- Inventario.InventoryForm.TimerFired: requires a pending clear, since a clear fires only after some call has scheduled it.

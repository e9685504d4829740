# Point-of-sale and invoicing core, modelled in Dafny

This project models the core of a small desktop point-of-sale and invoicing
application written in Python with Tkinter and SQLite. The model covers:

- the SQLite tables behind the record classes, with their save/delete/lookup
  and ordered listings (`database/models.py`);
- registering a sale with its detail lines and stock updates, and the sale
  queries (`controllers/venta_controller.py`);
- invoice numbering, invoice records, invoice lines and totals
  (`controllers/factura_controller.py`);
- amount and date formatting and the line subtotal (`utils/helpers.py`), with
  the currency settings they read (`config/config_manager.py`);
- the logic behind four forms: the sale form (`views/venta_view.py`), the
  invoice form (`views/factura_view.py`), the "invoice a sale" form
  (`views/generar_factura_view.py`) and the settings form
  (`views/config_view.py`).

How the files are laid out:

| file | module | models |
|---|---|---|
| `wrappers.dfy` | `Wrappers` | `Option` and `Result` |
| `text.dfy` | `Text` | the Python string built-ins the core relies on: `str(int)`, `int(str)`, `float(str)` on plain decimals, `strip`, `replace`, `split`, `zfill` |
| `models.dfy` | `Models` | each table is a `Table<R>` class: a map from id to row plus the next AUTOINCREMENT id. A record object is a `Record<R>` with an optional id. Listings are `Entries` in id order, sorted by SQLite's binary text order `TextLe` |
| `helpers.dfy` | `Helpers` | `format_currency`, `format_date`, `calculate_subtotal` and the invoice-number timestamp |
| `venta_controller.dfy` | `VentaController` | `crear_venta`, `get_detalles_venta`, `buscar_ventas_por_fecha` |
| `factura_controller.dfy` | `FacturaController` | the invoice controller operations |
| `venta_view.dfy`, `factura_view.dfy`, `generar_factura_view.dfy`, `config_view.dfy` | one module each | each form is a class whose fields are the form's variables (the `StringVar`s and the product list). Its methods are the form's handlers |

How the outside world is represented:

- Dialogs are outcomes: the message a handler would show is the value it
  returns.
- The clock is a parameter: `today` for the date text, `now` for the
  timestamp.
- A storage failure is a parameter: `FailurePoint` for `crear_venta`, and
  `queryFails` for the numbering query.

## Model

| member | source | states |
|---|---|---|
| Models.Updated | database/models.py:70-74 | an UPDATE by id replaces exactly the row with that id and keeps the set of ids; an unknown id changes nothing |
| Models.StockWritten | database/models.py:86-89 | writing a product's stock changes only the stock column of that one row |
| Models.Table.Insert | database/models.py:65-69 | an INSERT stores the row under a fresh id that no earlier row has, returns that id (`lastrowid`) and leaves every other row as it was |
| Models.Table.Update | database/models.py:70-74 | the table afterwards is `Updated` of the old rows; the id counter does not move |
| Models.Table.Remove | database/models.py:78-81 | a DELETE removes exactly that id and nothing else |
| Models.Table.Get | database/models.py:94-102 | a lookup by id finds a row exactly when the id is stored, and returns that row |
| Models.Record.constructor | database/models.py:54-61 | a record object holds the given optional id and column values |
| Models.Record.Save | database/models.py:63-74 | an object without an id is inserted and takes the new id; an object with an id updates that row and keeps its id; both return the id |
| Models.Record.Delete | database/models.py:76-82 | a delete happens exactly when the object's id is truthy (neither None nor 0), removes only that row and returns True; otherwise nothing changes and it returns False |
| Models.GetById | database/models.py:93-102 | `get_by_id` builds an object exactly when the id is stored, carrying that id and that row's columns |
| Models.UpdateStock | database/models.py:84-91 | with a truthy id the object's stock grows by the quantity, which may be negative, and the same value is written to that product's row only; without one, nothing changes and it returns False |
| Models.EntriesMember | database/models.py:105-111 | an entry is in the id-ordered listing exactly when it is a stored row with an id below the counter |
| Models.EntriesIncreasing | database/models.py:105-111 | the listing is in strictly increasing id order, so it has no duplicates |
| Models.AllEntries | database/models.py:105-111 | a full table scan lists exactly the stored rows |
| Models.FilterMember | database/models.py:194-199 | a WHERE filter keeps exactly the listed rows that satisfy the condition |
| Models.FilterConcat | database/models.py:194-199 | filtering a concatenation is the concatenation of the filtered parts, so the scan order is kept |
| Models.GetByVentaMember | database/models.py:194-199 | `get_by_venta` lists exactly the stored detail rows of that sale |
| Models.TextLeTotal | database/models.py:50 | SQLite's binary text order is total |
| Models.TextLeTrans | database/models.py:50 | SQLite's binary text order is transitive |
| Models.TextLeAntisym | database/models.py:50 | SQLite's binary text order is antisymmetric |
| Models.SortByCorrect | database/models.py:47-52 | ORDER BY yields a sorted permutation of the scanned rows, ascending or descending |
| Models.SortedListing | database/models.py:105-111 | an ordered `get_all` lists every stored row exactly once and no other row, in key order |
| Models.ProductosDeCategoriaCorrect | database/models.py:114-120 | `get_by_categoria` is sorted by name and holds exactly the stored products of that category |
| Models.GetAllOrdered | database/models.py:47-52 | `get_all` lists categories, products, clients and employees in ascending name order, and sales in descending date order |
| VentaController.StockAfterEffect | controllers/venta_controller.py:124-126 | after the cart's stock updates, each product's stock has dropped by the total quantity of that product in the cart; no other column and no other product changes |
| VentaController.DetailRowsAt | controllers/venta_controller.py:115-122 | the detail rows get consecutive ids, one per cart line in cart order, each carrying the sale id and that line's product, quantity, unit price and subtotal |
| VentaController.CrearVenta | controllers/venta_controller.py:101-131 | the sale row carries the sum of the line subtotals as its total and is stored under a fresh id. The detail rows and stock updates of each line are made in order. On a failure at any point the method returns None and keeps whatever was written before the failure, since nothing is rolled back. On success it returns the new sale id |
| VentaController.InsertLines | controllers/venta_controller.py:115-126 | the loop inserts the detail row and then decrements stock for each line in turn, and stops at the failing step |
| VentaController.DetailEntries | controllers/venta_controller.py:115-122 | the detail entries of a sale are one per cart line |
| VentaController.CrearVentaListing | controllers/venta_controller.py:101-126 | after a completed sale, `get_by_venta` lists exactly the new detail rows in cart order, and their subtotals add up to the sale total |
| VentaController.JoinProductoMember | controllers/venta_controller.py:87-90 | the inner JOIN keeps exactly the detail rows whose product exists, each paired with that product's name |
| VentaController.GetDetallesVentaMember | controllers/venta_controller.py:85-99 | `get_detalles_venta` returns exactly the stored details of the sale whose product exists, each with the product name |
| VentaController.VentasEnRangoEntries | controllers/venta_controller.py:139 | every stored sale whose date text is in `[desde, hasta]` appears exactly once; nothing else appears |
| VentaController.RangeDistinct | controllers/venta_controller.py:139-140 | the date search has no duplicate sale |
| VentaController.RangeComplete | controllers/venta_controller.py:139 | every sale inside the range is found |
| VentaController.BuscarVentasPorFechaCorrect | controllers/venta_controller.py:133-150 | the result is in descending date order with distinct ids; each row is a stored sale within the bounds, summarised with its client and employee; every such sale is listed |
| Helpers.RoundHalfEven | utils/helpers.py:26 | the rounded integer is within one half of the value |
| Helpers.RoundHalfEvenTies | utils/helpers.py:26 | an exact tie rounds to the even neighbour, as Python's formatting does |
| Helpers.RoundedIsClose | utils/helpers.py:26 | the amount shown with d decimals is within half a unit in the last place of the exact amount |
| Helpers.ShownCurrencyConfig | config/config_manager.py:97-104 | the configuration that `format_currency` reads comes from the later of the two `get_currency_config` definitions: symbol, name, code and decimal places from the stored settings, and no separator keys |
| Helpers.FormatCurrencyAlwaysFallback | utils/helpers.py:16-41 | whatever the settings hold, `format_currency` always takes its fallback "S/ " with two decimals. The separator lookup raises KeyError because the configuration it reads has no separator keys |
| Helpers.FormatCurrencyZero | utils/helpers.py:39-41 | a zero amount is shown as "S/ 0.00" |
| Helpers.FixedTextValue | utils/helpers.py:41 | a `:.Nf` text consists of digits, '-' and '.', ends in a digit, and reads back as the rounded amount |
| Helpers.FormatCurrencyRoundTrip | utils/helpers.py:16-41 | stripping the symbol from a formatted amount and parsing it yields the amount rounded to two decimals |
| Helpers.ReplaceGroupSeparator | utils/helpers.py:29-32 | replacing the ',' group separator by another separator regroups the digits with it |
| Helpers.ReseparatedNumeral | utils/helpers.py:29-36 | splitting at '.', replacing the group separator and rejoining with the decimal separator gives the numeral with the configured separators |
| Helpers.IntendedFormat | utils/helpers.py:19-38 | with separator keys present, the amount is shown as symbol, a space, then the digits grouped by the thousands separator with the decimal separator and the configured places |
| Helpers.CalculateSubtotalIsRepeatedPrice | utils/helpers.py:72-74 | a line subtotal equals the unit price added once per unit of the quantity |
| Helpers.ParseIso | utils/helpers.py:47 | a date that parses is a valid calendar date, leap years included |
| Helpers.ParseDmy | utils/helpers.py:43-50 | a DD/MM/YYYY text that parses is a valid calendar date |
| Helpers.ParseIsoText | utils/helpers.py:47 | every valid date written as YYYY-MM-DD parses back to itself |
| Helpers.FormatDateOfIso | utils/helpers.py:43-50 | `format_date` rewrites a YYYY-MM-DD date as DD/MM/YYYY, and that text reads back as the same date |
| Helpers.ParseIsoCanonical | utils/helpers.py:45-49 | a text that parses as YYYY-MM-DD is exactly the canonical text of its date, so no two texts parse to the same date |
| Helpers.StampTextShape | controllers/factura_controller.py:110 | the `%Y%m%d%H%M%S` timestamp of the fallback number is fourteen digits |
| FacturaController.DigitPrefix | controllers/factura_controller.py:99 | CAST reads the longest run of leading digits |
| FacturaController.CastTrim | controllers/factura_controller.py:99 | CAST skips exactly the leading space and \t to \r characters: what it drops is all blank, and what is left does not start with one |
| FacturaController.CastStopsAtNoBreakSpace | controllers/factura_controller.py:99 | CAST's blanks are not Python's: a suffix starting with a no-break space casts to 0 |
| FacturaController.Clamp64 | controllers/factura_controller.py:99 | CAST AS INTEGER saturates at the 64-bit bounds and keeps values within them |
| FacturaController.MaxSuffixIsMax | controllers/factura_controller.py:99 | MAX over the `FAC-%` numbers is None exactly when no number matches; otherwise it is a bound on every matching suffix and is attained by one |
| FacturaController.Format06dRoundTrip | controllers/factura_controller.py:107 | `FAC-{n:06d}` matches `FAC-%`, has at least six digits and reads back as n, clamped to 64 bits |
| FacturaController.GeneratedNumberIsNew | controllers/factura_controller.py:95-107 | the generated number differs from every stored invoice number while the largest stored suffix is below 2^63-1 |
| FacturaController.SaturatedNumberRepeats | controllers/factura_controller.py:99-107 | a stored number whose suffix is past 2^63-1 is generated again, so the number is not new |
| FacturaController.FourteenDigits | controllers/factura_controller.py:108-110 | a fourteen-digit suffix matches `FAC-%` and reads back as its value, which is below 2^63-1 |
| FacturaController.NextAboveStored | controllers/factura_controller.py:99-105 | the next number's suffix is above every stored matching suffix, unless it saturated |
| FacturaController.NextAboveFourteen | controllers/factura_controller.py:99-110 | after a timestamp fallback was stored, the next number's suffix is above it |
| FacturaController.TimestampContinuation | controllers/factura_controller.py:95-110 | once a timestamp number is stored, a later generation keeps counting above it, query failure or not |
| FacturaController.CrearFactura | controllers/factura_controller.py:10-30 | a new invoice row dated today is stored under a fresh id with the given fields, and the id is returned |
| FacturaController.PatchedProperties | controllers/factura_controller.py:39-56 | an update with no fields changes nothing; applying the same update twice is the same as once; the date never changes; fields not given keep their values; a state-only update changes only the state |
| FacturaController.ActualizarFactura | controllers/factura_controller.py:32-62 | an existing invoice gets only the given fields replaced and its id is returned; an unknown id changes nothing and returns None |
| FacturaController.CambiarEstadoFactura | controllers/factura_controller.py:112-118 | only the states Pendiente, Pagada, Cancelada and Vencida are accepted; an accepted state is written to an existing invoice and nothing else changes; any transition between valid states is allowed |
| FacturaController.EliminarFactura | controllers/factura_controller.py:64-73 | it returns True exactly when the invoice existed; the invoice row is removed and its lines stay |
| FacturaController.ConTotalesProperties | controllers/factura_controller.py:384-397 | the total is subtotal plus tax, which is subtotal times (1 + pct/100); a zero rate gives zero tax; recomputing is idempotent |
| FacturaController.LineasDeMember | controllers/factura_controller.py:376-382 | `obtener_detalles_factura` lists exactly the stored lines of that invoice |
| FacturaController.SumLineasConcat | controllers/factura_controller.py:388 | the SUM of line subtotals is additive over concatenation |
| FacturaController.AddedLineSum | controllers/factura_controller.py:333-356 | adding a line raises its invoice's subtotal sum by the line's subtotal and leaves every other invoice's sum alone |
| FacturaController.RemovedLineSum | controllers/factura_controller.py:361-370 | removing a line lowers its invoice's subtotal sum by that line's subtotal |
| FacturaController.RecalcularTotalesFactura | controllers/factura_controller.py:384-400 | an existing invoice's subtotal becomes the sum of its lines, with tax and total at the given rate and no other change; an unknown id changes nothing |
| FacturaController.CrearFacturaDesdeVenta | controllers/factura_controller.py:308-331 | an invoice is created exactly when the sale exists. It takes the next invoice number, state Pendiente, the sale's client and employee, and the sale total as subtotal with tax at the given rate. Otherwise nothing is stored. The invoice id counter grows by one exactly when an invoice is created |
| FacturaController.AgregarProductoFactura | controllers/factura_controller.py:333-359 | a line is stored exactly when the product exists, priced at the product's current price, and the invoice totals are recomputed with a zero rate; an unknown product changes nothing |
| FacturaController.EliminarProductoFactura | controllers/factura_controller.py:361-374 | the line is removed; the result is True exactly when it existed, and then its invoice is recomputed from the remaining lines. Neither id counter moves |
| FacturaController.FirstMissing | controllers/factura_controller.py:421-429 | this is the position of the first item whose product does not exist, or the item count when all exist |
| FacturaController.AgregarItems | controllers/factura_controller.py:421-429 | the lines of the items before the first missing product are stored in order. The invoice keeps its header fields. Success means no product was missing |
| FacturaController.CrearFacturaConProductos | controllers/factura_controller.py:402-437 | the invoice is created and its lines are added in order. A missing product makes it delete the invoice and return None, and the lines already added stay. Otherwise the invoice is recomputed at the given rate and its id is returned. The invoice id counter grows by one either way, since the deleted invoice used up an id; the line counter grows by the number of lines added |
| VentaView.PriceChars | views/venta_view.py:176 | the cleaned price keeps only digits and '.' |
| VentaView.PriceCharsKeeps | views/venta_view.py:176 | a text of digits and points is kept as it is |
| VentaView.SubtotalTextZero | views/venta_view.py:170-184 | an unreadable quantity or an empty price shows a subtotal of "0.00" |
| VentaView.PrecioTextoIsFixed | views/venta_view.py:162-168 | selecting a product shows its price with two decimals |
| VentaView.PrecioTextoRoundTrip | views/venta_view.py:166-177 | for a non-negative price, the shown price, once cleaned, reads back as the price rounded to two decimals |
| VentaView.FindProducto | views/venta_view.py:235-237 | the search finds the first cart line of that product, and finds none exactly when no line has it |
| VentaView.AgregarRejected | views/venta_view.py:186-211 | each rejection keeps the cart. No product, a bad quantity, an unknown product and a quantity above stock are rejected, in that order |
| VentaView.AgregarMerges | views/venta_view.py:235-248 | for a product already in the cart, the quantity and subtotal of its one line are raised, and no other line changes. If the combined quantity exceeds stock, the result is NoStock instead |
| VentaView.AgregarAppends | views/venta_view.py:224-251 | a new line is appended exactly when the product is not yet in the cart, and carries the quantity, the unit price and its subtotal |
| VentaView.AgregarLineaKeepsCartOk | views/venta_view.py:235-251 | adding a validated line keeps the cart well formed: one line per product, every quantity at least 1 and within the stock loaded for that product |
| VentaView.AgregarKeepsCartOk | views/venta_view.py:186-261 | whatever the form holds, adding keeps the cart well formed |
| VentaView.SinProducto | views/venta_view.py:296 | removal never grows the cart |
| VentaView.SinProductoMember | views/venta_view.py:296 | removal keeps exactly the lines of other products |
| VentaView.SinProductoOrder | views/venta_view.py:296 | removal keeps the order of the remaining lines |
| VentaView.SinProductoKeepsCartOk | views/venta_view.py:284-300 | removal keeps the cart well formed |
| VentaView.SinProductoDistinct | views/venta_view.py:296 | removal keeps one line per product |
| VentaView.PreCheckPasses | views/venta_view.py:320-337 | registering passes its checks exactly when a client and an employee are chosen, the cart is non-empty and both resolve to truthy ids |
| VentaView.VentaView.constructor | views/venta_view.py:15-45 | the form opens with an empty cart, quantity "1", price, subtotal and total "0.00", and no selection |
| VentaView.VentaView.CalculateSubtotalField | views/venta_view.py:170-184 | the subtotal field shows the price times the quantity |
| VentaView.VentaView.OnProductoSelected | views/venta_view.py:162-168 | a known product fills in its price and refreshes the subtotal; an unknown one changes nothing |
| VentaView.VentaView.ActualizarTotal | views/venta_view.py:279-282 | the total field shows the sum of the cart subtotals |
| VentaView.VentaView.AgregarValidado | views/venta_view.py:224-256 | the cart becomes the merge or append result, and the total is refreshed unless stock was short |
| VentaView.VentaView.LeerEntrada | views/venta_view.py:188-222 | a read failure is the rejection `Agregar` gives. A successful read resolves the product, a quantity from 1 up to the stock and the cleaned price |
| VentaView.VentaView.AgregarComprobado | views/venta_view.py:224-256 | a checked product changes the cart as `AgregarLinea` says and keeps it well formed, with the total following |
| VentaView.VentaView.Aplicar | views/venta_view.py:224-261 | the cart becomes the merge or append result; on Added the entry fields are cleared, otherwise they stay |
| VentaView.VentaView.AgregarProducto | views/venta_view.py:186-261 | the cart and outcome are `Agregar` of the old form; on Added the entry fields are cleared, otherwise they stay |
| VentaView.VentaView.LimpiarEntrada | views/venta_view.py:257-261 | the product, quantity, price and subtotal fields are reset |
| VentaView.VentaView.EliminarProducto | views/venta_view.py:284-300 | with a selection, all lines of that product are removed and the total is refreshed; without one, nothing changes |
| VentaView.VentaView.LimpiarVenta | views/venta_view.py:302-312 | the form returns to its opening state |
| VentaView.VentaView.RegistrarVenta | views/venta_view.py:314-349 | a failed check changes nothing and reports why. Otherwise the sale, its detail rows and the stock are written as `crear_venta` writes them, up to the failing call if one fails. Success clears the cart, total, client, employee, product, quantity, price and subtotal fields; every other outcome keeps all of them. The sale id counter grows by one once the sale row is inserted, the detail counter by the number of detail rows written, and the product counter stays |
| FacturaView.ColumnaLeida | views/factura_view.py:480-482 | a formatted subtotal in the product list reads back as the amount rounded to two decimals |
| FacturaView.LeerMonto | views/factura_view.py:297-301 | an empty subtotal field reads as 0 |
| FacturaView.MontosDe | views/factura_view.py:293-312 | once the subtotal is read, an unreadable rate is the escaping error; a readable one gives tax = subtotal times pct/100 and total = subtotal plus tax |
| FacturaView.SubtotalLeido | views/factura_view.py:297-301 | the subtotal field, written by `format_currency`, reads back as the rounded amount |
| FacturaView.MontosTrasSubtotal | views/factura_view.py:474-486 | after the automatic subtotal, tax and total are computed from the rounded sum, unless the rate is unreadable, which is then the only way to the error |
| FacturaView.MontosDeVacio | views/factura_view.py:298-299 | an empty subtotal gives zero tax and zero total at any readable rate |
| FacturaView.BuscarNombre | views/factura_view.py:427-429 | the search finds the first row with that name, and finds none exactly when no row has it |
| FacturaView.AgregarRechazado | views/factura_view.py:403-420 | each rejection keeps the rows. No selection, an unparsable quantity, a quantity of zero or less, and an unknown product are rejected, in that order |
| FacturaView.AgregarSuma | views/factura_view.py:427-440 | a product already listed has its one row's quantity raised, priced at the current price, with no other row changed |
| FacturaView.AgregarNueva | views/factura_view.py:443-448 | a new row is appended exactly when no row has the name |
| FacturaView.AgregarConservaFilas | views/factura_view.py:401-459 | adding keeps the rows well formed: distinct names, positive quantities, subtotals equal to price times quantity |
| FacturaView.AgregarFilaConserva | views/factura_view.py:422-448 | adding a validated product keeps the rows well formed |
| FacturaView.SumaFilasCambio | views/factura_view.py:476-481 | changing one row changes the column sum by the difference of the shown subtotals |
| FacturaView.SumaFilasSin | views/factura_view.py:476-481 | deleting one row lowers the column sum by its shown subtotal |
| FacturaView.AgregarSumaFilas | views/factura_view.py:443-452 | appending a row raises the automatic subtotal by its shown subtotal |
| FacturaView.SumarSumaFilas | views/factura_view.py:430-440 | merging into a row replaces its shown subtotal in the automatic sum |
| FacturaView.SinFilaConserva | views/factura_view.py:469 | deleting a row keeps the rows well formed |
| FacturaView.PrimeraCon | views/factura_view.py:660-663 | this is the first combobox option that contains the name, or the option count when none does |
| FacturaView.ListaUnaFilaMas | views/factura_view.py:655-672 | each row with a readable id extends the product list by its item |
| FacturaView.ListaFallaPrefijo | views/factura_view.py:660-663 | an unreadable id in any row aborts the whole list |
| FacturaView.ListaCompleta | views/factura_view.py:655-672 | when every row resolves to a product, the list has one item per row in row order |
| FacturaView.ListaSinCoincidencias | views/factura_view.py:655-672 | rows matching no option contribute nothing |
| FacturaView.ListaLongitud | views/factura_view.py:655-672 | the list has at most one item per row |
| FacturaView.ListaDeFilas | views/factura_view.py:655-672 | every item of the list comes from some row and the option it matched |
| FacturaView.PrepararOrden | views/factura_view.py:611-636 | the checks fail in source order: no number, no client, neither products nor a subtotal, no employee available. A success has all of them |
| FacturaView.EmpleadoPorDefecto | views/factura_view.py:631-634 | with no employee chosen, the first listed employee is used |
| FacturaView.FacturaForm.constructor | views/factura_view.py:325-335 | once its data is loaded, the form opens with no rows, today's date, state Pendiente, an 18% rate and zero totals shown |
| FacturaView.FacturaForm.LeerSubtotal | views/factura_view.py:297-301 | reads the subtotal field as `calcular_totales` does |
| FacturaView.FacturaForm.CalcularTotales | views/factura_view.py:293-321 | an unreadable subtotal shows zero tax and total; a readable subtotal with an unreadable rate raises out of the method (reported as `escapa`) and both fields keep their text; otherwise they show the tax and total at the rate |
| FacturaView.FacturaForm.SumarColumna | views/factura_view.py:476-482 | the loop adds up the subtotal column as read back from the rows |
| FacturaView.FacturaForm.ActualizarSubtotal | views/factura_view.py:474-486 | the subtotal field shows the formatted sum of the listed subtotals; the tax and total follow, except that an unreadable rate raises (`escapa`) and leaves them as they were |
| FacturaView.FacturaForm.BuscarFila | views/factura_view.py:427-429 | finds the row that the name search finds; on well-formed rows it is the only row with that name |
| FacturaView.FacturaForm.LimpiarSeleccion | views/factura_view.py:453-456 | the product choice returns to the placeholder and the quantity to "1" |
| FacturaView.FacturaForm.AgregarValidado | views/factura_view.py:422-448 | the rows become the merge or append result, which is never a rejection |
| FacturaView.FacturaForm.Revisar | views/factura_view.py:403-420 | a rejection is the one `Agregar` gives and leaves the rows as they are. A pass resolves a product and a quantity of at least 1 |
| FacturaView.FacturaForm.AgregarProducto | views/factura_view.py:401-459 | the rows and outcome are `Agregar` of the old form. A rejection keeps the amounts. On acceptance the subtotal follows the rows and the tax and total follow it, unless the rate is unreadable: the error then escapes, leaving tax and total as they were and the choice uncleared. Only a new row whose totals were recomputed clears the choice |
| FacturaView.FacturaForm.AgregarYActualizar | views/factura_view.py:422-451 | an accepted product updates the rows and the subtotal; tax and total follow unless the rate is unreadable, when the error escapes (`escapa`) and both are kept |
| FacturaView.FacturaForm.Aplicar | views/factura_view.py:422-456 | an accepted product updates the rows and the subtotal; tax and total follow unless the rate is unreadable (`escapa`, both kept); the choice is cleared after that, for a new row and only when nothing escaped |
| FacturaView.FacturaForm.EliminarProducto | views/factura_view.py:461-472 | with a selection, that row is removed and the subtotal follows; tax and total follow too unless the rate is unreadable, when the error escapes and they are kept. Without a selection, nothing changes |
| FacturaView.FacturaForm.BuscarProductoId | views/factura_view.py:658-663 | resolves a row's product id from the first matching option |
| FacturaView.FacturaForm.ArmarLista | views/factura_view.py:654-672 | builds exactly the product list `ProductosLista` describes |
| FacturaView.FacturaForm.LimpiarCabecera | views/factura_view.py:757-772 | the header fields return to their opening values |
| FacturaView.FacturaForm.LimpiarProductos | views/factura_view.py:767-783 | the rows, totals, rate and product choice return to their opening values |
| FacturaView.FacturaForm.LimpiarFormulario | views/factura_view.py:757-783 | the whole form returns to its opening state |
| FacturaView.FacturaForm.Comprobar | views/factura_view.py:611-672 | the checks give `Preparar`'s verdict; a default employee is written back only when the checks reach that step |
| FacturaView.FacturaForm.GuardarDatos | views/factura_view.py:675-750 | the invoice and line tables change as `Guarda` says: editing patches an existing invoice and leaves the lines; an unknown id reports not saved; items on an edit end in the handler's error after the header was written. A new invoice without items is stored with the form's amounts. With items, an unreadable rate is the handler's error with nothing stored; otherwise the lines before the first unknown product are stored, and the invoice, totalled from its lines at the rate, exactly when no product is unknown. The invoice id counter grows by one on both create paths, even when the invoice is deleted again, and stays on the edit and error paths; the line counter grows only by the lines stored |
| FacturaView.FacturaForm.GuardarFactura | views/factura_view.py:609-750 | a failed check stores nothing and reports why; when the checks pass, the outcome and both tables are those of `Guarda` on the data the checks produced and the fields as they were; a saved invoice clears the form; any other outcome keeps the rows, the amounts, the rate, the header fields, the date and the product choice, and changes the employee only by the default `Comprobar` writes. A failed check also keeps both id counters |
| GenerarFacturaView.FacturadaTrasAlta | views/generar_factura_view.py:146-150 | after an invoice for a sale is stored, that sale shows as invoiced and every other sale's mark is unchanged |
| GenerarFacturaView.Condiciones | views/generar_factura_view.py:177-195 | the WHERE conditions, one parameter each, select exactly the sales matching the client, from-date and to-date filters; there are none when no filter is set |
| GenerarFacturaView.EntradaCliente | views/generar_factura_view.py:181-183 | an "id - name" client entry is a filter that matches exactly the sales of that client id |
| GenerarFacturaView.ObservacionesGuardadas | views/generar_factura_view.py:265-267 | blank observations are stored as None, others stripped; stripping again changes nothing |
| GenerarFacturaView.BlankStrip | views/generar_factura_view.py:265-266 | a text strips to empty exactly when it is all whitespace |
| GenerarFacturaView.FacturaDeVentaComoControlador | views/generar_factura_view.py:251-282 | the invoice built from a sale has the sale total as subtotal, tax at the chosen rate and total = subtotal + tax; with blank observations it is the row `crear_factura_desde_venta` would store |
| GenerarFacturaView.Eleccion | views/generar_factura_view.py:227-249 | a sale is chosen exactly when a row is selected, is not marked invoiced and the sale exists; an invoiced row is refused as such |
| GenerarFacturaView.GenerarForm.constructor | views/generar_factura_view.py:13-139 | the form opens with client filter "Todos", both date filters showing the text the date widgets start with, an 18% rate, state Pendiente and no observations |
| GenerarFacturaView.GenerarForm.Filtrar | views/generar_factura_view.py:170-223 | the listing holds exactly the sales matching the filters, each marked by whether an invoice refers to it |
| GenerarFacturaView.GenerarForm.Alta | views/generar_factura_view.py:261-282 | the invoice built from the sale, the rate read and the form is stored under a fresh id, and the id counter grows by one |
| GenerarFacturaView.GenerarForm.CargarVentas | views/generar_factura_view.py:129-139 | reloading the list sets the client filter back to "Todos" |
| GenerarFacturaView.GenerarForm.LimpiarObservaciones | views/generar_factura_view.py:295 | the observations field is cleared |
| GenerarFacturaView.GenerarForm.GenerarFactura | views/generar_factura_view.py:225-300 | a refused choice changes nothing and reports why. An unreadable rate ends in the outer handler's error with nothing stored and the observations kept. Otherwise an invoice with the next number is stored for the sale at the rate read, the client filter goes back to "Todos" and the observations are cleared; the other outcomes keep the filter. The invoice id counter grows by one exactly when an invoice is generated |
| ConfigView.Validar | views/config_view.py:169-195 | the settings are accepted exactly when the symbol and name are non-blank, the decimal places are an integer from 0 to 3 and the stock alert is a non-negative integer. Each failure is named in check order, and the accepted values read back from the texts |
| ConfigView.ValidarIdempotente | views/config_view.py:169-212 | validating the accepted settings again, written back as text, accepts the same settings |
| ConfigView.Configuracion.Set | config/config_manager.py:71-76 | `set` writes one key of one section and nothing else |
| ConfigView.GuardadoSeLee | config/config_manager.py:89-124 | what saving writes is what the getters read back: currency, stock alert, theme and encoding |
| ConfigView.PorDefectoValido | views/config_view.py:162-167 | the defaults pass validation and are what the getters read from empty settings |
| ConfigView.ConfigForm.constructor | views/config_view.py:8-24 | the form's fields start empty before the current settings are loaded |
| ConfigView.ConfigForm.FijarMoneda | views/config_view.py:137-142 | choosing a currency fills symbol, name, code and decimal places |
| ConfigView.ConfigForm.Restablecer | views/config_view.py:162-167 | every field returns to its default |
| ConfigView.ConfigForm.CargarActual | views/config_view.py:144-160 | the fields show the stored settings; loading succeeds exactly when the currency and alert level are readable, and an unreadable currency leaves those fields alone; a failed load leaves the alert level and encoding as they were |
| ConfigView.ConfigForm.Guardar | views/config_view.py:169-217 | saving stores exactly the validated settings, and a rejected form stores nothing |

## Left out

- utils/validators.py is not part of this model. `validate_integer` is taken to mean that `int()` parses the text and the value is at least the minimum.
- Amounts are exact reals, not binary floats. `:.2f` rounds the exact value half-to-even, and float rounding error is not modelled.
- `float()` is modelled on plain decimals only. Exponents, `inf`, `nan` and underscores are read as unparsable.
- Helpers.ParseIso: strict. `strptime` also accepts unpadded fields such as "2024-1-5", which the model treats as unparsable, so `format_date` returns them unchanged.
- The tax rate `DoubleVar` is an optional real. It is None when Tk cannot read the field; `get()` then raises `TclError`, which the inner `except (ValueError, TypeError)` handlers that fall back to 18 do not catch.
- In `generar_factura` the sale total is always a real. The source's fallback for a None or falsy total gives the same value only for 0.
- SQLite type affinity is approximated. The `v.idCliente = ?` text parameter is compared as a number. Dates are compared as text in binary order.
- Writing the settings file to disk (`save_config` of the configuration manager) is not modelled. The settings are a map from section and key to text.
- Storage exceptions are modelled only in `crear_venta`, through `FailurePoint`, and in the numbering query, through `queryFails`. Every other `try/except` around a database call is taken as succeeding.
- Widgets, layout, message boxes, `actualizar_tabla`, `load_combos` and reloading the lists after a sale is registered are not modelled.
- Listings of queries without ORDER BY are taken in id order.
- GenerarFacturaView.GenerarForm.Filtrar: returns a map from sale id to its "Sí"/"No" mark. A sale with several invoices appears several times in the LEFT JOIN, and the listing order (date descending) is not kept.
- FacturaController.GeneratedNumberIsNew: requires the largest stored suffix to be below 2^63-1. `SaturatedNumberRepeats` shows that past this bound the generated number repeats.
- FacturaView.FacturaForm.GuardarDatos: editing an invoice that has product rows is modelled as the error the source reaches. Deleting the old lines is swallowed, and the call that adds the new ones raises `TypeError` after the header was updated. The model does not replace the lines.
- Reports, statistics and exports are out of scope: `generar_reporte_facturas`, `obtener_estadisticas_facturas`, the `exportar_*` functions, `export_to_csv` and `generate_invoice_pdf`.
- VentaView.PrecioTextoRoundTrip: holds only for non-negative prices. The price cleaning drops the minus sign.
- Outside the modelled core: `cargar_productos_factura`, `on_venta_selected`, `on_cliente_selected`, `cargar_ventas_por_cliente`, `editar_factura`, `filtrar_facturas`, `ver_detalle_venta`, the sales-history functions, `get_all_ventas`, `obtener_venta` and the other plain listings.
- In `crear_factura_con_productos` the falsy `factura_id` branch cannot happen, since ids start at 1.
- `Factura` and `DetalleFactura` are not defined in database/models.py. They are taken to follow the same table pattern, with no cascading delete, and `get_by_factura` lists in id order.
- The clock is a parameter: the date text `today` and the timestamp `now`.
- Client and employee ids on an invoice are optional ids.
- main.py and seed_data.py are not part of this model.
- Deleting an invoice leaves its lines in place; nothing cascades.
- When `crear_factura_con_productos` fails on an unknown product, the lines of the earlier items stay.
- A sale's total is the sum of the given line subtotals, and `crear_venta` makes no stock check.
- ConfigView.Validar: `int()` is modelled on ASCII digits with an optional sign. Python also accepts underscores between digits ("1_0") and non-ASCII decimal digits, which the model reads as unparsable.
- VentaView.VentaView.LeerEntrada: the quantity is read with the same ASCII-only `int()`.
- FacturaView.FacturaForm.Revisar: the quantity is read with the same ASCII-only `int()`.
- ConfigView.Configuracion.Set: configparser's default `BasicInterpolation` is not modelled. A value with a '%' that is neither "%%" nor a "%(key)s" reference makes `set` raise `ValueError`; the model stores it.
- ConfigView.GuardadoSeLee: holds for texts without '%' only. Through interpolation, "%%" reads back as "%" and "%(key)s" as another key's value.
- ConfigView.ConfigForm.Guardar: a validated text with a stray '%' makes saving raise part-way, after the keys before it were set, and the handler reports an error; the model stores every key.

/** controllers/venta_controller.py: recording a sale with its detail rows
    and stock decrements, listing a sale's details, and the date search. */
module VentaController {
  import opened Wrappers
  import opened Models

  /** One cart entry as the sale view hands it over. */
  datatype CartLine = CartLine(idProducto: int, nombre: string, cantidad: int, precioUni: real, subtotal: real)

  /** Which storage call raises, if any: the sale insert, the detail insert
      of entry k, or the stock update of entry k (counting from 0). */
  datatype FailurePoint = NoFailure | SaleInsert | DetailInsert(k: nat) | StockUpdate(k: nat)

  // ---------------------------------------------------------------------
  // crear_venta
  // ---------------------------------------------------------------------

  /** Python's `sum(detalle['subtotal'] for detalle in detalles)`: the
      entries' own subtotals added left to right from 0. */
  function SubtotalSum(cart: seq<CartLine>): real
  {
    if cart == [] then 0.0 else SubtotalSum(cart[..|cart| - 1]) + cart[|cart| - 1].subtotal
  }

  /** Total quantity the cart takes of product `pid`. */
  function QuantityOf(cart: seq<CartLine>, pid: int): int
  {
    if cart == [] then 0
    else QuantityOf(cart[..|cart| - 1], pid) + (if cart[|cart| - 1].idProducto == pid then cart[|cart| - 1].cantidad else 0)
  }

  /** `UPDATE Producto SET Stock = Stock - ? WHERE idProducto = ?`: no
      lower bound, and no row changes for an unknown product. */
  function Decremented(rows: map<int, Producto>, line: CartLine): map<int, Producto>
  {
    if line.idProducto in rows
    then StockWritten(rows, line.idProducto, rows[line.idProducto].stock - line.cantidad)
    else rows
  }

  /** The products after the stock updates of `cart`, in order. */
  function StockAfter(rows: map<int, Producto>, cart: seq<CartLine>): map<int, Producto>
  {
    if cart == [] then rows else Decremented(StockAfter(rows, cart[..|cart| - 1]), cart[|cart| - 1])
  }

  /** Each product's stock drops by the total quantity the cart names it
      with (possibly below zero); every other column and every other
      product stays as it was, and no product appears or disappears. */
  lemma {:induction false} StockAfterEffect(rows: map<int, Producto>, cart: seq<CartLine>, pid: int)
    ensures StockAfter(rows, cart).Keys == rows.Keys
    ensures pid in rows ==>
      StockAfter(rows, cart)[pid] == rows[pid].(stock := rows[pid].stock - QuantityOf(cart, pid))
  {
    if cart != [] {
      var init := cart[..|cart| - 1];
      StockAfterEffect(rows, init, pid);
    }
  }

  /** The detail row of one cart entry. */
  function DetailRow(line: CartLine, idVenta: int): DetalleVenta
  {
    DetalleVenta(idVenta, line.idProducto, line.cantidad, line.precioUni, line.subtotal)
  }

  /** The detail rows inserted for `cart`, under consecutive ids from `start`. */
  function DetailRows(cart: seq<CartLine>, idVenta: int, start: int): map<int, DetalleVenta>
  {
    if cart == [] then map[]
    else DetailRows(cart[..|cart| - 1], idVenta, start)[start + |cart| - 1 := DetailRow(cart[|cart| - 1], idVenta)]
  }

  lemma {:induction false} DetailRowsAt(cart: seq<CartLine>, idVenta: int, start: int, k: int)
    ensures k in DetailRows(cart, idVenta, start) <==> start <= k < start + |cart|
    ensures start <= k < start + |cart| ==> DetailRows(cart, idVenta, start)[k] == DetailRow(cart[k - start], idVenta)
  {
    if cart != [] {
      DetailRowsAt(cart[..|cart| - 1], idVenta, start, k);
    }
  }

  /** How many detail rows get inserted before the call at `fail` raises. */
  function DetailsInserted(fail: FailurePoint, n: nat): (k: nat)
    ensures k <= n
  {
    match fail
    case NoFailure => n
    case SaleInsert => 0
    case DetailInsert(j) => if j < n then j else n
    case StockUpdate(j) => if j < n then j + 1 else n
  }

  /** How many stock updates run before the call at `fail` raises. */
  function StockUpdated(fail: FailurePoint, n: nat): (k: nat)
    ensures k <= n
  {
    match fail
    case NoFailure => n
    case SaleInsert => 0
    case DetailInsert(j) => if j < n then j else n
    case StockUpdate(j) => if j < n then j else n
  }

  /** Whether no call raises for a cart of `n` entries. */
  predicate Completes(fail: FailurePoint, n: nat)
  {
    match fail
    case NoFailure => true
    case SaleInsert => false
    case DetailInsert(j) => j >= n
    case StockUpdate(j) => j >= n
  }

  /** `crear_venta`: inserts the sale (dated `today`, total = the entries'
      subtotals), then for each entry in order one detail row and one
      stock decrement.  It answers the new sale id, or None when a storage
      call raises; what was written before that call stays (no rollback). */
  method CrearVenta(ventas: Table<Venta>, detalles: Table<DetalleVenta>, productos: Table<Producto>,
                    idCliente: int, idEmpleado: int, cart: seq<CartLine>, today: string,
                    fail: FailurePoint)
    returns (r: Option<int>)
    requires ventas.Valid() && detalles.Valid() && productos.Valid()
    modifies ventas, detalles, productos
    ensures ventas.Valid() && detalles.Valid() && productos.Valid()
    ensures r == if Completes(fail, |cart|) then Some(old(ventas.nextId)) else None
    ensures ventas.rows == if fail == SaleInsert then old(ventas.rows)
                           else old(ventas.rows)[old(ventas.nextId) := Venta(today, SubtotalSum(cart), idCliente, idEmpleado)]
    ensures ventas.nextId == if fail == SaleInsert then old(ventas.nextId) else old(ventas.nextId) + 1
    ensures detalles.rows == old(detalles.rows) +
              DetailRows(cart[..DetailsInserted(fail, |cart|)], old(ventas.nextId), old(detalles.nextId))
    ensures detalles.nextId == old(detalles.nextId) + DetailsInserted(fail, |cart|)
    ensures productos.rows == StockAfter(old(productos.rows), cart[..StockUpdated(fail, |cart|)])
    ensures productos.nextId == old(productos.nextId)
  {
    var total := SubtotalSum(cart);
    if fail == SaleInsert {
      return None;
    }
    var idVenta := ventas.Insert(Venta(today, total, idCliente, idEmpleado));
    var ok := InsertLines(detalles, productos, idVenta, cart, fail);
    r := if ok then Some(idVenta) else None;
  }

  /** Updating a union at a key is updating its right operand there. */
  lemma UnionUpdate<K, V>(a: map<K, V>, b: map<K, V>, k: K, v: V)
    ensures (a + b)[k := v] == a + b[k := v]
  {
  }

  /** The loop of `crear_venta`: per entry, the detail insert and then the
      stock decrement, stopping at the call that raises. */
  method InsertLines(detalles: Table<DetalleVenta>, productos: Table<Producto>,
                     idVenta: int, cart: seq<CartLine>, fail: FailurePoint)
    returns (ok: bool)
    requires fail != SaleInsert
    requires detalles.Valid() && productos.Valid()
    modifies detalles, productos
    ensures detalles.Valid() && productos.Valid()
    ensures ok == Completes(fail, |cart|)
    ensures detalles.rows == old(detalles.rows) +
              DetailRows(cart[..DetailsInserted(fail, |cart|)], idVenta, old(detalles.nextId))
    ensures detalles.nextId == old(detalles.nextId) + DetailsInserted(fail, |cart|)
    ensures productos.rows == StockAfter(old(productos.rows), cart[..StockUpdated(fail, |cart|)])
    ensures productos.nextId == old(productos.nextId)
  {
    var i := 0;
    while i < |cart|
      invariant 0 <= i <= |cart|
      invariant detalles.Valid() && productos.Valid()
      invariant detalles.nextId == old(detalles.nextId) + i
      invariant detalles.rows == old(detalles.rows) + DetailRows(cart[..i], idVenta, old(detalles.nextId))
      invariant productos.rows == StockAfter(old(productos.rows), cart[..i])
      invariant productos.nextId == old(productos.nextId)
      invariant forall j: nat :: j < i ==> fail != DetailInsert(j) && fail != StockUpdate(j)
    {
      if fail == DetailInsert(i) {
        return false;
      }
      var id := detalles.Insert(DetailRow(cart[i], idVenta));
      assert cart[..i + 1][..i] == cart[..i];
      assert DetailRows(cart[..i + 1], idVenta, old(detalles.nextId)) ==
             DetailRows(cart[..i], idVenta, old(detalles.nextId))[id := DetailRow(cart[i], idVenta)];
      UnionUpdate(old(detalles.rows), DetailRows(cart[..i], idVenta, old(detalles.nextId)), id, DetailRow(cart[i], idVenta));
      if fail == StockUpdate(i) {
        return false;
      }
      assert StockAfter(old(productos.rows), cart[..i + 1]) == Decremented(StockAfter(old(productos.rows), cart[..i]), cart[i]);
      productos.rows := Decremented(productos.rows, cart[i]);
      i := i + 1;
    }
    assert cart[..i] == cart;
    ok := true;
  }

  /** The detail rows of one sale as `get_by_venta` lists them: one per
      cart entry, in cart order, under consecutive ids from `start`. */
  function DetailEntries(cart: seq<CartLine>, idVenta: int, start: int): (s: seq<Entry<DetalleVenta>>)
    ensures |s| == |cart|
  {
    if cart == [] then []
    else DetailEntries(cart[..|cart| - 1], idVenta, start) + [Entry(start + |cart| - 1, DetailRow(cart[|cart| - 1], idVenta))]
  }

  /** Sum of the SubTotal column of listed detail rows. */
  function SumSubtotales(s: seq<Entry<DetalleVenta>>): real
  {
    if s == [] then 0.0 else SumSubtotales(s[..|s| - 1]) + s[|s| - 1].row.subtotal
  }

  lemma {:induction false} DetailEntriesListed(rows0: map<int, DetalleVenta>, cart: seq<CartLine>, idVenta: int, start: int)
    requires start >= 1 && forall k :: k in rows0 ==> k < start
    ensures Entries(rows0 + DetailRows(cart, idVenta, start), start + |cart|) ==
            Entries(rows0, start) + DetailEntries(cart, idVenta, start)
  {
    if cart != [] {
      var init := cart[..|cart| - 1];
      var n := start + |cart| - 1;
      var e := Entry(n, DetailRow(cart[|cart| - 1], idVenta));
      DetailEntriesListed(rows0, init, idVenta, start);
      DetailRowsLast(rows0, cart, idVenta, start);
      assert Entries(rows0 + DetailRows(cart, idVenta, start), n + 1) ==
             Entries(rows0 + DetailRows(init, idVenta, start), n) + [e];
      assert DetailEntries(cart, idVenta, start) == DetailEntries(init, idVenta, start) + [e];
    } else {
      assert rows0 + DetailRows(cart, idVenta, start) == rows0;
    }
  }

  /** One more detail row adds one listed entry, after the others. */
  lemma {:induction false} DetailRowsLast(rows0: map<int, DetalleVenta>, cart: seq<CartLine>, idVenta: int, start: int)
    requires start >= 1 && cart != [] && forall k :: k in rows0 ==> k < start
    ensures Entries(rows0 + DetailRows(cart, idVenta, start), start + |cart|) ==
            Entries(rows0 + DetailRows(cart[..|cart| - 1], idVenta, start), start + |cart| - 1) +
            [Entry(start + |cart| - 1, DetailRow(cart[|cart| - 1], idVenta))]
  {
    var init := cart[..|cart| - 1];
    var r1 := rows0 + DetailRows(cart, idVenta, start);
    var r2 := rows0 + DetailRows(init, idVenta, start);
    var n := start + |cart| - 1;
    forall k | 1 <= k < n
      ensures (k in r1 <==> k in r2) && (k in r1 ==> r1[k] == r2[k])
    {
      DetailRowsAt(cart, idVenta, start, k);
      DetailRowsAt(init, idVenta, start, k);
    }
    DetailRowsAt(cart, idVenta, start, n);
    EntriesExtended(r1, r2, n, DetailRow(cart[|cart| - 1], idVenta));
  }

  lemma {:induction false} DetailEntriesOfVenta(cart: seq<CartLine>, idVenta: int, start: int)
    ensures Filter(DetailEntries(cart, idVenta, start), OfVenta(idVenta)) == DetailEntries(cart, idVenta, start)
    ensures SumSubtotales(DetailEntries(cart, idVenta, start)) == SubtotalSum(cart)
  {
    if cart != [] {
      var init := cart[..|cart| - 1];
      DetailEntriesOfVenta(init, idVenta, start);
      var last := [Entry(start + |cart| - 1, DetailRow(cart[|cart| - 1], idVenta))];
      FilterConcat(DetailEntries(init, idVenta, start), last, OfVenta(idVenta));
      assert DetailEntries(cart, idVenta, start)[..|cart| - 1] == DetailEntries(init, idVenta, start);
    }
  }

  lemma {:induction false} NoRowsOfVenta(rows0: map<int, DetalleVenta>, idVenta: int, n: int)
    requires forall k :: k in rows0 ==> rows0[k].idVenta != idVenta
    ensures Filter(Entries(rows0, n), OfVenta(idVenta)) == []
    decreases n
  {
    if n > 1 {
      NoRowsOfVenta(rows0, idVenta, n - 1);
      var last := if n - 1 in rows0 then [Entry(n - 1, rows0[n - 1])] else [];
      FilterConcat(Entries(rows0, n - 1), last, OfVenta(idVenta));
    }
  }

  /** After a completed `crear_venta`, `get_by_venta` of the new sale lists
      exactly one detail row per cart entry, in cart order, carrying that
      entry's product, quantity, unit price and subtotal; and the stored
      sale total is the sum of those rows' subtotals.  (The detail table
      is the old one plus the new rows, as `CrearVenta` ensures; no older
      detail row may already name the new sale id.) */
  lemma CrearVentaListing(detalles: Table<DetalleVenta>, rows0: map<int, DetalleVenta>, start: int,
                          cart: seq<CartLine>, idVenta: int)
    requires start >= 1 && forall k :: k in rows0 ==> 1 <= k < start && rows0[k].idVenta != idVenta
    requires detalles.rows == rows0 + DetailRows(cart, idVenta, start)
    requires detalles.nextId == start + |cart|
    ensures GetByVenta(detalles, idVenta) == DetailEntries(cart, idVenta, start)
    ensures |GetByVenta(detalles, idVenta)| == |cart|
    ensures forall i :: 0 <= i < |cart| ==>
              GetByVenta(detalles, idVenta)[i] == Entry(start + i, DetailRow(cart[i], idVenta))
    ensures SumSubtotales(GetByVenta(detalles, idVenta)) == SubtotalSum(cart)
  {
    DetailEntriesListed(rows0, cart, idVenta, start);
    FilterConcat(Entries(rows0, start), DetailEntries(cart, idVenta, start), OfVenta(idVenta));
    NoRowsOfVenta(rows0, idVenta, start);
    DetailEntriesOfVenta(cart, idVenta, start);
    forall i | 0 <= i < |cart|
      ensures DetailEntries(cart, idVenta, start)[i] == Entry(start + i, DetailRow(cart[i], idVenta))
    {
      DetailEntriesAt(cart, idVenta, start, i);
    }
  }

  lemma {:induction false} DetailEntriesAt(cart: seq<CartLine>, idVenta: int, start: int, i: int)
    requires 0 <= i < |cart|
    ensures |DetailEntries(cart, idVenta, start)| == |cart|
    ensures DetailEntries(cart, idVenta, start)[i] == Entry(start + i, DetailRow(cart[i], idVenta))
  {
    var init := cart[..|cart| - 1];
    if i < |cart| - 1 {
      DetailEntriesAt(init, idVenta, start, i);
    } else if |cart| > 1 {
      DetailEntriesAt(init, idVenta, start, 0);
    }
  }

  // ---------------------------------------------------------------------
  // get_detalles_venta
  // ---------------------------------------------------------------------

  /** One row of `get_detalles_venta`: the detail columns and the product name. */
  datatype DetalleListado = DetalleListado(id: int, cantidad: int, precioUni: real, subtotal: real,
                                           idProducto: int, producto: string)

  function Listado(e: Entry<DetalleVenta>, p: Producto): DetalleListado
  {
    DetalleListado(e.id, e.row.cantidad, e.row.precio, e.row.subtotal, e.row.idProducto, p.nombre)
  }

  /** The inner join with Producto: a detail row whose product is gone
      yields nothing. */
  function JoinProducto(s: seq<Entry<DetalleVenta>>, productos: map<int, Producto>): seq<DetalleListado>
  {
    if s == [] then []
    else (if s[0].row.idProducto in productos then [Listado(s[0], productos[s[0].row.idProducto])] else [])
         + JoinProducto(s[1..], productos)
  }

  lemma {:induction false} JoinProductoMember(s: seq<Entry<DetalleVenta>>, productos: map<int, Producto>, x: DetalleListado)
    ensures x in JoinProducto(s, productos) <==>
            exists e :: e in s && e.row.idProducto in productos && x == Listado(e, productos[e.row.idProducto])
  {
    if s != [] {
      JoinProductoMember(s[1..], productos, x);
      if x in JoinProducto(s[1..], productos) {
        var e :| e in s[1..] && e.row.idProducto in productos && x == Listado(e, productos[e.row.idProducto]);
        assert e in s;
      }
    }
  }

  /** `get_detalles_venta(v)`. */
  function GetDetallesVenta(detalles: Table<DetalleVenta>, productos: Table<Producto>, idVenta: int): seq<DetalleListado>
    reads detalles, productos
  {
    JoinProducto(GetByVenta(detalles, idVenta), productos.rows)
  }

  /** A listed line is exactly a detail row of the sale whose product still
      exists, shown with that product's name. */
  lemma GetDetallesVentaMember(detalles: Table<DetalleVenta>, productos: Table<Producto>, idVenta: int, x: DetalleListado)
    requires detalles.Valid()
    ensures x in GetDetallesVenta(detalles, productos, idVenta) <==>
            x.id in detalles.rows && detalles.rows[x.id].idVenta == idVenta &&
            detalles.rows[x.id].idProducto in productos.rows &&
            x == Listado(Entry(x.id, detalles.rows[x.id]), productos.rows[detalles.rows[x.id].idProducto])
  {
    JoinProductoMember(GetByVenta(detalles, idVenta), productos.rows, x);
    if x.id in detalles.rows {
      GetByVentaMember(detalles, idVenta, Entry(x.id, detalles.rows[x.id]));
    }
    if x in GetDetallesVenta(detalles, productos, idVenta) {
      var e :| e in GetByVenta(detalles, idVenta) && e.row.idProducto in productos.rows &&
               x == Listado(e, productos.rows[e.row.idProducto]);
      GetByVentaMember(detalles, idVenta, e);
    }
  }

  // ---------------------------------------------------------------------
  // buscar_ventas_por_fecha
  // ---------------------------------------------------------------------

  /** One row of the date search: the sale's columns and, through the LEFT
      JOINs, its client's and employee's names (None when missing). */
  datatype VentaListado = VentaListado(id: int, fecha: string, total: real, cliente: Option<string>,
                                       empleado: Option<string>, idCliente: int, idEmpleado: int)

  /** `WHERE v.Fecha BETWEEN ? AND ?`, compared as text. */
  function EnRango(desde: string, hasta: string): Venta -> bool
  {
    (v: Venta) => TextLe(desde, v.fecha) && TextLe(v.fecha, hasta)
  }

  function Resumen(e: Entry<Venta>, clientes: map<int, Cliente>, empleados: map<int, Empleado>): VentaListado
  {
    VentaListado(e.id, e.row.fecha, e.row.total,
                 if e.row.idCliente in clientes then Some(clientes[e.row.idCliente].nombre) else None,
                 if e.row.idEmpleado in empleados then Some(empleados[e.row.idEmpleado].nombre) else None,
                 e.row.idCliente, e.row.idEmpleado)
  }

  /** The sales in the range, newest date first. */
  function VentasEnRango(ventas: Table<Venta>, desde: string, hasta: string): seq<Entry<Venta>>
    reads ventas
  {
    SortBy(Filter(Entries(ventas.rows, ventas.nextId), EnRango(desde, hasta)), VentaFecha, true)
  }

  function Resumenes(s: seq<Entry<Venta>>, clientes: map<int, Cliente>, empleados: map<int, Empleado>): seq<VentaListado>
  {
    seq(|s|, i requires 0 <= i < |s| => Resumen(s[i], clientes, empleados))
  }

  /** `buscar_ventas_por_fecha(desde, hasta)`. */
  function BuscarVentasPorFecha(ventas: Table<Venta>, clientes: Table<Cliente>, empleados: Table<Empleado>,
                                desde: string, hasta: string): seq<VentaListado>
    reads ventas, clientes, empleados
  {
    Resumenes(VentasEnRango(ventas, desde, hasta), clientes.rows, empleados.rows)
  }

  lemma {:induction false} CountTwice<T>(s: seq<T>, i: int, j: int)
    requires 0 <= i < j < |s| && s[i] == s[j]
    ensures multiset(s)[s[i]] >= 2
  {
    assert s == s[..j] + s[j..];
    assert s[i] == s[..j][i];
    assert s[j] == s[j..][0];
  }

  /** Every sale the search lists lies in the range, appears once, and
      carries its stored columns. */
  lemma {:induction false} VentasEnRangoEntries(ventas: Table<Venta>, desde: string, hasta: string, e: Entry<Venta>)
    requires ventas.Valid()
    ensures multiset(VentasEnRango(ventas, desde, hasta))[e] ==
            if e.id in ventas.rows && ventas.rows[e.id] == e.row && EnRango(desde, hasta)(e.row) then 1 else 0
  {
    var all := Entries(ventas.rows, ventas.nextId);
    var f := Filter(all, EnRango(desde, hasta));
    SortByCorrect(f, VentaFecha, true);
    FilterMember(all, EnRango(desde, hasta), e);
    FilterMultiset(all, EnRango(desde, hasta));
    AllEntries(ventas, e);
    EntriesIncreasing(ventas.rows, ventas.nextId);
    DistinctCount(all, e);
  }

  lemma RangeListed(ventas: Table<Venta>, desde: string, hasta: string, i: int)
    requires ventas.Valid()
    requires 0 <= i < |VentasEnRango(ventas, desde, hasta)|
    ensures var e := VentasEnRango(ventas, desde, hasta)[i];
      e.id in ventas.rows && ventas.rows[e.id] == e.row && EnRango(desde, hasta)(e.row)
  {
    VentasEnRangoEntries(ventas, desde, hasta, VentasEnRango(ventas, desde, hasta)[i]);
  }

  lemma RangeDistinct(ventas: Table<Venta>, desde: string, hasta: string)
    requires ventas.Valid()
    ensures var s := VentasEnRango(ventas, desde, hasta);
      forall i, j :: 0 <= i < j < |s| ==> s[i].id != s[j].id
  {
    var s := VentasEnRango(ventas, desde, hasta);
    forall i, j | 0 <= i < j < |s| ensures s[i].id != s[j].id {
      if s[i].id == s[j].id {
        RangeListed(ventas, desde, hasta, i);
        RangeListed(ventas, desde, hasta, j);
        VentasEnRangoEntries(ventas, desde, hasta, s[i]);
        CountTwice(s, i, j);
      }
    }
  }

  lemma RangeComplete(ventas: Table<Venta>, desde: string, hasta: string, k: int)
    requires ventas.Valid()
    requires k in ventas.rows && EnRango(desde, hasta)(ventas.rows[k])
    ensures exists i :: 0 <= i < |VentasEnRango(ventas, desde, hasta)| && VentasEnRango(ventas, desde, hasta)[i].id == k
  {
    var s := VentasEnRango(ventas, desde, hasta);
    var e := Entry(k, ventas.rows[k]);
    VentasEnRangoEntries(ventas, desde, hasta, e);
    assert e in multiset(s);
    var i :| 0 <= i < |s| && s[i] == e;
  }

  /** The date search lists the sales whose date lies in [desde, hasta]
      (compared as text, both ends included): each of them exactly once,
      with its own columns and its client's and employee's names, ordered
      by date from newest to oldest. */
  lemma BuscarVentasPorFechaCorrect(ventas: Table<Venta>, clientes: Table<Cliente>, empleados: Table<Empleado>,
                                    desde: string, hasta: string)
    requires ventas.Valid()
    ensures var r := BuscarVentasPorFecha(ventas, clientes, empleados, desde, hasta);
      forall i, j :: 0 <= i < j < |r| ==> TextLe(r[j].fecha, r[i].fecha) && r[i].id != r[j].id
    ensures var r := BuscarVentasPorFecha(ventas, clientes, empleados, desde, hasta);
      forall i :: 0 <= i < |r| ==>
        r[i].id in ventas.rows && TextLe(desde, r[i].fecha) && TextLe(r[i].fecha, hasta) &&
        r[i] == Resumen(Entry(r[i].id, ventas.rows[r[i].id]), clientes.rows, empleados.rows)
    ensures var r := BuscarVentasPorFecha(ventas, clientes, empleados, desde, hasta);
      forall k :: k in ventas.rows && TextLe(desde, ventas.rows[k].fecha) && TextLe(ventas.rows[k].fecha, hasta) ==>
        exists i :: 0 <= i < |r| && r[i].id == k
  {
    var s := VentasEnRango(ventas, desde, hasta);
    var r := BuscarVentasPorFecha(ventas, clientes, empleados, desde, hasta);
    SortByCorrect(Filter(Entries(ventas.rows, ventas.nextId), EnRango(desde, hasta)), VentaFecha, true);
    RangeDistinct(ventas, desde, hasta);
    forall i | 0 <= i < |r|
      ensures r[i].id in ventas.rows && TextLe(desde, r[i].fecha) && TextLe(r[i].fecha, hasta) &&
              r[i] == Resumen(Entry(r[i].id, ventas.rows[r[i].id]), clientes.rows, empleados.rows)
    {
      RangeListed(ventas, desde, hasta, i);
    }
    forall k | k in ventas.rows && TextLe(desde, ventas.rows[k].fecha) && TextLe(ventas.rows[k].fecha, hasta)
      ensures exists i :: 0 <= i < |r| && r[i].id == k
    {
      RangeComplete(ventas, desde, hasta, k);
      var i :| 0 <= i < |s| && s[i].id == k;
      assert r[i].id == k;
    }
  }
}

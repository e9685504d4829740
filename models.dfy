/** The record classes of database/models.py over an in-memory store.

    Every table is a map from row id to the row's columns plus the counter
    that hands out the next row id.  A Python model object (a Categoria, a
    Producto, ...) is a `Record`: the id it holds (None before its first
    save) and the column values it carries.  `save`, `delete`,
    `update_stock`, `get_by_id`, `get_all`, `get_by_categoria` and
    `get_by_venta` are modelled on top of that store. */
module Models {
  import opened Wrappers

  // ---------------------------------------------------------------------
  // Rows
  // ---------------------------------------------------------------------

  datatype Categoria = Categoria(nombre: string, descripcion: string)

  datatype Producto = Producto(nombre: string, precio: real, stock: int, idCategoria: int)

  datatype Venta = Venta(fecha: string, total: real, idCliente: int, idEmpleado: int)

  datatype DetalleVenta = DetalleVenta(idVenta: int, idProducto: int, cantidad: int, precio: real, subtotal: real)

  datatype Cliente = Cliente(nombre: string, telefono: string, dni: string, direccion: string)

  datatype Empleado = Empleado(nombre: string, correo: string, telefono: string, direccion: string)

  /** A row as a query returns it: its id and its columns. */
  datatype Entry<R> = Entry(id: int, row: R)

  /** Python truthiness of an optional id: None and 0 are false. */
  predicate Truthy(id: Option<int>) {
    id.Some? && id.value != 0
  }

  // ---------------------------------------------------------------------
  // Table updates as functions of the old rows
  // ---------------------------------------------------------------------

  /** `UPDATE ... WHERE id = ?`: replaces the row with that id; no row has
      that id, nothing changes. */
  function Updated<R>(rows: map<int, R>, id: int, r: R): (m: map<int, R>)
    ensures m.Keys == rows.Keys
    ensures forall k :: k in m ==> m[k] == (if k == id then r else rows[k])
  {
    if id in rows then rows[id := r] else rows
  }

  /** `UPDATE Producto SET Stock = ? WHERE idProducto = ?`: only the Stock
      column of that one row is written. */
  function StockWritten(rows: map<int, Producto>, id: int, stock: int): (m: map<int, Producto>)
    ensures m.Keys == rows.Keys
    ensures forall k :: k in m && k != id ==> m[k] == rows[k]
    ensures id in rows ==> m[id] == rows[id].(stock := stock)
  {
    if id in rows then rows[id := rows[id].(stock := stock)] else rows
  }

  // ---------------------------------------------------------------------
  // The store
  // ---------------------------------------------------------------------

  /** One table: its rows by id and the id the next insert receives. */
  class Table<R> {
    var rows: map<int, R>
    var nextId: int

    ghost predicate Valid()
      reads this
    {
      nextId >= 1 && forall k :: k in rows ==> 1 <= k < nextId
    }

    constructor ()
      ensures Valid() && rows == map[] && nextId == 1
    {
      rows := map[];
      nextId := 1;
    }

    /** `INSERT`: a new row under a fresh id, which is returned
        (`cursor.lastrowid`). */
    method Insert(r: R) returns (id: int)
      requires Valid()
      modifies this
      ensures Valid()
      ensures id == old(nextId) && id >= 1 && id !in old(rows)
      ensures rows == old(rows)[id := r] && nextId == old(nextId) + 1
    {
      id := nextId;
      rows := rows[id := r];
      nextId := nextId + 1;
    }

    /** `UPDATE ... WHERE id = ?`. */
    method Update(id: int, r: R)
      requires Valid()
      modifies this
      ensures Valid()
      ensures rows == Updated(old(rows), id, r) && nextId == old(nextId)
    {
      rows := Updated(rows, id, r);
    }

    /** `DELETE ... WHERE id = ?`. */
    method Remove(id: int)
      requires Valid()
      modifies this
      ensures Valid()
      ensures rows == old(rows) - {id} && nextId == old(nextId)
    {
      rows := rows - {id};
    }

    /** `SELECT * ... WHERE id = ?`. */
    function Get(id: int): (r: Option<R>)
      reads this
      ensures r.Some? <==> id in rows
      ensures r.Some? ==> r.value == rows[id]
    {
      if id in rows then Some(rows[id]) else None
    }
  }

  /** A model object: the id it holds and its column values. */
  class Record<R> {
    var id: Option<int>
    var data: R

    constructor (id: Option<int>, data: R)
      ensures this.id == id && this.data == data
    {
      this.id := id;
      this.data := data;
    }

    /** `save`: inserts when the object has no id (and takes the new id),
        otherwise updates the row with its id; returns the id either way. */
    method Save(t: Table<R>) returns (saved: int)
      requires t.Valid()
      modifies this, t
      ensures t.Valid() && data == old(data) && id == Some(saved)
      ensures old(id).None? ==>
        saved == old(t.nextId) && saved !in old(t.rows) &&
        t.rows == old(t.rows)[saved := data] && t.nextId == old(t.nextId) + 1
      ensures old(id).Some? ==>
        saved == old(id).value &&
        t.rows == Updated(old(t.rows), saved, data) && t.nextId == old(t.nextId)
    {
      if id.None? {
        saved := t.Insert(data);
        id := Some(saved);
      } else {
        saved := id.value;
        t.Update(saved, data);
      }
    }

    /** `delete`: removes the row and answers True when the id is truthy;
        otherwise answers False and changes nothing. */
    method Delete(t: Table<R>) returns (ok: bool)
      requires t.Valid()
      modifies t
      ensures t.Valid() && t.nextId == old(t.nextId)
      ensures ok == Truthy(id)
      ensures t.rows == if ok then old(t.rows) - {id.value} else old(t.rows)
    {
      ok := Truthy(id);
      if ok {
        t.Remove(id.value);
      }
    }
  }

  /** `get_by_id`: a fresh object for the row with that id, or None. */
  method GetById<R>(t: Table<R>, id: int) returns (r: Option<Record<R>>)
    ensures r.Some? <==> id in t.rows
    ensures r.Some? ==> fresh(r.value) && r.value.id == Some(id) && r.value.data == t.rows[id]
  {
    if id in t.rows {
      var rec := new Record(Some(id), t.rows[id]);
      r := Some(rec);
    } else {
      r := None;
    }
  }

  /** `Producto.update_stock(cantidad)`: with a truthy id, adds the signed
      quantity to the object's stock and writes that value to the Stock
      column of its row (whatever the row held before). */
  method UpdateStock(p: Record<Producto>, t: Table<Producto>, cantidad: int) returns (ok: bool)
    requires t.Valid()
    modifies p, t
    ensures t.Valid() && t.nextId == old(t.nextId) && p.id == old(p.id)
    ensures ok == Truthy(p.id)
    ensures p.data == if ok then old(p.data).(stock := old(p.data.stock) + cantidad) else old(p.data)
    ensures t.rows == if ok then StockWritten(old(t.rows), p.id.value, p.data.stock) else old(t.rows)
  {
    ok := Truthy(p.id);
    if ok {
      p.data := p.data.(stock := p.data.stock + cantidad);
      t.rows := StockWritten(t.rows, p.id.value, p.data.stock);
    }
  }

  // ---------------------------------------------------------------------
  // Listings
  // ---------------------------------------------------------------------

  /** The rows with ids in [1, n), in id order (the order a query without
      ORDER BY is taken to return). */
  function Entries<R>(rows: map<int, R>, n: int): (s: seq<Entry<R>>)
    decreases n
  {
    if n <= 1 then []
    else Entries(rows, n - 1) + (if n - 1 in rows then [Entry(n - 1, rows[n - 1])] else [])
  }

  lemma {:induction false} EntriesMember<R>(rows: map<int, R>, n: int, e: Entry<R>)
    ensures e in Entries(rows, n) <==> 1 <= e.id < n && e.id in rows && rows[e.id] == e.row
    decreases n
  {
    if n > 1 {
      EntriesMember(rows, n - 1, e);
    }
  }

  lemma {:induction false} EntriesIncreasing<R>(rows: map<int, R>, n: int)
    ensures forall i, j :: 0 <= i < j < |Entries(rows, n)| ==> Entries(rows, n)[i].id < Entries(rows, n)[j].id
    decreases n
  {
    if n > 1 {
      EntriesIncreasing(rows, n - 1);
      var s := Entries(rows, n - 1);
      forall e | e in s ensures e.id < n - 1 {
        EntriesMember(rows, n - 1, e);
      }
    }
  }

  /** The whole table: every row appears, once, in id order. */
  lemma AllEntries<R>(t: Table<R>, e: Entry<R>)
    requires t.Valid()
    ensures e in Entries(t.rows, t.nextId) <==> e.id in t.rows && t.rows[e.id] == e.row
  {
    EntriesMember(t.rows, t.nextId, e);
  }

  function Filter<R>(s: seq<Entry<R>>, p: R -> bool): (r: seq<Entry<R>>)
  {
    if s == [] then []
    else (if p(s[0].row) then [s[0]] else []) + Filter(s[1..], p)
  }

  lemma {:induction false} FilterMember<R>(s: seq<Entry<R>>, p: R -> bool, e: Entry<R>)
    ensures e in Filter(s, p) <==> e in s && p(e.row)
  {
    if s != [] {
      FilterMember(s[1..], p, e);
    }
  }

  lemma {:induction false} FilterConcat<R>(a: seq<Entry<R>>, b: seq<Entry<R>>, p: R -> bool)
    ensures Filter(a + b, p) == Filter(a, p) + Filter(b, p)
  {
    if a != [] {
      FilterConcat(a[1..], b, p);
      assert (a + b)[0] == a[0];
      assert (a + b)[1..] == a[1..] + b;
    } else {
      assert a + b == b;
    }
  }

  /** Entries depend only on the rows with ids below the bound. */
  lemma {:induction false} EntriesAgree<R>(r1: map<int, R>, r2: map<int, R>, n: int)
    requires forall k :: 1 <= k < n ==> (k in r1 <==> k in r2)
    requires forall k :: 1 <= k < n && k in r1 ==> r1[k] == r2[k]
    ensures Entries(r1, n) == Entries(r2, n)
    decreases n
  {
    if n > 1 {
      EntriesAgree(r1, r2, n - 1);
    }
  }

  /** Two tables that agree below `n` and where `r1` has `v` at `n` list
      the same rows, `r1` with one more at the end. */
  lemma EntriesExtended<R>(r1: map<int, R>, r2: map<int, R>, n: int, v: R)
    requires n >= 1 && n in r1 && r1[n] == v
    requires forall k :: 1 <= k < n ==> (k in r1 <==> k in r2)
    requires forall k :: 1 <= k < n && k in r1 ==> r1[k] == r2[k]
    ensures Entries(r1, n + 1) == Entries(r2, n) + [Entry(n, v)]
  {
    EntriesAgree(r1, r2, n);
  }

  lemma {:induction false} FilterMultiset<R>(s: seq<Entry<R>>, p: R -> bool)
    ensures multiset(Filter(s, p)) <= multiset(s)
  {
    if s != [] {
      FilterMultiset(s[1..], p);
      assert s == [s[0]] + s[1..];
    }
  }

  /** `WHERE idVenta = ?` */
  function OfVenta(v: int): DetalleVenta -> bool
  {
    (d: DetalleVenta) => d.idVenta == v
  }

  /** `DetalleVenta.get_by_venta(v)`. */
  function GetByVenta(t: Table<DetalleVenta>, v: int): seq<Entry<DetalleVenta>>
    reads t
  {
    Filter(Entries(t.rows, t.nextId), OfVenta(v))
  }

  /** `get_by_venta` returns exactly the detail rows of sale `v`. */
  lemma GetByVentaMember(t: Table<DetalleVenta>, v: int, e: Entry<DetalleVenta>)
    requires t.Valid()
    ensures e in GetByVenta(t, v) <==> e.id in t.rows && t.rows[e.id] == e.row && e.row.idVenta == v
  {
    FilterMember(Entries(t.rows, t.nextId), OfVenta(v), e);
    AllEntries(t, e);
  }

  // ---------------------------------------------------------------------
  // ORDER BY on text columns
  // ---------------------------------------------------------------------

  /** SQLite's BINARY collation on text: code-point lexicographic order. */
  predicate TextLe(a: string, b: string)
  {
    |a| == 0 || (|b| > 0 && (a[0] < b[0] || (a[0] == b[0] && TextLe(a[1..], b[1..]))))
  }

  lemma {:induction false} TextLeTotal(a: string, b: string)
    ensures TextLe(a, b) || TextLe(b, a)
  {
    if |a| > 0 && |b| > 0 && a[0] == b[0] {
      TextLeTotal(a[1..], b[1..]);
    }
  }

  lemma {:induction false} TextLeTrans(a: string, b: string, c: string)
    requires TextLe(a, b) && TextLe(b, c)
    ensures TextLe(a, c)
  {
    if |a| > 0 && |b| > 0 && |c| > 0 && a[0] == b[0] && b[0] == c[0] {
      TextLeTrans(a[1..], b[1..], c[1..]);
    }
  }

  lemma {:induction false} TextLeAntisym(a: string, b: string)
    requires TextLe(a, b) && TextLe(b, a)
    ensures a == b
  {
    if |a| > 0 && |b| > 0 {
      TextLeAntisym(a[1..], b[1..]);
    }
  }

  /** Whether `x` may precede `y` when ordering by `key`, ascending or
      descending. */
  predicate InOrder<R>(x: Entry<R>, y: Entry<R>, key: R -> string, desc: bool)
  {
    if desc then TextLe(key(y.row), key(x.row)) else TextLe(key(x.row), key(y.row))
  }

  lemma InOrderTotal<R>(x: Entry<R>, y: Entry<R>, key: R -> string, desc: bool)
    ensures InOrder(x, y, key, desc) || InOrder(y, x, key, desc)
  {
    TextLeTotal(key(x.row), key(y.row));
  }

  lemma InOrderTrans<R>(x: Entry<R>, y: Entry<R>, z: Entry<R>, key: R -> string, desc: bool)
    requires InOrder(x, y, key, desc) && InOrder(y, z, key, desc)
    ensures InOrder(x, z, key, desc)
  {
    if desc {
      TextLeTrans(key(z.row), key(y.row), key(x.row));
    } else {
      TextLeTrans(key(x.row), key(y.row), key(z.row));
    }
  }

  predicate SortedBy<R>(s: seq<Entry<R>>, key: R -> string, desc: bool)
  {
    forall i, j :: 0 <= i < j < |s| ==> InOrder(s[i], s[j], key, desc)
  }

  /** Places `x` before the first element it may precede. */
  function InsertSorted<R>(x: Entry<R>, s: seq<Entry<R>>, key: R -> string, desc: bool): seq<Entry<R>>
  {
    if s == [] || InOrder(x, s[0], key, desc) then [x] + s
    else [s[0]] + InsertSorted(x, s[1..], key, desc)
  }

  /** `ORDER BY key [DESC]`: insertion sort, keeping the incoming order of
      rows with equal keys. */
  function SortBy<R>(s: seq<Entry<R>>, key: R -> string, desc: bool): seq<Entry<R>>
  {
    if s == [] then [] else InsertSorted(s[0], SortBy(s[1..], key, desc), key, desc)
  }

  lemma {:induction false} InsertSortedMultiset<R>(x: Entry<R>, s: seq<Entry<R>>, key: R -> string, desc: bool)
    ensures multiset(InsertSorted(x, s, key, desc)) == multiset(s) + multiset{x}
  {
    if s != [] && !InOrder(x, s[0], key, desc) {
      InsertSortedMultiset(x, s[1..], key, desc);
      assert s == [s[0]] + s[1..];
    }
  }

  lemma {:induction false} InsertSortedSorted<R>(x: Entry<R>, s: seq<Entry<R>>, key: R -> string, desc: bool)
    requires SortedBy(s, key, desc)
    ensures SortedBy(InsertSorted(x, s, key, desc), key, desc)
  {
    var r := InsertSorted(x, s, key, desc);
    if s == [] {
    } else if InOrder(x, s[0], key, desc) {
      forall j | 1 <= j < |r| ensures InOrder(x, r[j], key, desc) {
        if j > 1 { InOrderTrans(x, s[0], s[j - 1], key, desc); }
      }
    } else {
      var t := InsertSorted(x, s[1..], key, desc);
      InsertSortedSorted(x, s[1..], key, desc);
      InsertSortedMultiset(x, s[1..], key, desc);
      InOrderTotal(x, s[0], key, desc);
      forall j | 0 <= j < |t| ensures InOrder(s[0], t[j], key, desc) {
        assert t[j] in multiset(t);
        if t[j] != x {
          assert t[j] in multiset(s[1..]);
          var k :| 0 <= k < |s[1..]| && s[1..][k] == t[j];
          assert s[k + 1] == t[j];
        }
      }
      assert r == [s[0]] + t;
    }
  }

  lemma {:induction false} SortByCorrect<R>(s: seq<Entry<R>>, key: R -> string, desc: bool)
    ensures SortedBy(SortBy(s, key, desc), key, desc)
    ensures multiset(SortBy(s, key, desc)) == multiset(s)
  {
    if s != [] {
      SortByCorrect(s[1..], key, desc);
      InsertSortedSorted(s[0], SortBy(s[1..], key, desc), key, desc);
      InsertSortedMultiset(s[0], SortBy(s[1..], key, desc), key, desc);
      assert s == [s[0]] + s[1..];
    }
  }

  function CategoriaNombre(c: Categoria): string { c.nombre }
  function ProductoNombre(p: Producto): string { p.nombre }
  function VentaFecha(v: Venta): string { v.fecha }
  function ClienteNombre(c: Cliente): string { c.nombre }
  function EmpleadoNombre(e: Empleado): string { e.nombre }

  /** `get_all` of Categoria: ORDER BY NombreCat. */
  function AllCategorias(t: Table<Categoria>): seq<Entry<Categoria>>
    reads t
  {
    SortBy(Entries(t.rows, t.nextId), CategoriaNombre, false)
  }

  /** `get_all` of Producto: ORDER BY NombrePro. */
  function AllProductos(t: Table<Producto>): seq<Entry<Producto>>
    reads t
  {
    SortBy(Entries(t.rows, t.nextId), ProductoNombre, false)
  }

  /** `WHERE idCategoria = ?` */
  function DeCategoria(c: int): Producto -> bool
  {
    (p: Producto) => p.idCategoria == c
  }

  /** `get_by_categoria`: the products of one category, ORDER BY NombrePro. */
  function ProductosDeCategoria(t: Table<Producto>, c: int): seq<Entry<Producto>>
    reads t
  {
    SortBy(Filter(Entries(t.rows, t.nextId), DeCategoria(c)), ProductoNombre, false)
  }

  /** `get_by_categoria` lists, by name, exactly the products of that
      category. */
  lemma ProductosDeCategoriaCorrect(t: Table<Producto>, c: int, e: Entry<Producto>)
    requires t.Valid()
    ensures SortedBy(ProductosDeCategoria(t, c), ProductoNombre, false)
    ensures e in ProductosDeCategoria(t, c) <==> e.id in t.rows && t.rows[e.id] == e.row && e.row.idCategoria == c
  {
    var f := Filter(Entries(t.rows, t.nextId), DeCategoria(c));
    SortByCorrect(f, ProductoNombre, false);
    assert e in ProductosDeCategoria(t, c) <==> e in multiset(f);
    FilterMember(Entries(t.rows, t.nextId), DeCategoria(c), e);
    AllEntries(t, e);
  }

  /** `get_all` of Venta: ORDER BY Fecha DESC. */
  function AllVentas(t: Table<Venta>): seq<Entry<Venta>>
    reads t
  {
    SortBy(Entries(t.rows, t.nextId), VentaFecha, true)
  }

  /** `get_all` of Cliente: ORDER BY NombreCli. */
  function AllClientes(t: Table<Cliente>): seq<Entry<Cliente>>
    reads t
  {
    SortBy(Entries(t.rows, t.nextId), ClienteNombre, false)
  }

  /** `get_all` of Empleado: ORDER BY NombreEmp. */
  function AllEmpleados(t: Table<Empleado>): seq<Entry<Empleado>>
    reads t
  {
    SortBy(Entries(t.rows, t.nextId), EmpleadoNombre, false)
  }

  /** A listing sorted by `key` holds every row of the table exactly once. */
  lemma {:induction false} SortedListing<R>(t: Table<R>, key: R -> string, desc: bool, e: Entry<R>)
    requires t.Valid()
    ensures SortedBy(SortBy(Entries(t.rows, t.nextId), key, desc), key, desc)
    ensures multiset(SortBy(Entries(t.rows, t.nextId), key, desc))[e] ==
            if e.id in t.rows && t.rows[e.id] == e.row then 1 else 0
  {
    var s := Entries(t.rows, t.nextId);
    SortByCorrect(s, key, desc);
    AllEntries(t, e);
    EntriesIncreasing(t.rows, t.nextId);
    DistinctCount(s, e);
  }

  lemma {:induction false} DistinctCount<R>(s: seq<Entry<R>>, e: Entry<R>)
    requires forall i, j :: 0 <= i < j < |s| ==> s[i].id < s[j].id
    ensures multiset(s)[e] == if e in s then 1 else 0
  {
    if s != [] {
      DistinctCount(s[1..], e);
      assert s == [s[0]] + s[1..];
      if e == s[0] {
        assert e !in s[1..] by {
          forall k | 0 <= k < |s[1..]| ensures s[1..][k] != e {
            assert s[k + 1].id > s[0].id;
          }
        }
      }
    }
  }

  /** get_all of Categoria, Producto, Cliente and Empleado is in ascending
      name order, Venta in descending date order (that each holds every
      row of its table once is `SortedListing`). */
  lemma GetAllOrdered(cs: Table<Categoria>, ps: Table<Producto>, vs: Table<Venta>,
                      cl: Table<Cliente>, es: Table<Empleado>)
    requires cs.Valid() && ps.Valid() && vs.Valid() && cl.Valid() && es.Valid()
    ensures forall i, j :: 0 <= i < j < |AllCategorias(cs)| ==>
              TextLe(AllCategorias(cs)[i].row.nombre, AllCategorias(cs)[j].row.nombre)
    ensures forall i, j :: 0 <= i < j < |AllProductos(ps)| ==>
              TextLe(AllProductos(ps)[i].row.nombre, AllProductos(ps)[j].row.nombre)
    ensures forall i, j :: 0 <= i < j < |AllVentas(vs)| ==>
              TextLe(AllVentas(vs)[j].row.fecha, AllVentas(vs)[i].row.fecha)
    ensures forall i, j :: 0 <= i < j < |AllClientes(cl)| ==>
              TextLe(AllClientes(cl)[i].row.nombre, AllClientes(cl)[j].row.nombre)
    ensures forall i, j :: 0 <= i < j < |AllEmpleados(es)| ==>
              TextLe(AllEmpleados(es)[i].row.nombre, AllEmpleados(es)[j].row.nombre)
  {
    SortByCorrect(Entries(cs.rows, cs.nextId), CategoriaNombre, false);
    SortByCorrect(Entries(ps.rows, ps.nextId), ProductoNombre, false);
    SortByCorrect(Entries(vs.rows, vs.nextId), VentaFecha, true);
    SortByCorrect(Entries(cl.rows, cl.nextId), ClienteNombre, false);
    SortByCorrect(Entries(es.rows, es.nextId), EmpleadoNombre, false);
  }
}

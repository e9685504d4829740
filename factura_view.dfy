/** The invoice form of views/factura_view.py.

    The Treeview of products becomes a sequence of rows; a row keeps its
    quantity as a number and its price and subtotal as the amounts that
    format_currency shows, so what float() reads back from a column is the
    amount rounded to two decimals.  The form's StringVars are string
    fields of a class; the tax percentage is the value its DoubleVar gives
    back, None when that cannot be read. */
module FacturaView {
  import opened Wrappers
  import opened Text
  import opened Helpers
  import opened Models
  import opened FacturaController

  const Placeholder: string := "Seleccionar producto..."

  /** The amount text the form writes for zero. */
  const Cero: string := "S/ 0.00"

  /** One row of the product list: name, quantity, unit price, subtotal. */
  datatype Fila = Fila(nombre: string, cantidad: int, precio: real, subtotal: real)

  // ---------------------------------------------------------------------
  // The amounts under the list
  // ---------------------------------------------------------------------

  /** What the loop of `actualizar_subtotal_automatico` adds up: each row's
      subtotal as float() reads it back from its column. */
  function SumaFilas(filas: seq<Fila>): real
  {
    if |filas| == 0 then 0.0
    else SumaFilas(filas[..|filas| - 1]) + Rounded(filas[|filas| - 1].subtotal, 2)
  }

  /** The column text of an amount reads back as the amount rounded. */
  lemma ColumnaLeida(x: real)
    ensures ParseDecimal(Unformat(FormatCurrency(x))) == Some(Rounded(x, 2))
  {
    FormatCurrencyRoundTrip(x);
  }

  /** An amount field as `calcular_totales` and `guardar_factura` read it:
      "S/", "$" and ',' removed, blanks stripped, empty text is 0.0, and
      text float() rejects is None. */
  function LeerMonto(txt: string): (r: Option<real>)
    ensures CleanAmount(txt) == "" ==> r == Some(0.0)
  {
    var t := CleanAmount(txt);
    if t == "" then Some(0.0) else ParseDecimal(t)
  }

  /** How `calcular_totales` ends: the subtotal cannot be read (both
      fields show zero), the percentage cannot be read once the subtotal
      was (the DoubleVar raises TclError, which neither handler catches,
      so both fields keep their text), or the tax and total it sets. */
  datatype Totales = Ceros | SinPorcentaje | Calculados(impuesto: real, total: real)

  /** `calcular_totales` on the subtotal text and the percentage (None
      when the DoubleVar cannot read its field). */
  function Montos(subtotalTxt: string, pct: Option<real>): Totales
  {
    match LeerMonto(subtotalTxt)
    case None => Ceros
    case Some(s) =>
      if pct.None? then SinPorcentaje
      else Calculados(Impuesto(s, pct.value), s + Impuesto(s, pct.value))
  }

  /** A subtotal text that reads as s gives the error exactly when the
      percentage cannot be read; otherwise the tax is s times the
      percentage over 100 and the total s plus that tax. */
  lemma MontosDe(txt: string, s: real, pct: Option<real>)
    requires LeerMonto(txt) == Some(s)
    ensures Montos(txt, pct).SinPorcentaje? <==> pct.None?
    ensures pct.Some? ==> Montos(txt, pct).impuesto == s * pct.value / 100.0
    ensures pct.Some? ==> Montos(txt, pct).total == s + Montos(txt, pct).impuesto
  {
  }

  /** The subtotal field set from an amount x reads back as x rounded to
      two decimals. */
  lemma SubtotalLeido(x: real)
    ensures LeerMonto(FormatCurrency(x)) == Some(Rounded(x, 2))
  {
    FixedTextValue(x, 2);
    UnformatFallback(FixedText(x, 2));
  }

  /** After the subtotal field is set from an amount x, the tax and total
      are worked out on x rounded to two decimals. */
  lemma MontosTrasSubtotal(x: real, pct: Option<real>)
    ensures Montos(FormatCurrency(x), pct).SinPorcentaje? <==> pct.None?
    ensures pct.Some? ==>
      Montos(FormatCurrency(x), pct) == Calculados(Impuesto(Rounded(x, 2), pct.value),
                                                   Rounded(x, 2) + Impuesto(Rounded(x, 2), pct.value))
  {
    var t := FormatCurrency(x);
    var s := Rounded(x, 2);
    assert LeerMonto(t) == Some(s) by { SubtotalLeido(x); }
    MontosDe(t, s, pct);
  }

  /** Equal amounts show the same text. */
  lemma MismoMonto(a: real, b: real)
    requires a == b
    ensures FormatCurrency(a) == FormatCurrency(b)
  {
  }

  /** An empty subtotal text counts as zero, and so do the tax and total
      at any readable percentage. */
  lemma MontosDeVacio(pct: real)
    ensures Montos("", Some(pct)) == Calculados(0.0, 0.0)
  {
    assert Unformat("") == "";
    assert Strip("") == "";
  }

  // ---------------------------------------------------------------------
  // agregar_producto
  // ---------------------------------------------------------------------

  datatype Resultado = SinProducto | DatoInvalido | CantidadInvalida | NoEncontrado | Sumado | Agregado

  predicate Rechazo(o: Resultado) {
    o != Sumado && o != Agregado
  }

  /** `int(self.producto_var.get().split(' - ')[0])`. */
  function IdElegido(sel: string): Option<int> {
    ParseInt(Before(sel, " - "))
  }

  /** The first row with that product name, if any. */
  function BuscarNombre(filas: seq<Fila>, nombre: string): (k: Option<nat>)
    ensures k.Some? ==> k.value < |filas| && filas[k.value].nombre == nombre &&
                        forall j :: 0 <= j < k.value ==> filas[j].nombre != nombre
    ensures k.None? ==> forall j :: 0 <= j < |filas| ==> filas[j].nombre != nombre
    decreases |filas|
  {
    if |filas| == 0 then None
    else if filas[0].nombre == nombre then Some(0)
    else match BuscarNombre(filas[1..], nombre)
      case None => None
      case Some(k) => Some(k + 1)
  }

  /** A checked product and quantity: a row with the same name grows by
      the quantity and is priced again at the product's current price;
      otherwise a new row goes at the end. */
  function AgregarFila(filas: seq<Fila>, p: Producto, n: int): (Resultado, seq<Fila>)
  {
    match BuscarNombre(filas, p.nombre)
    case Some(i) =>
      var nueva := filas[i].cantidad + n;
      (Sumado, filas[i := Fila(p.nombre, nueva, p.precio, CalculateSubtotal(p.precio, nueva))])
    case None =>
      (Agregado, filas + [Fila(p.nombre, n, p.precio, CalculateSubtotal(p.precio, n))])
  }

  /** `agregar_producto` on the rows, in the order its checks run: no real
      product chosen, an id or quantity int() rejects, a quantity of zero
      or less, a product the catalogue does not have; then `AgregarFila`. */
  function Agregar(filas: seq<Fila>, productos: map<int, Producto>, sel: string, cantidad: string)
    : (Resultado, seq<Fila>)
  {
    if sel == "" || sel == Placeholder then (SinProducto, filas)
    else if IdElegido(sel).None? || ParseInt(cantidad).None? then (DatoInvalido, filas)
    else if ParseInt(cantidad).value <= 0 then (CantidadInvalida, filas)
    else if IdElegido(sel).value !in productos then (NoEncontrado, filas)
    else AgregarFila(filas, productos[IdElegido(sel).value], ParseInt(cantidad).value)
  }

  /** A rejected add leaves the rows, and the checks run in order. */
  lemma AgregarRechazado(filas: seq<Fila>, productos: map<int, Producto>, sel: string, cantidad: string)
    ensures var (o, c) := Agregar(filas, productos, sel, cantidad);
      (Rechazo(o) ==> c == filas) &&
      (sel == "" || sel == Placeholder ==> o == SinProducto) &&
      (sel != "" && sel != Placeholder && ParseInt(cantidad).None? ==> o == DatoInvalido) &&
      ((sel != "" && sel != Placeholder && IdElegido(sel).Some? && ParseInt(cantidad).Some? &&
        ParseInt(cantidad).value <= 0) ==> o == CantidadInvalida) &&
      ((sel != "" && sel != Placeholder && IdElegido(sel).Some? && ParseInt(cantidad).Some? &&
        ParseInt(cantidad).value > 0) ==> (o == NoEncontrado <==> IdElegido(sel).value !in productos))
  {
  }

  /** A product whose name is already listed: that row's quantity grows by
      the amount added and its subtotal is the new quantity times the
      current price; no row is added and the others stay. */
  lemma AgregarSuma(filas: seq<Fila>, p: Producto, n: int, i: nat)
    requires i < |filas| && filas[i].nombre == p.nombre
    requires forall a, b :: 0 <= a < b < |filas| ==> filas[a].nombre != filas[b].nombre
    ensures var (o, c) := AgregarFila(filas, p, n);
      o == Sumado && |c| == |filas| &&
      c[i].cantidad == filas[i].cantidad + n && c[i].precio == p.precio &&
      c[i].subtotal == CalculateSubtotal(p.precio, filas[i].cantidad + n) &&
      forall j :: 0 <= j < |filas| && j != i ==> c[j] == filas[j]
  {
    var k := BuscarNombre(filas, p.nombre);
    assert k == Some(i) by {
      if k.Some? && k.value != i {
        assert filas[k.value].nombre == filas[i].nombre;
      }
    }
  }

  /** A name not yet listed: exactly one row, priced at quantity times
      price, is appended. */
  lemma AgregarNueva(filas: seq<Fila>, p: Producto, n: int)
    ensures var (o, c) := AgregarFila(filas, p, n);
      (o == Agregado <==> forall j :: 0 <= j < |filas| ==> filas[j].nombre != p.nombre) &&
      (o == Agregado ==> c == filas + [Fila(p.nombre, n, p.precio, CalculateSubtotal(p.precio, n))])
  {
  }

  /** The rows the list can hold: names are unique, quantities are at
      least 1, and each subtotal is quantity times price. */
  predicate FilasOk(filas: seq<Fila>) {
    (forall a, b :: 0 <= a < b < |filas| ==> filas[a].nombre != filas[b].nombre) &&
    (forall j :: 0 <= j < |filas| ==> filas[j].cantidad >= 1 &&
                                      filas[j].subtotal == CalculateSubtotal(filas[j].precio, filas[j].cantidad))
  }

  /** Adding keeps the rows well formed. */
  lemma AgregarConservaFilas(filas: seq<Fila>, productos: map<int, Producto>, sel: string, cantidad: string)
    requires FilasOk(filas)
    ensures FilasOk(Agregar(filas, productos, sel, cantidad).1)
  {
    var (o, c) := Agregar(filas, productos, sel, cantidad);
    if !Rechazo(o) {
      AgregarFilaConserva(filas, productos[IdElegido(sel).value], ParseInt(cantidad).value);
    }
  }

  /** The same for a checked product and a quantity of at least 1. */
  lemma AgregarFilaConserva(filas: seq<Fila>, p: Producto, n: int)
    requires FilasOk(filas) && n >= 1
    ensures FilasOk(AgregarFila(filas, p, n).1)
  {
    var c := AgregarFila(filas, p, n).1;
    match BuscarNombre(filas, p.nombre)
    case Some(i) =>
      assert forall j :: 0 <= j < |c| && j != i ==> c[j] == filas[j];
    case None =>
      assert forall j :: 0 <= j < |filas| ==> c[j] == filas[j];
  }

  /** The sum after one row is replaced. */
  lemma {:induction false} SumaFilasCambio(filas: seq<Fila>, i: nat, f: Fila)
    requires i < |filas|
    ensures SumaFilas(filas[i := f]) == SumaFilas(filas) - Rounded(filas[i].subtotal, 2) + Rounded(f.subtotal, 2)
    decreases |filas|
  {
    var last := |filas| - 1;
    if i < last {
      assert filas[i := f][..last] == filas[..last][i := f];
      SumaFilasCambio(filas[..last], i, f);
    } else {
      assert filas[i := f][..last] == filas[..last];
    }
  }

  /** The sum after one row is removed. */
  lemma {:induction false} SumaFilasSin(filas: seq<Fila>, i: nat)
    requires i < |filas|
    ensures SumaFilas(filas[..i] + filas[i + 1..]) == SumaFilas(filas) - Rounded(filas[i].subtotal, 2)
    decreases |filas|
  {
    var last := |filas| - 1;
    var r := filas[..i] + filas[i + 1..];
    if i < last {
      assert r[..|r| - 1] == filas[..last][..i] + filas[..last][i + 1..];
      assert r[|r| - 1] == filas[last];
      SumaFilasSin(filas[..last], i);
    } else {
      assert r == filas[..last];
    }
  }

  /** A new row adds its own rounded subtotal to the shown subtotal. */
  lemma AgregarSumaFilas(filas: seq<Fila>, p: Producto, n: int)
    requires BuscarNombre(filas, p.nombre).None?
    ensures SumaFilas(AgregarFila(filas, p, n).1) == SumaFilas(filas) + Rounded(CalculateSubtotal(p.precio, n), 2)
  {
    var c := AgregarFila(filas, p, n).1;
    assert c[..|c| - 1] == filas;
  }

  /** Adding to a listed product replaces that row's rounded subtotal in
      the shown subtotal by the one at the new quantity. */
  lemma SumarSumaFilas(filas: seq<Fila>, p: Producto, n: int, i: nat)
    requires BuscarNombre(filas, p.nombre) == Some(i)
    ensures SumaFilas(AgregarFila(filas, p, n).1)
         == SumaFilas(filas) - Rounded(filas[i].subtotal, 2) + Rounded(CalculateSubtotal(p.precio, filas[i].cantidad + n), 2)
  {
    AgregarFilaEn(filas, p, n, i);
    SumaTrasCambio(filas, AgregarFila(filas, p, n).1, i, p, filas[i].cantidad + n);
  }

  /** The sum once row i is the product's row at quantity q. */
  lemma SumaTrasCambio(filas: seq<Fila>, c: seq<Fila>, i: nat, p: Producto, q: int)
    requires i < |filas| && c == filas[i := Fila(p.nombre, q, p.precio, CalculateSubtotal(p.precio, q))]
    ensures SumaFilas(c) == SumaFilas(filas) - Rounded(filas[i].subtotal, 2) + Rounded(CalculateSubtotal(p.precio, q), 2)
  {
    SumaFilasCambio(filas, i, Fila(p.nombre, q, p.precio, CalculateSubtotal(p.precio, q)));
  }

  /** The rows after adding to row i, the first with the product's name. */
  lemma AgregarFilaEn(filas: seq<Fila>, p: Producto, n: int, i: nat)
    requires i < |filas| && filas[i].nombre == p.nombre
    requires forall j :: 0 <= j < i ==> filas[j].nombre != p.nombre
    ensures AgregarFila(filas, p, n).1
         == filas[i := Fila(p.nombre, filas[i].cantidad + n, p.precio, CalculateSubtotal(p.precio, filas[i].cantidad + n))]
  {
    assert BuscarNombre(filas, p.nombre) == Some(i);
  }

  /** Removing a row keeps the rows well formed. */
  lemma SinFilaConserva(filas: seq<Fila>, i: nat)
    requires i < |filas| && FilasOk(filas)
    ensures FilasOk(filas[..i] + filas[i + 1..])
  {
    var r := filas[..i] + filas[i + 1..];
    forall j | 0 <= j < |r| ensures r[j] == filas[if j < i then j else j + 1] {
    }
  }

  // ---------------------------------------------------------------------
  // guardar_factura: the product lookup
  // ---------------------------------------------------------------------

  /** The position of the first combo entry containing the name. */
  function PrimeraCon(nombre: string, opciones: seq<string>): (k: nat)
    ensures k <= |opciones|
    ensures forall j :: 0 <= j < k ==> !Contains(opciones[j], nombre)
    ensures k < |opciones| ==> Contains(opciones[k], nombre)
    decreases |opciones|
  {
    if |opciones| == 0 then 0
    else if Contains(opciones[0], nombre) then 0
    else PrimeraCon(nombre, opciones[1..]) + 1
  }

  /** No entry contains the name; the first one that does has an id int()
      rejects (ValueError); or the id it starts with. */
  datatype Busqueda = SinCoincidencia | IdMalo | Encontrado(id: int)

  function BuscarId(nombre: string, opciones: seq<string>): Busqueda {
    var k := PrimeraCon(nombre, opciones);
    if k == |opciones| then SinCoincidencia
    else match ParseInt(Before(opciones[k], " - "))
      case None => IdMalo
      case Some(id) => Encontrado(id)
  }

  /** The item sent to the controller for a row and an id: the row's
      quantity and the price float() reads from its column. */
  function ItemDe(f: Fila, id: int): ItemFactura {
    ItemFactura(id, f.cantidad, Rounded(f.precio, 2))
  }

  /** The list `guardar_factura` builds: rows whose name matches no entry,
      or whose id is 0 (falsy), are dropped; an unreadable id is None. */
  function ProductosLista(filas: seq<Fila>, opciones: seq<string>): Option<seq<ItemFactura>>
  {
    if |filas| == 0 then Some([])
    else match ProductosLista(filas[..|filas| - 1], opciones)
      case None => None
      case Some(items) =>
        var f := filas[|filas| - 1];
        match BuscarId(f.nombre, opciones)
        case IdMalo => None
        case SinCoincidencia => Some(items)
        case Encontrado(id) => if id != 0 then Some(items + [ItemDe(f, id)]) else Some(items)
  }

  /** The items the row adds: one when it is found under a non-zero id. */
  function ItemsDeFila(f: Fila, b: Busqueda): seq<ItemFactura> {
    if b.Encontrado? && b.id != 0 then [ItemDe(f, b.id)] else []
  }

  /** One more row with a readable id extends the list by its items. */
  lemma ListaUnaFilaMas(filas: seq<Fila>, opciones: seq<string>, i: nat, items: seq<ItemFactura>)
    requires i < |filas| && ProductosLista(filas[..i], opciones) == Some(items)
    requires !BuscarId(filas[i].nombre, opciones).IdMalo?
    ensures ProductosLista(filas[..i + 1], opciones) == Some(items + ItemsDeFila(filas[i], BuscarId(filas[i].nombre, opciones)))
  {
    var g := filas[..i + 1];
    assert g[..|g| - 1] == filas[..i] && g[|g| - 1] == filas[i];
    match BuscarId(filas[i].nombre, opciones) {
      case Encontrado(id) =>
        if id != 0 {
          assert ProductosLista(g, opciones) == Some(items + [ItemDe(filas[i], id)]);
        } else {
          assert ProductosLista(g, opciones) == Some(items);
          assert items + ItemsDeFila(filas[i], Encontrado(id)) == items;
        }
      case SinCoincidencia =>
        assert ProductosLista(g, opciones) == Some(items);
        assert items + ItemsDeFila(filas[i], SinCoincidencia) == items;
    }
  }

  /** Once an id cannot be read, the whole list cannot be built. */
  lemma {:induction false} ListaFallaPrefijo(filas: seq<Fila>, opciones: seq<string>, i: nat)
    requires i <= |filas| && ProductosLista(filas[..i], opciones).None?
    ensures ProductosLista(filas, opciones).None?
    decreases |filas| - i
  {
    if i < |filas| {
      assert filas[..i + 1][..i] == filas[..i];
      ListaFallaPrefijo(filas, opciones, i + 1);
    } else {
      assert filas[..i] == filas;
    }
  }

  /** Equal rows and ids give equal items. */
  lemma MismoItem(f: Fila, id: int, g: Fila, jd: int)
    requires f == g && id == jd
    ensures ItemDe(f, id) == ItemDe(g, jd)
  {
  }

  /** Every row found under a non-zero id gives one item, in order. */
  lemma {:induction false} ListaCompleta(filas: seq<Fila>, opciones: seq<string>, ids: seq<int>)
    requires |ids| == |filas|
    requires forall j :: 0 <= j < |filas| ==> ids[j] != 0 && BuscarId(filas[j].nombre, opciones) == Encontrado(ids[j])
    ensures ProductosLista(filas, opciones).Some?
    ensures var items := ProductosLista(filas, opciones).value;
      |items| == |filas| && forall j :: 0 <= j < |filas| ==> items[j] == ItemDe(filas[j], ids[j])
    decreases |filas|
  {
    if |filas| > 0 {
      var last := |filas| - 1;
      var pre := filas[..last];
      ListaCompleta(pre, opciones, ids[..last]);
      var items0 := ProductosLista(pre, opciones).value;
      assert BuscarId(filas[last].nombre, opciones) == Encontrado(ids[last]);
      var items := items0 + [ItemDe(filas[last], ids[last])];
      assert ProductosLista(filas, opciones) == Some(items);
      forall j | 0 <= j < |filas|
        ensures items[j] == ItemDe(filas[j], ids[j])
      {
        if j < last {
          assert pre[j] == filas[j] && ids[..last][j] == ids[j];
          assert items0[j] == ItemDe(pre[j], ids[..last][j]);
          MismoItem(pre[j], ids[..last][j], filas[j], ids[j]);
          assert items[j] == items0[j];
        } else {
          assert j == last == |items0|;
          assert items[j] == ItemDe(filas[last], ids[last]);
        }
      }
    }
  }

  /** Rows whose names match no entry are all dropped. */
  lemma {:induction false} ListaSinCoincidencias(filas: seq<Fila>, opciones: seq<string>)
    requires forall j :: 0 <= j < |filas| ==> BuscarId(filas[j].nombre, opciones) == SinCoincidencia
    ensures ProductosLista(filas, opciones) == Some([])
    decreases |filas|
  {
    if |filas| > 0 {
      ListaSinCoincidencias(filas[..|filas| - 1], opciones);
    }
  }

  /** The item is what some row found under its (non-zero) id gives. */
  ghost predicate DeAlgunaFila(it: ItemFactura, filas: seq<Fila>, opciones: seq<string>) {
    it.idProducto != 0 &&
    exists j :: 0 <= j < |filas| && BuscarId(filas[j].nombre, opciones) == Encontrado(it.idProducto) &&
                it == ItemDe(filas[j], it.idProducto)
  }

  /** An item that comes from a row of a prefix comes from a row of the whole list. */
  lemma DeAlgunaFilaPrefijo(it: ItemFactura, pre: seq<Fila>, filas: seq<Fila>, opciones: seq<string>)
    requires |pre| <= |filas| && pre == filas[..|pre|]
    requires DeAlgunaFila(it, pre, opciones)
    ensures DeAlgunaFila(it, filas, opciones)
  {
    var id := it.idProducto;
    var j :| 0 <= j < |pre| && BuscarId(pre[j].nombre, opciones) == Encontrado(id) && it == ItemDe(pre[j], id);
    assert filas[j] == pre[j];
    MismoItem(pre[j], id, filas[j], id);
  }

  /** The list has at most one item per row. */
  lemma {:induction false} ListaLongitud(filas: seq<Fila>, opciones: seq<string>)
    requires ProductosLista(filas, opciones).Some?
    ensures |ProductosLista(filas, opciones).value| <= |filas|
    decreases |filas|
  {
    if |filas| > 0 {
      ListaLongitud(filas[..|filas| - 1], opciones);
    }
  }

  /** Every item of the list comes from some row with that id. */
  lemma {:induction false} ListaDeFilas(filas: seq<Fila>, opciones: seq<string>)
    requires ProductosLista(filas, opciones).Some?
    ensures var items := ProductosLista(filas, opciones).value;
      |items| <= |filas| && forall k :: 0 <= k < |items| ==> DeAlgunaFila(items[k], filas, opciones)
    decreases |filas|
  {
    if |filas| > 0 {
      var last := |filas| - 1;
      var pre := filas[..last];
      ListaLongitud(filas, opciones);
      ListaDeFilas(pre, opciones);
      var items := ProductosLista(filas, opciones).value;
      var items0 := ProductosLista(pre, opciones).value;
      var extra: seq<ItemFactura> := [];
      match BuscarId(filas[last].nombre, opciones) {
        case Encontrado(id) =>
          if id != 0 {
            extra := [ItemDe(filas[last], id)];
            assert DeAlgunaFila(extra[0], filas, opciones);
          }
        case SinCoincidencia =>
        case IdMalo => assert false;
      }
      assert items == items0 + extra;
      forall k | 0 <= k < |items|
        ensures DeAlgunaFila(items[k], filas, opciones)
      {
        if k < |items0| {
          assert items[k] == items0[k];
          DeAlgunaFilaPrefijo(items0[k], pre, filas, opciones);
        } else {
          assert items[k] == extra[0];
        }
      }
    }
  }

  // ---------------------------------------------------------------------
  // guardar_factura: the checks before any store call
  // ---------------------------------------------------------------------

  datatype Guardado =
    | SinNumero | SinCliente | SinProductos | SinEmpleados | DatosInvalidos
    | Guardada(id: int) | NoGuardada | ErrorAlGuardar

  /** What the checks hand on to the store calls. */
  datatype Datos = Datos(idCliente: int, idEmpleado: int, idVenta: Option<int>,
                         subtotal: real, impuesto: real, total: real, items: seq<ItemFactura>)

  /** The employee field once the first employee has filled a blank one. */
  function EmpleadoTras(empleado: string, empleados: seq<int>): string {
    if empleado == "" && |empleados| > 0 then IntToString(empleados[0]) else empleado
  }

  /** The form fields the store calls of `guardar_factura` use besides
      the checked data. */
  datatype Campos = Campos(facturaId: string, numero: string, estado: string, observaciones: string,
                           pct: Option<real>)

  /** What the store calls of `guardar_factura` do, once the checks have
      produced d: the invoices go from f0 (next id n0) to f1 (next id n1) and the
      lines from l0 (next id m0) to l1 (next id m1), with outcome o.
      Editing (a non-empty invoice id) updates the header with every field;
      with products listed it then fails with the error the handler shows,
      because the calls that would replace the lines do not match the
      controller's parameters (the header stays updated and the lines
      untouched).  A new invoice without products goes through
      `crear_factura` with the amounts read from the form.  One with
      products goes through `crear_factura_con_productos` at the form's
      percentage: reading that percentage can raise, an error with nothing
      stored; otherwise the lines of the items before the first unknown
      product are stored, and the invoice with its totals only when every
      product is known. */
  ghost predicate Guarda(c: Campos, d: Datos, today: string, productos: map<int, Producto>,
                         f0: map<int, Factura>, n0: int, f1: map<int, Factura>, n1: int,
                         l0: map<int, DetalleFactura>, m0: int, l1: map<int, DetalleFactura>, m1: int,
                         o: Guardado)
  {
    if c.facturaId != "" then
      l1 == l0 && n1 == n0 && m1 == m0 &&
      match ParseInt(c.facturaId)
      case None => o == DatosInvalidos && f1 == f0
      case Some(fid) =>
        o == (if fid !in f0 then NoGuardada else if d.items != [] then ErrorAlGuardar else Guardada(fid)) &&
        f1 == if fid in f0 then f0[fid := Patched(f0[fid], Cambios(d, c.numero, c.estado, c.observaciones))] else f0
    else if d.items == [] then
      o == Guardada(n0) && l1 == l0 && n1 == n0 + 1 && m1 == m0 &&
      f1 == f0[n0 := Factura(c.numero, today, d.subtotal, d.impuesto, d.total, c.estado, Some(c.observaciones),
                             d.idVenta, Some(d.idCliente), Some(d.idEmpleado))]
    else if c.pct.None? then
      o == ErrorAlGuardar && f1 == f0 && l1 == l0 && n1 == n0 && m1 == m0
    else
      var k := FirstMissing(d.items, productos);
      l1 == l0 + LineRows(d.items[..k], productos, n0, m0) && m1 == m0 + k && n1 == n0 + 1 &&
      (o.Guardada? <==> k == |d.items|) &&
      (o.Guardada? ==>
         o.id == n0 &&
         f1 == f0[n0 := ConTotales(Inicial(c.numero, today, c.estado, Some(c.observaciones), Some(d.idCliente),
                                           Some(d.idEmpleado)),
                                   SumLineas(LineasIn(l1, m1, n0)), c.pct.value)]) &&
      (!o.Guardada? ==> o == NoGuardada && f1 == f0)
  }

  /** The checks `guardar_factura` runs, in order, before calling the
      controller: a number, a client, a readable subtotal, some rows or a
      non-zero subtotal, an employee (the first one when blank), ids that
      int() reads, readable tax and total, and the product list. */
  function Preparar(numero: string, cliente: string, empleado: string, venta: string,
                    subtotalTxt: string, impuestoTxt: string, totalTxt: string,
                    filas: seq<Fila>, empleados: seq<int>, opciones: seq<string>): Result<Datos, Guardado>
  {
    if numero == "" then Failure(SinNumero)
    else if cliente == "" then Failure(SinCliente)
    else if LeerMonto(subtotalTxt).None? then Failure(DatosInvalidos)
    else if |filas| == 0 && LeerMonto(subtotalTxt).value == 0.0 then Failure(SinProductos)
    else if empleado == "" && |empleados| == 0 then Failure(SinEmpleados)
    else
      var idCliente := ParseInt(Before(cliente, " - "));
      var idEmpleado := ParseInt(EmpleadoTras(empleado, empleados));
      var idVenta := if venta == "" then Some(None) else
        match ParseInt(Before(venta, " - ")) case None => None case Some(v) => Some(Some(v));
      var imp := LeerMonto(impuestoTxt);
      var tot := LeerMonto(totalTxt);
      var items := ProductosLista(filas, opciones);
      if idCliente.None? || idEmpleado.None? || idVenta.None? || imp.None? || tot.None? || items.None? then
        Failure(DatosInvalidos)
      else
        Success(Datos(idCliente.value, idEmpleado.value, idVenta.value,
                      LeerMonto(subtotalTxt).value, imp.value, tot.value, items.value))
  }

  /** The checks reject before any store call, in their order; a blank
      employee becomes the first employee's id. */
  lemma PrepararOrden(numero: string, cliente: string, empleado: string, venta: string,
                      subtotalTxt: string, impuestoTxt: string, totalTxt: string,
                      filas: seq<Fila>, empleados: seq<int>, opciones: seq<string>)
    ensures var r := Preparar(numero, cliente, empleado, venta, subtotalTxt, impuestoTxt, totalTxt,
                              filas, empleados, opciones);
      (numero == "" ==> r == Failure(SinNumero)) &&
      (numero != "" && cliente == "" ==> r == Failure(SinCliente)) &&
      (numero != "" && cliente != "" && |filas| == 0 && CleanAmount(subtotalTxt) == "" ==> r == Failure(SinProductos)) &&
      (numero != "" && cliente != "" && LeerMonto(subtotalTxt).Some? && |filas| > 0 && empleado == "" && |empleados| == 0 ==>
         r == Failure(SinEmpleados)) &&
      (r.Success? ==> numero != "" && cliente != "" && (|filas| > 0 || r.value.subtotal != 0.0) &&
                      (empleado != "" || |empleados| > 0))
  {
  }

  /** A blank employee is saved as the first employee. */
  lemma EmpleadoPorDefecto(numero: string, cliente: string, venta: string,
                           subtotalTxt: string, impuestoTxt: string, totalTxt: string,
                           filas: seq<Fila>, empleados: seq<int>, opciones: seq<string>)
    requires |empleados| > 0
    ensures var r := Preparar(numero, cliente, "", venta, subtotalTxt, impuestoTxt, totalTxt,
                              filas, empleados, opciones);
      r.Success? ==> r.value.idEmpleado == empleados[0]
  {
    ParseIntOfString(empleados[0]);
  }

  /** The header `actualizar_factura` receives when editing. */
  function Cambios(d: Datos, numero: string, estado: string, observaciones: string): FacturaPatch {
    FacturaPatch(Some(numero), Some(d.subtotal), Some(d.impuesto), Some(d.total), Some(estado),
                 Some(observaciones), d.idVenta, Some(d.idCliente), Some(d.idEmpleado))
  }

  // ---------------------------------------------------------------------
  // The form
  // ---------------------------------------------------------------------

  class FacturaForm {
    var facturaId: string
    var numero: string
    var fecha: string
    var cliente: string
    var empleado: string
    var venta: string
    var subtotal: string
    var pct: Option<real>
    var impuesto: string
    var total: string
    var estado: string
    var observaciones: string
    var productoSel: string
    var cantidad: string
    var filas: seq<Fila>
    var opciones: seq<string>
    var empleados: seq<int>

    /** The rows are well formed (FilasOk).  Every method keeps it, and with
        it the row BuscarFila finds is the only one with that name. */
    ghost predicate Valid()
      reads this`filas
    {
      FilasOk(filas)
    }

    /** The tax and total fields show what `Montos` works out from the
        subtotal field and the percentage; never when that is the error. */
    ghost predicate MuestraTotales()
      reads this`subtotal, this`pct, this`impuesto, this`total
    {
      match Montos(subtotal, pct)
      case Ceros => impuesto == Cero && total == Cero
      case SinPorcentaje => false
      case Calculados(i, t) => impuesto == FormatCurrency(i) && total == FormatCurrency(t)
    }

    /** The form as `__init__` and `cargar_datos` leave it, with the combo
        entries and employees loaded. */
    constructor (opciones: seq<string>, empleados: seq<int>, today: string)
      ensures Valid()
      ensures this.opciones == opciones && this.empleados == empleados && filas == []
      ensures fecha == today && estado == "Pendiente" && pct == Some(PctPorDefecto)
      ensures subtotal == "" && impuesto == Cero && total == Cero && MuestraTotales()
    {
      this.opciones := opciones;
      this.empleados := empleados;
      facturaId, numero, cliente, empleado, venta, observaciones := "", "", "", "", "", "";
      subtotal := "";
      pct := Some(PctPorDefecto);
      fecha := today;
      estado := "Pendiente";
      productoSel := Placeholder;
      cantidad := "1";
      filas := [];
      MontosDeVacio(PctPorDefecto);
      FormatCurrencyZero();
      impuesto, total := Cero, Cero;
    }

    /** The subtotal field as `calcular_totales` reads it. */
    method LeerSubtotal() returns (r: Option<real>)
      ensures r == LeerMonto(subtotal)
    {
      var t := CleanAmount(subtotal);
      if t == "" {
        r := Some(0.0);
      } else {
        r := ParseDecimal(t);
      }
    }

    /** `calcular_totales`: `escapa` when the percentage's TclError
        escapes it, leaving both fields as they were; otherwise they show
        what `Montos` works out. */
    method CalcularTotales() returns (escapa: bool)
      modifies this`impuesto, this`total
      ensures escapa <==> Montos(subtotal, pct).SinPorcentaje?
      ensures !escapa ==> MuestraTotales()
      ensures escapa ==> impuesto == old(impuesto) && total == old(total)
    {
      var leido := LeerSubtotal();
      if leido.None? {
        impuesto, total := Cero, Cero;
        return false;
      }
      var s := leido.value;
      if pct.None? {
        return true;
      }
      var porcentaje := pct.value;
      var imp := Impuesto(s, porcentaje);
      ghost var m := Montos(subtotal, pct);
      MismoMonto(imp, m.impuesto);
      MismoMonto(s + imp, m.total);
      impuesto := FormatCurrency(imp);
      total := FormatCurrency(s + imp);
      escapa := false;
    }

    /** The sum of the subtotal column as the loop of
        `actualizar_subtotal_automatico` reads it back from the rows. */
    method SumarColumna() returns (suma: real)
      ensures suma == SumaFilas(filas)
    {
      suma := 0.0;
      var i := 0;
      while i < |filas|
        invariant 0 <= i <= |filas|
        invariant suma == SumaFilas(filas[..i])
      {
        var leido := ParseDecimal(Unformat(FormatCurrency(filas[i].subtotal)));
        ColumnaLeida(filas[i].subtotal);
        assert filas[..i + 1][..i] == filas[..i];
        suma := suma + leido.value;
        i := i + 1;
      }
      assert filas[..i] == filas;
    }

    /** `actualizar_subtotal_automatico`: the subtotal field shows the sum
        of the subtotal column, and the tax and total follow; `escapa`,
        with both left as they were, exactly when the percentage cannot
        be read. */
    method ActualizarSubtotal() returns (escapa: bool)
      requires Valid()
      modifies this`subtotal, this`impuesto, this`total
      ensures Valid() && filas == old(filas)
      ensures subtotal == FormatCurrency(SumaFilas(filas))
      ensures escapa <==> pct.None?
      ensures !escapa ==> MuestraTotales()
      ensures escapa ==> impuesto == old(impuesto) && total == old(total)
    {
      var suma := SumarColumna();
      subtotal := FormatCurrency(suma);
      MontosTrasSubtotal(suma, pct);
      escapa := CalcularTotales();
    }

    /** The first row with that name, or None, by the loop over the list;
        on well-formed rows, the only row with that name. */
    method BuscarFila(nombre: string) returns (k: Option<nat>)
      ensures k == BuscarNombre(filas, nombre)
      ensures k.Some? && Valid() ==> forall j :: 0 <= j < |filas| && filas[j].nombre == nombre ==> j == k.value
    {
      var i := 0;
      while i < |filas|
        invariant 0 <= i <= |filas|
        invariant forall j :: 0 <= j < i ==> filas[j].nombre != nombre
      {
        if filas[i].nombre == nombre {
          return Some(i);
        }
        i := i + 1;
      }
      return None;
    }

    /** The product choice back to the placeholder and the quantity to "1". */
    method LimpiarSeleccion()
      requires Valid()
      modifies this`productoSel, this`cantidad
      ensures Valid() && filas == old(filas)
      ensures productoSel == Placeholder && cantidad == "1"
    {
      productoSel := Placeholder;
      cantidad := "1";
    }

    /** The rows after a checked product and quantity. */
    method AgregarValidado(p: Producto, n: int) returns (o: Resultado)
      modifies this`filas
      ensures (o, filas) == AgregarFila(old(filas), p, n)
      ensures !Rechazo(o)
    {
      var k := BuscarFila(p.nombre);
      if k.Some? {
        var i := k.value;
        var nueva := filas[i].cantidad + n;
        filas := filas[i := Fila(p.nombre, nueva, p.precio, CalculateSubtotal(p.precio, nueva))];
        o := Sumado;
      } else {
        filas := filas + [Fila(p.nombre, n, p.precio, CalculateSubtotal(p.precio, n))];
        o := Agregado;
      }
    }

    /** The checks of `agregar_producto`, in order, before the list is
        touched: a rejection is the answer `Agregar` gives with the rows
        unchanged; otherwise the product and a quantity of at least 1 that
        `AgregarFila` then uses. */
    method Revisar(productos: Table<Producto>) returns (r: Result<(Producto, int), Resultado>)
      ensures r.Failure? ==> Rechazo(r.error) && Agregar(filas, productos.rows, productoSel, cantidad) == (r.error, filas)
      ensures r.Success? ==>
        (r.value.1 >= 1 && Agregar(filas, productos.rows, productoSel, cantidad) == AgregarFila(filas, r.value.0, r.value.1))
    {
      if productoSel == "" || productoSel == Placeholder {
        return Failure(SinProducto);
      }
      var id := IdElegido(productoSel);
      var n := ParseInt(cantidad);
      if id.None? || n.None? {
        return Failure(DatoInvalido);
      }
      if n.value <= 0 {
        return Failure(CantidadInvalida);
      }
      var p := productos.Get(id.value);
      if p.None? {
        return Failure(NoEncontrado);
      }
      return Success((p.value, n.value));
    }

    /** `agregar_producto`: the rows and the answer are those of `Agregar`;
        a change sets the subtotal and recomputes the tax and total, unless
        the percentage cannot be read, in which case the error escapes
        (`escapa`) with both left as they were; only a new row whose
        amounts were recomputed clears the choice. */
    method AgregarProducto(productos: Table<Producto>) returns (o: Resultado, escapa: bool)
      requires Valid()
      modifies this`filas, this`subtotal, this`impuesto, this`total, this`productoSel, this`cantidad
      ensures Valid()
      ensures (o, filas) == Agregar(old(filas), productos.rows, old(productoSel), old(cantidad))
      ensures escapa <==> !Rechazo(o) && pct.None?
      ensures Rechazo(o) ==> subtotal == old(subtotal) && impuesto == old(impuesto) && total == old(total)
      ensures !Rechazo(o) ==> subtotal == FormatCurrency(SumaFilas(filas))
      ensures !Rechazo(o) && !escapa ==> MuestraTotales()
      ensures escapa ==> impuesto == old(impuesto) && total == old(total)
      ensures o == Agregado && !escapa ==> productoSel == Placeholder && cantidad == "1"
      ensures o != Agregado || escapa ==> productoSel == old(productoSel) && cantidad == old(cantidad)
    {
      var r := Revisar(productos);
      if r.Failure? {
        return r.error, false;
      }
      o, escapa := Aplicar(r.value.0, r.value.1);
    }

    /** The rows change and the amounts follow them: the subtotal always,
        the tax and total unless the percentage cannot be read. */
    method AgregarYActualizar(p: Producto, n: int) returns (o: Resultado, escapa: bool)
      requires Valid() && n >= 1
      modifies this`filas, this`subtotal, this`impuesto, this`total
      ensures Valid()
      ensures (o, filas) == AgregarFila(old(filas), p, n)
      ensures !Rechazo(o) && subtotal == FormatCurrency(SumaFilas(filas))
      ensures escapa <==> pct.None?
      ensures !escapa ==> MuestraTotales()
      ensures escapa ==> impuesto == old(impuesto) && total == old(total)
    {
      AgregarFilaConserva(filas, p, n);
      o := AgregarValidado(p, n);
      assert Valid();
      escapa := ActualizarSubtotal();
    }

    /** The part of `agregar_producto` after the checks: the rows change,
        the amounts follow and, once they have, a new row clears the
        choice. */
    method Aplicar(p: Producto, n: int) returns (o: Resultado, escapa: bool)
      requires Valid() && n >= 1
      modifies this`filas, this`subtotal, this`impuesto, this`total, this`productoSel, this`cantidad
      ensures Valid()
      ensures (o, filas) == AgregarFila(old(filas), p, n)
      ensures !Rechazo(o) && subtotal == FormatCurrency(SumaFilas(filas))
      ensures escapa <==> pct.None?
      ensures !escapa ==> MuestraTotales()
      ensures escapa ==> impuesto == old(impuesto) && total == old(total)
      ensures o == Agregado && !escapa ==> productoSel == Placeholder && cantidad == "1"
      ensures o != Agregado || escapa ==> productoSel == old(productoSel) && cantidad == old(cantidad)
    {
      o, escapa := AgregarYActualizar(p, n);
      if o == Agregado && !escapa {
        LimpiarSeleccion();
      }
    }

    /** `eliminar_producto`: with no row selected nothing changes (false);
        otherwise the selected row goes and the amounts follow, unless the
        percentage cannot be read (`escapa`, tax and total left as they
        were). */
    method EliminarProducto(sel: Option<nat>) returns (ok: bool, escapa: bool)
      requires Valid() && (sel.Some? ==> sel.value < |filas|)
      modifies this`filas, this`subtotal, this`impuesto, this`total
      ensures Valid()
      ensures ok <==> sel.Some?
      ensures escapa <==> ok && pct.None?
      ensures filas == if ok then old(filas[..sel.value] + filas[sel.value + 1..]) else old(filas)
      ensures ok ==> subtotal == FormatCurrency(SumaFilas(filas))
      ensures ok && !escapa ==> MuestraTotales()
      ensures !ok ==> subtotal == old(subtotal)
      ensures !ok || escapa ==> impuesto == old(impuesto) && total == old(total)
    {
      if sel.None? {
        return false, false;
      }
      SinFilaConserva(filas, sel.value);
      filas := filas[..sel.value] + filas[sel.value + 1..];
      escapa := ActualizarSubtotal();
      ok := true;
    }

    /** The id int() reads at the head of the first combo entry containing
        the name, by the loop over the entries. */
    method BuscarProductoId(nombre: string) returns (b: Busqueda)
      ensures b == BuscarId(nombre, opciones)
    {
      var k := 0;
      while k < |opciones|
        invariant 0 <= k <= |opciones|
        invariant forall j :: 0 <= j < k ==> !Contains(opciones[j], nombre)
      {
        if Contains(opciones[k], nombre) {
          assert PrimeraCon(nombre, opciones) == k by {
            PrimeraConEs(nombre, opciones, k);
          }
          var id := ParseInt(Before(opciones[k], " - "));
          if id.None? {
            return IdMalo;
          }
          return Encontrado(id.value);
        }
        k := k + 1;
      }
      PrimeraConEs(nombre, opciones, k);
      return SinCoincidencia;
    }

    /** The product list of `guardar_factura`, by the loop over the rows. */
    method ArmarLista() returns (r: Option<seq<ItemFactura>>)
      ensures r == ProductosLista(filas, opciones)
    {
      var items: seq<ItemFactura> := [];
      var i := 0;
      while i < |filas|
        invariant 0 <= i <= |filas|
        invariant ProductosLista(filas[..i], opciones) == Some(items)
      {
        var f := filas[i];
        var b := BuscarProductoId(f.nombre);
        if b.IdMalo? {
          assert filas[..i + 1][..i] == filas[..i];
          ListaFallaPrefijo(filas, opciones, i + 1);
          return None;
        }
        ListaUnaFilaMas(filas, opciones, i, items);
        items := items + ItemsDeFila(f, b);
        i := i + 1;
      }
      assert filas[..i] == filas;
      return Some(items);
    }

    /** The header fields `limpiar_formulario` leaves: blank, today's date,
        status Pendiente. */
    ghost predicate CabeceraLimpia(today: string)
      reads this`facturaId, this`numero, this`fecha, this`cliente, this`empleado, this`venta,
            this`estado, this`observaciones
    {
      facturaId == "" && numero == "" && fecha == today && cliente == "" && empleado == "" && venta == "" &&
      estado == "Pendiente" && observaciones == ""
    }

    /** The product part it leaves: no rows, zero amounts, 18 %, the
        product placeholder and quantity "1". */
    ghost predicate ProductosLimpios()
      reads this`subtotal, this`pct, this`impuesto, this`total, this`filas, this`productoSel, this`cantidad
    {
      subtotal == Cero && pct == Some(PctPorDefecto) && impuesto == Cero && total == Cero &&
      filas == [] && productoSel == Placeholder && cantidad == "1"
    }

    method LimpiarCabecera(today: string)
      modifies this`facturaId, this`numero, this`fecha, this`cliente, this`empleado, this`venta,
               this`estado, this`observaciones
      ensures CabeceraLimpia(today)
    {
      facturaId, numero, fecha := "", "", today;
      cliente, empleado, venta := "", "", "";
      estado, observaciones := "Pendiente", "";
    }

    method LimpiarProductos()
      modifies this`subtotal, this`pct, this`impuesto, this`total, this`filas, this`productoSel, this`cantidad
      ensures Valid() && ProductosLimpios()
    {
      subtotal := Cero;
      pct := Some(PctPorDefecto);
      impuesto, total := Cero, Cero;
      filas := [];
      productoSel, cantidad := Placeholder, "1";
    }

    /** `limpiar_formulario`. */
    method LimpiarFormulario(today: string)
      modifies this`facturaId, this`numero, this`fecha, this`cliente, this`empleado, this`venta,
               this`estado, this`observaciones,
               this`subtotal, this`pct, this`impuesto, this`total, this`filas, this`productoSel, this`cantidad
      ensures Valid() && CabeceraLimpia(today) && ProductosLimpios()
    {
      LimpiarProductos();
      LimpiarCabecera(today);
    }

    /** Whether `guardar_factura` gets as far as the employee check. */
    ghost predicate LlegaAEmpleado()
      reads this
    {
      numero != "" && cliente != "" && LeerMonto(subtotal).Some? &&
      !(|filas| == 0 && LeerMonto(subtotal).value == 0.0)
    }

    /** The checks of `guardar_factura`, in order, before any store call:
        the answer is `Preparar` on the fields as they were, and a blank
        employee is filled with the first employee once the checks reach
        it. */
    method Comprobar() returns (r: Result<Datos, Guardado>)
      modifies this`empleado
      ensures r == Preparar(numero, cliente, old(empleado), venta, subtotal, impuesto, total, filas, empleados, opciones)
      ensures empleado == if old(LlegaAEmpleado()) then EmpleadoTras(old(empleado), empleados) else old(empleado)
    {
      if numero == "" {
        return Failure(SinNumero);
      }
      if cliente == "" {
        return Failure(SinCliente);
      }
      var s := LeerMonto(subtotal);
      if s.None? {
        return Failure(DatosInvalidos);
      }
      if |filas| == 0 && s.value == 0.0 {
        return Failure(SinProductos);
      }
      if empleado == "" {
        if |empleados| > 0 {
          empleado := IntToString(empleados[0]);
        } else {
          return Failure(SinEmpleados);
        }
      }
      var idCliente := ParseInt(Before(cliente, " - "));
      var idEmpleado := ParseInt(empleado);
      var idVenta: Option<int> := None;
      if venta != "" {
        var v := ParseInt(Before(venta, " - "));
        if v.None? {
          return Failure(DatosInvalidos);
        }
        idVenta := Some(v.value);
      }
      var imp := LeerMonto(impuesto);
      var tot := LeerMonto(total);
      var items := ArmarLista();
      if idCliente.None? || idEmpleado.None? || imp.None? || tot.None? || items.None? {
        return Failure(DatosInvalidos);
      }
      return Success(Datos(idCliente.value, idEmpleado.value, idVenta, s.value, imp.value, tot.value, items.value));
    }

    /** The form fields `Guarda` takes. */
    ghost function CamposDe(): Campos
      reads this`facturaId, this`numero, this`estado, this`observaciones, this`pct
    {
      Campos(facturaId, numero, estado, observaciones, pct)
    }

    /** The store calls of `guardar_factura` once the checks pass, as
        `Guarda` describes them. */
    method GuardarDatos(facturas: Table<Factura>, detalles: Table<DetalleFactura>, productos: Table<Producto>,
                        d: Datos, today: string) returns (o: Guardado)
      requires facturas.Valid() && detalles.Valid()
      modifies facturas, detalles
      ensures facturas.Valid() && detalles.Valid()
      ensures Guarda(CamposDe(), d, today, productos.rows, old(facturas.rows), old(facturas.nextId), facturas.rows,
                     facturas.nextId, old(detalles.rows), old(detalles.nextId), detalles.rows, detalles.nextId, o)
    {
      if facturaId != "" {
        var fid := ParseInt(facturaId);
        if fid.None? {
          return DatosInvalidos;
        }
        var r := ActualizarFactura(facturas, fid.value, Cambios(d, numero, estado, observaciones));
        if d.items != [] && r.Some? {
          return ErrorAlGuardar;
        }
        o := if Truthy(r) then Guardada(r.value) else NoGuardada;
      } else if d.items != [] {
        if pct.None? {
          return ErrorAlGuardar;
        }
        var r := CrearFacturaConProductos(facturas, detalles, productos, numero, d.items, pct.value, estado,
                                          Some(observaciones), Some(d.idCliente), Some(d.idEmpleado), today);
        o := if Truthy(r) then Guardada(r.value) else NoGuardada;
      } else {
        var id := CrearFactura(facturas, numero, d.subtotal, d.impuesto, d.total, estado, Some(observaciones),
                               d.idVenta, Some(d.idCliente), Some(d.idEmpleado), today);
        o := if Truthy(Some(id)) then Guardada(id) else NoGuardada;
      }
    }

    /** `guardar_factura`: nothing is stored unless every check passes;
        then the store calls of `GuardarDatos`, and a saved invoice clears
        the form. */
    method GuardarFactura(facturas: Table<Factura>, detalles: Table<DetalleFactura>, productos: Table<Producto>,
                          today: string) returns (o: Guardado)
      requires Valid() && facturas.Valid() && detalles.Valid()
      modifies this`facturaId, this`numero, this`fecha, this`cliente, this`empleado, this`venta,
               this`estado, this`observaciones,
               this`subtotal, this`pct, this`impuesto, this`total, this`filas, this`productoSel, this`cantidad,
               facturas, detalles
      ensures Valid() && facturas.Valid() && detalles.Valid()
      ensures var r := old(Preparar(numero, cliente, empleado, venta, subtotal, impuesto, total, filas, empleados, opciones));
        r.Failure? ==> o == r.error && facturas.rows == old(facturas.rows) && detalles.rows == old(detalles.rows) &&
                       facturas.nextId == old(facturas.nextId) && detalles.nextId == old(detalles.nextId)
      ensures var r := old(Preparar(numero, cliente, empleado, venta, subtotal, impuesto, total, filas, empleados, opciones));
        r.Success? ==> Guarda(old(CamposDe()), r.value, today, productos.rows, old(facturas.rows), old(facturas.nextId),
                              facturas.rows, facturas.nextId, old(detalles.rows), old(detalles.nextId), detalles.rows, detalles.nextId, o)
      ensures o.Guardada? ==> CabeceraLimpia(today) && ProductosLimpios()
      ensures !o.Guardada? ==>
        filas == old(filas) && facturaId == old(facturaId) && numero == old(numero) && fecha == old(fecha) &&
        cliente == old(cliente) && venta == old(venta) && subtotal == old(subtotal) && pct == old(pct) &&
        impuesto == old(impuesto) && total == old(total) && estado == old(estado) &&
        observaciones == old(observaciones) && productoSel == old(productoSel) && cantidad == old(cantidad)
      ensures !o.Guardada? ==>
        empleado == if old(LlegaAEmpleado()) then EmpleadoTras(old(empleado), empleados) else old(empleado)
    {
      var r := Comprobar();
      if r.Failure? {
        return r.error;
      }
      o := GuardarDatos(facturas, detalles, productos, r.value, today);
      if o.Guardada? {
        LimpiarFormulario(today);
      }
    }
  }

  /** The position the loop stops at is the first entry with the name. */
  lemma {:induction false} PrimeraConEs(nombre: string, opciones: seq<string>, k: nat)
    requires k <= |opciones|
    requires forall j :: 0 <= j < k ==> !Contains(opciones[j], nombre)
    requires k < |opciones| ==> Contains(opciones[k], nombre)
    ensures PrimeraCon(nombre, opciones) == k
  {
  }
}

/** The "generate an invoice from a sale" view of
    views/generar_factura_view.py.

    The listing of sales is the set of sale ids the query returns, each
    with its Facturada column; its order (by date, newest first) is not
    kept.  The selected row is the sale id and the Facturada text it
    shows.  The tax percentage is the value the DoubleVar gives back, None
    when that cannot be read, and the observations are the text of the
    Text widget. */
module GenerarFacturaView {
  import opened Wrappers
  import opened Text
  import opened Helpers
  import opened Models
  import opened FacturaController

  const Si: string := "Sí"
  const No: string := "No"

  /** The first entry of the client filter, which selects every client. */
  const Todos: string := "Todos"

  /** The separator between id and name in the client filter's entries. */
  const Separador: string := " - "

  // ---------------------------------------------------------------------
  // The Facturada column
  // ---------------------------------------------------------------------

  /** Whether some stored invoice references the sale. */
  predicate TieneFactura(idVenta: int, facturas: map<int, Factura>) {
    exists k :: k in facturas && facturas[k].idVenta == Some(idVenta)
  }

  /** The Facturada column: the LEFT JOIN on Factura finds a row for the
      sale exactly when some invoice references it. */
  function Facturada(idVenta: int, facturas: map<int, Factura>): string {
    if TieneFactura(idVenta, facturas) then Si else No
  }

  /** Storing, under a new id, an invoice that references the sale makes
      the listing show Sí for that sale and leaves every other sale's
      column as it was. */
  lemma FacturadaTrasAlta(facturas: map<int, Factura>, id: int, f: Factura, idVenta: int)
    requires id !in facturas && f.idVenta == Some(idVenta)
    ensures Facturada(idVenta, facturas[id := f]) == Si
    ensures forall w :: w != idVenta ==> Facturada(w, facturas[id := f]) == Facturada(w, facturas)
  {
    var m := facturas[id := f];
    assert m[id].idVenta == Some(idVenta);
    forall w | w != idVenta
      ensures Facturada(w, m) == Facturada(w, facturas)
    {
      if TieneFactura(w, m) {
        var k :| k in m && m[k].idVenta == Some(w);
        assert k != id && k in facturas;
      }
      if TieneFactura(w, facturas) {
        var k :| k in facturas && facturas[k].idVenta == Some(w);
        assert k in m && m[k] == facturas[k];
      }
    }
  }

  // ---------------------------------------------------------------------
  // The filters of `filtrar_ventas`
  // ---------------------------------------------------------------------

  /** The conditions the WHERE clause can hold; each compares a column of
      the sale with the parameter bound to its `?`. */
  datatype Condicion = ClienteIgual | FechaDesde | FechaHasta

  /** Whether a sale satisfies one condition (dates compare as texts under
      SQLite's BINARY collation).  `v.idCliente = ?` with a text parameter: the column's integer affinity turns a parameter that
      reads as an integer into that integer. */
  predicate Cumple(v: Venta, c: Condicion, p: string) {
    match c
    case ClienteIgual => ParseInt(p) == Some(v.idCliente)
    case FechaDesde => TextLe(p, v.fecha)
    case FechaHasta => TextLe(v.fecha, p)
  }

  /** The WHERE clause: every condition holds; no condition, no clause. */
  predicate CumpleTodas(v: Venta, conds: seq<Condicion>, params: seq<string>)
    requires |conds| == |params|
  {
    forall i :: 0 <= i < |conds| ==> Cumple(v, conds[i], params[i])
  }

  /** Whether a client-filter entry picks one client. */
  predicate FiltraCliente(cliente: string) {
    cliente != "" && cliente != Todos
  }

  /** The sales the filters describe: the chosen client's (any client for
      an empty choice or Todos), dated no earlier than a non-empty "from"
      date and no later than a non-empty "to" date, both inclusive. */
  predicate Elegida(v: Venta, cliente: string, desde: string, hasta: string) {
    (!FiltraCliente(cliente) || ParseInt(Before(cliente, Separador)) == Some(v.idCliente)) &&
    (desde == "" || TextLe(desde, v.fecha)) &&
    (hasta == "" || TextLe(v.fecha, hasta))
  }

  /** `filtrar_ventas` building its condition and parameter lists. */
  method Condiciones(cliente: string, desde: string, hasta: string) returns (conds: seq<Condicion>, params: seq<string>)
    ensures |conds| == |params| <= 3
    ensures conds == [] <==> !FiltraCliente(cliente) && desde == "" && hasta == ""
    ensures forall v :: CumpleTodas(v, conds, params) <==> Elegida(v, cliente, desde, hasta)
  {
    conds, params := [], [];
    if FiltraCliente(cliente) {
      conds := conds + [ClienteIgual];
      params := params + [Before(cliente, Separador)];
    }
    ghost var n1 := |conds|;
    if desde != "" {
      conds := conds + [FechaDesde];
      params := params + [desde];
    }
    ghost var n2 := |conds|;
    if hasta != "" {
      conds := conds + [FechaHasta];
      params := params + [hasta];
    }
    forall v: Venta
      ensures CumpleTodas(v, conds, params) <==> Elegida(v, cliente, desde, hasta)
    {
      if FiltraCliente(cliente) {
        assert conds[0] == ClienteIgual && params[0] == Before(cliente, Separador);
      }
      if desde != "" {
        assert conds[n1] == FechaDesde && params[n1] == desde;
      }
      if hasta != "" {
        assert conds[n2] == FechaHasta && params[n2] == hasta;
      }
    }
  }

  /** An entry of the client filter as `cargar_ventas` writes it, "id -
      name", picks exactly the sales of that client. */
  lemma EntradaCliente(id: int, nombre: string, v: Venta)
    ensures FiltraCliente(IntToString(id) + Separador + nombre)
    ensures ParseInt(Before(IntToString(id) + Separador + nombre, Separador)) == Some(v.idCliente) <==>
            v.idCliente == id
  {
    var s := IntToString(id);
    var e := s + Separador + nombre;
    assert forall i :: 0 <= i < |s| ==> s[i] != Separador[0] by {
      if id < 0 {
        assert forall i :: 1 <= i < |s| ==> s[i] == NatToString(-id)[i - 1];
      }
    }
    BeforeSep(s, Separador, nombre);
    ParseIntOfString(id);
    assert e[|s|] == ' ';
    assert e != Todos by {
      if |e| == |Todos| {
        assert e[|s|] != Todos[|s|];
      }
    }
  }

  // ---------------------------------------------------------------------
  // The invoice `generar_factura` stores
  // ---------------------------------------------------------------------

  /** The observations the invoice keeps: the text without blanks around,
      None when nothing is left. */
  function ObservacionesDe(texto: string): (r: Option<string>)
  {
    var t := Strip(texto);
    if t == "" then None else Some(t)
  }

  /** Blank observations are stored as None, and what is stored has no
      blanks around it, so storing it again changes nothing. */
  lemma ObservacionesGuardadas(texto: string)
    ensures ObservacionesDe(texto).None? <==> forall i :: 0 <= i < |texto| ==> IsSpace(texto[i])
    ensures ObservacionesDe(texto).Some? ==> ObservacionesDe(ObservacionesDe(texto).value) == ObservacionesDe(texto)
  {
    StripIdempotent(texto);
    BlankStrip(texto);
  }

  /** A text strips to nothing exactly when it is all blanks. */
  lemma {:induction false} BlankStrip(s: string)
    ensures Strip(s) == "" <==> forall i :: 0 <= i < |s| ==> IsSpace(s[i])
    decreases |s|
  {
    if |s| > 0 && IsSpace(s[0]) {
      BlankStrip(s[1..]);
      assert Strip(s) == Strip(s[1..]);
      if forall i :: 0 <= i < |s[1..]| ==> IsSpace(s[1..][i]) {
        assert forall i :: 0 <= i < |s| ==> IsSpace(s[i]) by {
          forall i | 0 <= i < |s| ensures IsSpace(s[i]) {
            if i > 0 { assert s[i] == s[1..][i - 1]; }
          }
        }
      }
    } else if |s| > 0 {
      TrimEndPrefix(s);
      assert TrimStart(s) == s;
      if TrimEnd(s) == [] {
        assert !IsSpace(s[0]);
        TrimEndNonBlank(s);
      }
    }
  }

  /** TrimEnd keeps a text that starts with a non-blank non-empty. */
  lemma {:induction false} TrimEndNonBlank(s: string)
    requires |s| > 0 && !IsSpace(s[0])
    ensures TrimEnd(s) != []
    decreases |s|
  {
    if IsSpace(s[|s| - 1]) {
      TrimEndNonBlank(s[..|s| - 1]);
    }
  }

  /** The invoice stored for a sale: its total as subtotal, the tax at the
      percentage, the total, the chosen status and observations, linked to
      the sale, its client and its employee. */
  function FacturaDeVenta(numero: string, today: string, idVenta: int, v: Venta, pct: real,
                          estado: string, texto: string): Factura
  {
    var s := v.total;
    Factura(numero, today, s, Impuesto(s, pct), s + Impuesto(s, pct), estado, ObservacionesDe(texto),
            Some(idVenta), Some(v.idCliente), Some(v.idEmpleado))
  }

  /** With status Pendiente and no observations, the invoice is the one
      `crear_factura_desde_venta` stores for the same sale and
      percentage; in every case total = subtotal + tax, the tax being the
      percentage of the sale total. */
  lemma FacturaDeVentaComoControlador(numero: string, today: string, idVenta: int, v: Venta, pct: real,
                                      texto: string)
    ensures var f := FacturaDeVenta(numero, today, idVenta, v, pct, "Pendiente", texto);
      f.total == f.subtotal + f.impuesto && f.impuesto == v.total * pct / 100.0 && f.subtotal == v.total
    ensures ObservacionesDe(texto).None? ==>
      FacturaDeVenta(numero, today, idVenta, v, pct, "Pendiente", texto) ==
      ConTotales(Factura(numero, today, 0.0, 0.0, 0.0, "Pendiente", None,
                         Some(idVenta), Some(v.idCliente), Some(v.idEmpleado)), v.total, pct)
  {
  }

  /** What `generar_factura` ends with; `ErrorAlGenerar` is its handler
      for any exception, reached when the percentage cannot be read. */
  datatype Generacion = SinSeleccion | YaFacturada | VentaNoEncontrada | ErrorAlGenerar | Generada(id: int, numero: string)

  /** The checks of `generar_factura` before anything is stored: a row
      must be selected, must not show Sí, and its sale must still exist;
      the sale id and the sale when they pass. */
  function Eleccion(fila: Option<(int, string)>, ventas: map<int, Venta>): (r: Result<(int, Venta), Generacion>)
    ensures r.Success? <==> fila.Some? && fila.value.1 != Si && fila.value.0 in ventas
    ensures r.Success? ==> r.value == (fila.value.0, ventas[fila.value.0])
    ensures r.Failure? ==> !r.error.Generada? && !r.error.ErrorAlGenerar?
    ensures fila.Some? && fila.value.1 == Si ==> r == Failure(YaFacturada)
  {
    if fila.None? then Failure(SinSeleccion)
    else if fila.value.1 == Si then Failure(YaFacturada)
    else if fila.value.0 !in ventas then Failure(VentaNoEncontrada)
    else Success((fila.value.0, ventas[fila.value.0]))
  }

  // ---------------------------------------------------------------------
  // The form
  // ---------------------------------------------------------------------

  class GenerarForm {
    var cliente: string
    var desde: string
    var hasta: string
    var pct: Option<real>
    var estado: string
    var observaciones: string

    /** The form as the view builds it: every client, 18 %, status
        Pendiente, no observations, and both date filters showing
        `fechaInicial`, the text a DateEntry puts in its entry when built
        (its start date, today, in the locale's `%x` format). */
    constructor(fechaInicial: string)
      ensures cliente == Todos && desde == fechaInicial && hasta == fechaInicial
      ensures pct == Some(PctPorDefecto) && estado == "Pendiente" && observaciones == ""
    {
      cliente, desde, hasta := Todos, fechaInicial, fechaInicial;
      pct, estado, observaciones := Some(PctPorDefecto), "Pendiente", "";
    }

    /** `filtrar_ventas` (and `cargar_ventas`, whose filter is Todos with
        no dates): the sales the filters describe, each with its Facturada
        column. */
    method Filtrar(ventas: Table<Venta>, facturas: Table<Factura>) returns (filas: map<int, string>)
      ensures forall id :: id in filas <==> id in ventas.rows && Elegida(ventas.rows[id], cliente, desde, hasta)
      ensures forall id :: id in filas ==> filas[id] == Facturada(id, facturas.rows)
    {
      var conds, params := Condiciones(cliente, desde, hasta);
      filas := map id | id in ventas.rows && CumpleTodas(ventas.rows[id], conds, params) :: Facturada(id, facturas.rows);
    }

    /** The insert of `generar_factura`: the invoice for the sale at the
        percentage read, under the number given, through `crear_factura`. */
    method Alta(facturas: Table<Factura>, numero: string, idVenta: int, v: Venta, porcentaje: real, today: string)
      returns (id: int)
      requires facturas.Valid()
      modifies facturas
      ensures facturas.Valid() && id == old(facturas.nextId) && id !in old(facturas.rows)
      ensures facturas.nextId == old(facturas.nextId) + 1
      ensures facturas.rows == old(facturas.rows)[id := FacturaDeVenta(numero, today, idVenta, v, porcentaje, estado,
                                                                      observaciones)]
    {
      var subtotal := v.total;
      var impuesto := Impuesto(subtotal, porcentaje);
      var total := subtotal + impuesto;
      var obs := ObservacionesDe(observaciones);
      id := CrearFactura(facturas, numero, subtotal, impuesto, total, estado, obs,
                         Some(idVenta), Some(v.idCliente), Some(v.idEmpleado), today);
    }

    /** `cargar_ventas` as far as the form's fields go: the client filter
        goes back to Todos (the listing it shows is every sale, `Filtrar`
        with Todos and no dates). */
    method CargarVentas()
      modifies this`cliente
      ensures cliente == Todos
    {
      cliente := Todos;
    }

    method LimpiarObservaciones()
      modifies this`observaciones
      ensures observaciones == ""
    {
      observaciones := "";
    }

    /** `generar_factura` on the selected row (sale id and the Facturada
        text it shows): nothing when `Eleccion` refuses; nothing either,
        and the handler's error, when the percentage then cannot be read
        (TclError is not among the exceptions its inner handler falls back
        to 18 for); otherwise a new invoice numbered by
        `generar_numero_factura`, after which the list is reloaded, which
        sets the client filter back to Todos, and the observations are
        cleared. */
    method GenerarFactura(facturas: Table<Factura>, ventas: Table<Venta>, fila: Option<(int, string)>,
                          queryFails: bool, now: DateTime, today: string)
      returns (o: Generacion)
      requires facturas.Valid() && ValidDateTime(now)
      modifies facturas, this`observaciones, this`cliente
      ensures facturas.Valid()
      ensures facturas.nextId == if o.Generada? then old(facturas.nextId) + 1 else old(facturas.nextId)
      ensures Eleccion(fila, ventas.rows).Failure? ==>
        o == Eleccion(fila, ventas.rows).error &&
        facturas.rows == old(facturas.rows) && observaciones == old(observaciones) && cliente == old(cliente)
      ensures Eleccion(fila, ventas.rows).Success? && pct.None? ==>
        o == ErrorAlGenerar && facturas.rows == old(facturas.rows) && observaciones == old(observaciones) &&
        cliente == old(cliente)
      ensures Eleccion(fila, ventas.rows).Success? && pct.Some? ==>
        var (idVenta, v) := Eleccion(fila, ventas.rows).value;
        o == Generada(old(facturas.nextId), old(GenerarNumeroFactura(facturas, queryFails, now))) &&
        o.id !in old(facturas.rows) &&
        facturas.rows == old(facturas.rows)[o.id := FacturaDeVenta(o.numero, today, idVenta, v, pct.value, estado,
                                                                   old(observaciones))] &&
        observaciones == "" && cliente == Todos
    {
      var e := Eleccion(fila, ventas.rows);
      if e.Failure? {
        return e.error;
      }
      if pct.None? {
        return ErrorAlGenerar;
      }
      var numero := GenerarNumeroFactura(facturas, queryFails, now);
      var id := Alta(facturas, numero, e.value.0, e.value.1, pct.value, today);
      o := Generada(id, numero);
      CargarVentas();
      LimpiarObservaciones();
    }
  }
}

/** controllers/factura_controller.py: invoices and their lines.

    The Factura and DetalleFactura record classes are imported by the
    controller but not defined in database/models.py; they are taken to
    follow the same save / delete / get_by_id pattern as the other records
    (a `Table` each), with `get_by_factura` selecting the lines of one
    invoice in id order. */
module FacturaController {
  import opened Wrappers
  import opened Text
  import opened Helpers
  import opened Models

  datatype Factura = Factura(numero: string, fecha: string, subtotal: real, impuesto: real, total: real,
                             estado: string, observaciones: Option<string>,
                             idVenta: Option<int>, idCliente: Option<int>, idEmpleado: Option<int>)

  datatype DetalleFactura = DetalleFactura(cantidad: int, precioUnitario: real, subtotal: real,
                                           idProducto: int, idFactura: int)

  // ---------------------------------------------------------------------
  // generar_numero_factura
  // ---------------------------------------------------------------------

  const MinInt64: int := -0x8000_0000_0000_0000
  const MaxInt64: int := 0x7FFF_FFFF_FFFF_FFFF

  function AsciiUpper(c: char): char
  {
    if 'a' <= c <= 'z' then (c as int - 32) as char else c
  }

  /** `NumeroFactura LIKE 'FAC-%'`: LIKE ignores the case of ASCII letters. */
  predicate LikeFac(s: string)
  {
    |s| >= 4 && AsciiUpper(s[0]) == 'F' && AsciiUpper(s[1]) == 'A' && AsciiUpper(s[2]) == 'C' && s[3] == '-'
  }

  /** The longest run of digits at the front of s. */
  function DigitPrefix(s: string): (d: string)
    ensures AllDigits(d) && |d| <= |s| && d == s[..|d|]
  {
    if |s| > 0 && IsDigit(s[0]) then [s[0]] + DigitPrefix(s[1..]) else []
  }

  lemma {:induction false} DigitPrefixAll(s: string)
    requires AllDigits(s)
    ensures DigitPrefix(s) == s
  {
    if |s| > 0 {
      DigitPrefixAll(s[1..]);
    }
  }

  /** Saturation at the bounds of a 64-bit signed integer. */
  function Clamp64(v: int): (r: int)
    ensures MinInt64 <= r <= MaxInt64
    ensures MinInt64 <= v <= MaxInt64 ==> r == v
    ensures v > MaxInt64 ==> r == MaxInt64
  {
    if v < MinInt64 then MinInt64 else if v > MaxInt64 then MaxInt64 else v
  }

  /** The blanks CAST skips in front of a number: the space and \t to \r.
      This is SQLite's own set, narrower than the one str.strip() uses. */
  predicate CastBlank(c: char)
  {
    c == ' ' || '\t' <= c <= '\r'
  }

  /** s without its leading CastBlank characters. */
  function CastTrim(s: string): (t: string)
    ensures |t| <= |s| && t == s[|s| - |t|..]
    ensures t == [] || !CastBlank(t[0])
    ensures forall i :: 0 <= i < |s| - |t| ==> CastBlank(s[i])
  {
    if |s| > 0 && CastBlank(s[0]) then CastTrim(s[1..]) else s
  }

  /** SQLite's `CAST(text AS INTEGER)`: leading blanks (CastBlank) skipped,
      an optional sign, then the longest digit prefix (0 when there is
      none), saturated to 64 bits. */
  function CastToInteger(s: string): int
  {
    var t := CastTrim(s);
    if |t| > 0 && (t[0] == '-' || t[0] == '+') then
      var m: int := DigitsValue(DigitPrefix(t[1..]));
      Clamp64(if t[0] == '-' then -m else m)
    else
      Clamp64(DigitsValue(DigitPrefix(t)))
  }

  /** `CAST(SUBSTR(NumeroFactura, 5) AS INTEGER)`. */
  function Suffix(numero: string): int
    requires |numero| >= 4
  {
    CastToInteger(numero[4..])
  }

  /** `MAX(...)` over the invoices whose number is LIKE 'FAC-%': None
      (SQL NULL) when there are none. */
  function MaxSuffix(s: seq<Entry<Factura>>): Option<int>
  {
    if s == [] then None
    else
      var m := MaxSuffix(s[..|s| - 1]);
      var n := s[|s| - 1].row.numero;
      if !LikeFac(n) then m
      else if m.None? || m.value < Suffix(n) then Some(Suffix(n))
      else m
  }

  /** `MaxSuffix` is SQL's MAX: None exactly when no number matches, and
      otherwise the largest suffix among the matching numbers. */
  lemma {:induction false} MaxSuffixIsMax(s: seq<Entry<Factura>>)
    ensures MaxSuffix(s).None? <==> forall e :: e in s ==> !LikeFac(e.row.numero)
    ensures forall e :: e in s && LikeFac(e.row.numero) ==> MaxSuffix(s).Some? && Suffix(e.row.numero) <= MaxSuffix(s).value
    ensures MaxSuffix(s).Some? ==> exists e :: e in s && LikeFac(e.row.numero) && Suffix(e.row.numero) == MaxSuffix(s).value
  {
    if s != [] {
      var init, last := s[..|s| - 1], s[|s| - 1];
      var m, n := MaxSuffix(init), last.row.numero;
      MaxSuffixIsMax(init);
      assert s == init + [last];
      assert forall e :: e in s <==> e in init || e == last;
      assert MaxSuffix(s) == if !LikeFac(n) then m else if m.None? || m.value < Suffix(n) then Some(Suffix(n)) else m;
      if MaxSuffix(s).Some? && MaxSuffix(s) == m {
        var w :| w in init && LikeFac(w.row.numero) && Suffix(w.row.numero) == m.value;
        assert w in s;
      }
    }
  }

  /** `siguiente`: the maximum plus one, or 1 when the maximum is NULL or 0. */
  function NextNumber(ultimo: Option<int>): int
  {
    if ultimo.None? || ultimo.value == 0 then 1 else ultimo.value + 1
  }

  /** Python's `f"{n:06d}"`: at least six characters, the sign counting
      towards the width. */
  function Format06d(n: int): string
  {
    if n < 0 then "-" + ZeroPad(NatToString(-n), 5) else ZeroPad(NatToString(n), 6)
  }

  /** The number following the invoices listed in `s`. */
  function NextNumero(s: seq<Entry<Factura>>): string
  {
    "FAC-" + Format06d(NextNumber(MaxSuffix(s)))
  }

  /** `generar_numero_factura`: when the query raises, `FAC-` and the
      clock's `%Y%m%d%H%M%S` instead. */
  function GenerarNumeroFactura(facturas: Table<Factura>, queryFails: bool, now: DateTime): string
    requires ValidDateTime(now)
    reads facturas
  {
    if queryFails then "FAC-" + StampText(now) else NextNumero(Entries(facturas.rows, facturas.nextId))
  }

  /** A text that starts with a non-blank is its own CastTrim. */
  lemma CastTrimNonBlank(s: string)
    requires |s| > 0 && !CastBlank(s[0])
    ensures CastTrim(s) == s
  {
  }

  /** CAST stops at a no-break space, which str.strip() would have
      skipped: a suffix "\u00a07" casts to 0, not 7. */
  lemma CastStopsAtNoBreakSpace()
    ensures IsSpace('\U{00A0}') && !CastBlank('\U{00A0}')
    ensures CastToInteger("\U{00A0}7") == 0
  {
    var s := "\U{00A0}7";
    CastTrimNonBlank(s);
    assert DigitPrefix(s) == [];
  }

  /** A run of digits casts to its value (saturated). */
  lemma CastOfDigits(d: string)
    requires |d| > 0 && AllDigits(d)
    ensures CastToInteger(d) == Clamp64(DigitsValue(d))
  {
    CastTrimNonBlank(d);
    DigitPrefixAll(d);
  }

  /** A minus sign and a run of digits cast to minus its value (saturated). */
  lemma CastOfNegDigits(t: string, d: string)
    requires AllDigits(d) && t == "-" + d
    ensures CastToInteger(t) == Clamp64(-(DigitsValue(d) as int))
  {
    assert t[0] == '-' && t[1..] == d;
    DigitPrefixAll(d);
    CastOfMinus(t);
  }

  /** A text starting with a minus sign casts to minus its digit prefix. */
  lemma CastOfMinus(t: string)
    requires |t| > 0 && t[0] == '-'
    ensures CastToInteger(t) == Clamp64(-(DigitsValue(DigitPrefix(t[1..])) as int))
  {
    CastTrimNonBlank(t);
  }

  /** The part after "FAC-" is what the suffix reads. */
  lemma SuffixOf(x: string)
    ensures LikeFac("FAC-" + x)
    ensures Suffix("FAC-" + x) == CastToInteger(x)
  {
    assert ("FAC-" + x)[4..] == x;
  }

  /** A generated number matches `LIKE 'FAC-%'` and its suffix reads back
      as the number (saturated to 64 bits). */
  lemma Format06dRoundTrip(n: int)
    ensures LikeFac("FAC-" + Format06d(n))
    ensures |Format06d(n)| >= 6
    ensures Suffix("FAC-" + Format06d(n)) == Clamp64(n)
  {
    SuffixOf(Format06d(n));
    if n < 0 {
      Format06dNegative(n);
    } else {
      Format06dNonNegative(n);
    }
  }

  /** A negative number prints as a minus sign and five padded digits. */
  lemma Format06dNegative(n: int)
    requires n < 0
    ensures |Format06d(n)| >= 6
    ensures CastToInteger(Format06d(n)) == Clamp64(n)
  {
    var p := ZeroPad(NatToString(-n), 5);
    ZeroPadDigits(-n, 5);
    assert DigitsValue(p) == -n;
    CastOfNegDigits(Format06d(n), p);
  }

  /** A non-negative number prints as six padded digits. */
  lemma Format06dNonNegative(n: int)
    requires n >= 0
    ensures |Format06d(n)| >= 6
    ensures CastToInteger(Format06d(n)) == Clamp64(n)
  {
    var p := ZeroPad(NatToString(n), 6);
    ZeroPadDigits(n, 6);
    CastOfDigits(p);
  }

  /** While the largest suffix is below 2^63 - 1, the generated number is
      not the number of any stored invoice. */
  lemma GeneratedNumberIsNew(facturas: Table<Factura>, now: DateTime)
    requires facturas.Valid() && ValidDateTime(now)
    requires var m := MaxSuffix(Entries(facturas.rows, facturas.nextId)); m.None? || m.value < MaxInt64
    ensures forall k :: k in facturas.rows ==> facturas.rows[k].numero != GenerarNumeroFactura(facturas, false, now)
  {
    var s := Entries(facturas.rows, facturas.nextId);
    var g := GenerarNumeroFactura(facturas, false, now);
    var next := NextNumber(MaxSuffix(s));
    Format06dRoundTrip(next);
    MaxSuffixIsMax(s);
    forall k | k in facturas.rows ensures facturas.rows[k].numero != g {
      AllEntries(facturas, Entry(k, facturas.rows[k]));
    }
  }

  /** The generator repeats a stored number once the suffix saturates:
      with "FAC-9223372036854775808" stored, the next number is that same
      text, because CAST reads its suffix as 2^63 - 1 and the Python side
      adds one without bound. */
  lemma SaturatedNumberRepeats(f: Factura)
    requires f.numero == "FAC-" + NatToString(MaxInt64 + 1)
    ensures NextNumero([Entry(1, f)]) == f.numero
  {
    var d := NatToString(MaxInt64 + 1);
    NatToStringValue(MaxInt64 + 1);
    SuffixOf(d);
    CastOfDigits(d);
    assert MaxSuffix([Entry(1, f)]) == Some(MaxInt64);
    assert Pow10(5) == 100000;
    DigitsLength(d, 5);
  }

  /** A fourteen-digit suffix reads back as its value, below 2^63 - 1. */
  lemma FourteenDigits(st: string)
    requires |st| == 14 && AllDigits(st)
    ensures LikeFac("FAC-" + st)
    ensures Suffix("FAC-" + st) == DigitsValue(st) < MaxInt64
  {
    DigitsValueBound(st);
    assert Pow10(14) == 100000000000000;
    SuffixOf(st);
    CastOfDigits(st);
  }

  /** The suffix of the next number is above the suffix of every stored
      `FAC-` number, unless it saturates at 2^63 - 1. */
  lemma NextAboveStored(facturas: Table<Factura>, k: int)
    requires facturas.Valid() && k in facturas.rows && LikeFac(facturas.rows[k].numero)
    ensures var g := Suffix(NextNumero(Entries(facturas.rows, facturas.nextId)));
      g > Suffix(facturas.rows[k].numero) || g == MaxInt64
  {
    var s := Entries(facturas.rows, facturas.nextId);
    AllEntries(facturas, Entry(k, facturas.rows[k]));
    MaxSuffixIsMax(s);
    Format06dRoundTrip(NextNumber(MaxSuffix(s)));
  }

  /** Numbers continue above a stored fourteen-digit `FAC-` number. */
  lemma NextAboveFourteen(facturas: Table<Factura>, st: string, k: int)
    requires facturas.Valid() && |st| == 14 && AllDigits(st)
    requires k in facturas.rows && facturas.rows[k].numero == "FAC-" + st
    ensures Suffix(NextNumero(Entries(facturas.rows, facturas.nextId))) > Suffix("FAC-" + st)
  {
    FourteenDigits(st);
    NextAboveStored(facturas, k);
  }

  /** After the timestamp fallback number "FAC-" + YYYYMMDDHHMMSS has been
      stored, later numbers continue above it: the suffix of the next
      generated number exceeds the timestamp's suffix. */
  lemma TimestampContinuation(facturas: Table<Factura>, t: DateTime, now: DateTime, k: int)
    requires facturas.Valid() && ValidDateTime(t) && ValidDateTime(now)
    requires k in facturas.rows && facturas.rows[k].numero == "FAC-" + StampText(t)
    ensures Suffix(GenerarNumeroFactura(facturas, false, now)) > Suffix("FAC-" + StampText(t))
  {
    StampTextShape(t);
    NextAboveFourteen(facturas, StampText(t), k);
  }

  // ---------------------------------------------------------------------
  // crear_factura, actualizar_factura, cambiar_estado_factura, eliminar_factura
  // ---------------------------------------------------------------------

  /** `crear_factura`: a new invoice dated today; answers its id. */
  method CrearFactura(facturas: Table<Factura>, numero: string, subtotal: real, impuesto: real, total: real,
                      estado: string, observaciones: Option<string>, idVenta: Option<int>,
                      idCliente: Option<int>, idEmpleado: Option<int>, today: string)
    returns (id: int)
    requires facturas.Valid()
    modifies facturas
    ensures facturas.Valid() && id == old(facturas.nextId) && id !in old(facturas.rows)
    ensures facturas.nextId == old(facturas.nextId) + 1
    ensures facturas.rows == old(facturas.rows)[id := Factura(numero, today, subtotal, impuesto, total, estado,
                                                               observaciones, idVenta, idCliente, idEmpleado)]
  {
    id := facturas.Insert(Factura(numero, today, subtotal, impuesto, total, estado,
                                  observaciones, idVenta, idCliente, idEmpleado));
  }

  /** The optional arguments of `actualizar_factura`; None leaves the field. */
  datatype FacturaPatch = FacturaPatch(numero: Option<string>, subtotal: Option<real>, impuesto: Option<real>,
                                       total: Option<real>, estado: Option<string>, observaciones: Option<string>,
                                       idVenta: Option<int>, idCliente: Option<int>, idEmpleado: Option<int>)

  const NoChanges: FacturaPatch := FacturaPatch(None, None, None, None, None, None, None, None, None)

  function Keep<T>(p: Option<T>, old_: T): T
  {
    if p.Some? then p.value else old_
  }

  function KeepOpt<T>(p: Option<T>, old_: Option<T>): Option<T>
  {
    if p.Some? then p else old_
  }

  /** The invoice after the assignments `if x is not None: factura.x = x`. */
  function Patched(f: Factura, p: FacturaPatch): Factura
  {
    Factura(Keep(p.numero, f.numero), f.fecha, Keep(p.subtotal, f.subtotal), Keep(p.impuesto, f.impuesto),
            Keep(p.total, f.total), Keep(p.estado, f.estado), KeepOpt(p.observaciones, f.observaciones),
            KeepOpt(p.idVenta, f.idVenta), KeepOpt(p.idCliente, f.idCliente), KeepOpt(p.idEmpleado, f.idEmpleado))
  }

  /** Only the fields given change: an empty patch changes nothing,
      applying a patch twice is applying it once, and a field the patch
      leaves out keeps its value. */
  lemma PatchedProperties(f: Factura, p: FacturaPatch)
    ensures Patched(f, NoChanges) == f
    ensures Patched(Patched(f, p), p) == Patched(f, p)
    ensures Patched(f, p).fecha == f.fecha
    ensures p.estado.None? ==> Patched(f, p).estado == f.estado
    ensures p.numero.None? ==> Patched(f, p).numero == f.numero
    ensures p == NoChanges.(estado := p.estado) ==> Patched(f, p) == f.(estado := Keep(p.estado, f.estado))
  {
  }

  /** `actualizar_factura`: applies the patch to the stored invoice and
      answers its id; an unknown id answers None and changes nothing. */
  method ActualizarFactura(facturas: Table<Factura>, id: int, p: FacturaPatch) returns (r: Option<int>)
    requires facturas.Valid()
    modifies facturas
    ensures facturas.Valid() && facturas.nextId == old(facturas.nextId)
    ensures r == if id in old(facturas.rows) then Some(id) else None
    ensures facturas.rows == if id in old(facturas.rows) then old(facturas.rows)[id := Patched(old(facturas.rows)[id], p)]
                             else old(facturas.rows)
  {
    var f := facturas.Get(id);
    if f.Some? {
      facturas.Update(id, Patched(f.value, p));
      r := Some(id);
    } else {
      r := None;
    }
  }

  const EstadosValidos: seq<string> := ["Pendiente", "Pagada", "Cancelada", "Vencida"]

  /** `cambiar_estado_factura`: an unknown state answers False (`valido`
      false) and changes nothing; otherwise only the state of that invoice
      changes, from whatever state it had, and the answer is that of
      `actualizar_factura`. */
  method CambiarEstadoFactura(facturas: Table<Factura>, id: int, estado: string) returns (valido: bool, r: Option<int>)
    requires facturas.Valid()
    modifies facturas
    ensures facturas.Valid() && facturas.nextId == old(facturas.nextId)
    ensures valido <==> estado in EstadosValidos
    ensures r == if valido && id in old(facturas.rows) then Some(id) else None
    ensures facturas.rows == if valido && id in old(facturas.rows)
                             then old(facturas.rows)[id := old(facturas.rows)[id].(estado := estado)]
                             else old(facturas.rows)
  {
    if estado !in EstadosValidos {
      return false, None;
    }
    valido := true;
    r := ActualizarFactura(facturas, id, NoChanges.(estado := Some(estado)));
  }

  /** `eliminar_factura`: removes the invoice when it exists (its lines
      stay); answers whether it existed. */
  method EliminarFactura(facturas: Table<Factura>, id: int) returns (ok: bool)
    requires facturas.Valid()
    modifies facturas
    ensures facturas.Valid() && facturas.nextId == old(facturas.nextId)
    ensures ok <==> id in old(facturas.rows)
    ensures facturas.rows == old(facturas.rows) - {id}
  {
    var f := facturas.Get(id);
    if f.Some? {
      var rec := new Record(Some(id), f.value);
      ok := rec.Delete(facturas);
    } else {
      ok := false;
    }
  }

  // ---------------------------------------------------------------------
  // Totals
  // ---------------------------------------------------------------------

  /** `subtotal * (impuesto_porcentaje / 100)`. */
  function Impuesto(subtotal: real, pct: real): real
  {
    subtotal * (pct / 100.0)
  }

  /** The percentage both invoice views start with and the invoice form
      goes back to when cleared. */
  const PctPorDefecto: real := 18.0

  /** The invoice with subtotal, tax and total set from a subtotal. */
  function ConTotales(f: Factura, subtotal: real, pct: real): Factura
  {
    f.(subtotal := subtotal, impuesto := Impuesto(subtotal, pct), total := subtotal + Impuesto(subtotal, pct))
  }

  /** The totals are consistent: total = subtotal + tax, the tax is the
      percentage of the subtotal, with 0 % the total is the subtotal, and
      setting them again from the same subtotal changes nothing. */
  lemma ConTotalesProperties(f: Factura, subtotal: real, pct: real)
    ensures ConTotales(f, subtotal, pct).total == ConTotales(f, subtotal, pct).subtotal + ConTotales(f, subtotal, pct).impuesto
    ensures ConTotales(f, subtotal, pct).total == subtotal * (1.0 + pct / 100.0)
    ensures ConTotales(f, subtotal, 0.0).impuesto == 0.0 && ConTotales(f, subtotal, 0.0).total == subtotal
    ensures ConTotales(ConTotales(f, subtotal, pct), subtotal, pct) == ConTotales(f, subtotal, pct)
  {
  }

  /** `WHERE idFactura = ?` */
  function OfFactura(id: int): DetalleFactura -> bool
  {
    (d: DetalleFactura) => d.idFactura == id
  }

  /** The lines of invoice `id` among the rows with ids below n. */
  function LineasIn(rows: map<int, DetalleFactura>, n: int, id: int): seq<Entry<DetalleFactura>>
  {
    Filter(Entries(rows, n), OfFactura(id))
  }

  /** `DetalleFactura.get_by_factura(id)` / `obtener_detalles_factura(id)`. */
  function LineasDe(detalles: Table<DetalleFactura>, id: int): seq<Entry<DetalleFactura>>
    reads detalles
  {
    LineasIn(detalles.rows, detalles.nextId, id)
  }

  /** `obtener_detalles_factura` returns exactly the stored lines of the
      invoice. */
  lemma LineasDeMember(detalles: Table<DetalleFactura>, id: int, e: Entry<DetalleFactura>)
    requires detalles.Valid()
    ensures e in LineasDe(detalles, id) <==> e.id in detalles.rows && detalles.rows[e.id] == e.row && e.row.idFactura == id
  {
    FilterMember(Entries(detalles.rows, detalles.nextId), OfFactura(id), e);
    AllEntries(detalles, e);
  }

  /** `sum(detalle.subtotal for detalle in detalles)`. */
  function SumLineas(s: seq<Entry<DetalleFactura>>): real
  {
    if s == [] then 0.0 else SumLineas(s[..|s| - 1]) + s[|s| - 1].row.subtotal
  }

  lemma {:induction false} SumLineasConcat(a: seq<Entry<DetalleFactura>>, b: seq<Entry<DetalleFactura>>)
    ensures SumLineas(a + b) == SumLineas(a) + SumLineas(b)
    decreases |b|
  {
    if b == [] {
      assert a + b == a;
    } else {
      SumLineasConcat(a, b[..|b| - 1]);
      assert (a + b)[..|a + b| - 1] == a + b[..|b| - 1];
    }
  }

  /** The line total of an invoice grows by the row with id n - 1 when it
      belongs to the invoice. */
  lemma LineasInStep(rows: map<int, DetalleFactura>, n: int, id: int)
    requires n > 1
    ensures SumLineas(LineasIn(rows, n, id))
         == SumLineas(LineasIn(rows, n - 1, id)) + (if n - 1 in rows && rows[n - 1].idFactura == id then rows[n - 1].subtotal else 0.0)
  {
    var tail := if n - 1 in rows then [Entry(n - 1, rows[n - 1])] else [];
    FilterConcat(Entries(rows, n - 1), tail, OfFactura(id));
    SumLineasConcat(LineasIn(rows, n - 1, id), Filter(tail, OfFactura(id)));
    if tail != [] {
      assert tail[1..] == [];
    }
  }

  /** Storing a line under the next id adds its subtotal to its invoice's
      line total and leaves every other invoice's total alone. */
  lemma AddedLineSum(rows: map<int, DetalleFactura>, n: int, line: DetalleFactura, id: int)
    requires n >= 1
    ensures SumLineas(LineasIn(rows[n := line], n + 1, id))
         == SumLineas(LineasIn(rows, n, id)) + (if line.idFactura == id then line.subtotal else 0.0)
  {
    LineasInStep(rows[n := line], n + 1, id);
    EntriesAgree(rows[n := line], rows, n);
  }

  /** Deleting a line takes its subtotal off its invoice's line total and
      leaves every other invoice's total alone. */
  lemma {:induction false} RemovedLineSum(rows: map<int, DetalleFactura>, n: int, d: int, id: int)
    requires d in rows && 1 <= d < n
    ensures SumLineas(LineasIn(rows - {d}, n, id)) + (if rows[d].idFactura == id then rows[d].subtotal else 0.0)
         == SumLineas(LineasIn(rows, n, id))
    decreases n
  {
    LineasInStep(rows - {d}, n, id);
    LineasInStep(rows, n, id);
    if d == n - 1 {
      EntriesAgree(rows - {d}, rows, n - 1);
    } else {
      RemovedLineSum(rows, n - 1, d, id);
    }
  }

  /** `recalcular_totales_factura(id, pct)`: subtotal = the sum of the
      invoice's line subtotals, tax and total from it; answers like
      `actualizar_factura` (None for an unknown invoice, which stays
      absent). */
  method RecalcularTotalesFactura(facturas: Table<Factura>, detalles: Table<DetalleFactura>, id: int, pct: real)
    returns (r: Option<int>)
    requires facturas.Valid()
    modifies facturas
    ensures facturas.Valid() && facturas.nextId == old(facturas.nextId)
    ensures r == if id in old(facturas.rows) then Some(id) else None
    ensures facturas.rows == if id in old(facturas.rows)
                             then old(facturas.rows)[id := ConTotales(old(facturas.rows)[id], SumLineas(LineasDe(detalles, id)), pct)]
                             else old(facturas.rows)
  {
    var subtotal := SumLineas(LineasDe(detalles, id));
    var impuesto := Impuesto(subtotal, pct);
    var total := subtotal + impuesto;
    r := ActualizarFactura(facturas, id, NoChanges.(subtotal := Some(subtotal), impuesto := Some(impuesto), total := Some(total)));
  }

  // ---------------------------------------------------------------------
  // crear_factura_desde_venta
  // ---------------------------------------------------------------------

  /** `crear_factura_desde_venta(id_venta, pct)`: None for an unknown sale;
      otherwise a Pendiente invoice numbered by `generar_numero_factura`,
      whose subtotal is the sale total, with the tax at `pct` and linked to
      the sale, its client and its employee. */
  method CrearFacturaDesdeVenta(facturas: Table<Factura>, ventas: Table<Venta>, idVenta: int, pct: real,
                                queryFails: bool, now: DateTime, today: string)
    returns (r: Option<int>)
    requires facturas.Valid() && ValidDateTime(now)
    modifies facturas
    ensures facturas.Valid()
    ensures r.Some? <==> idVenta in ventas.rows
    ensures facturas.nextId == if r.Some? then old(facturas.nextId) + 1 else old(facturas.nextId)
    ensures r.None? ==> facturas.rows == old(facturas.rows)
    ensures r.Some? ==>
      var v := ventas.rows[idVenta];
      r.value == old(facturas.nextId) &&
      facturas.rows == old(facturas.rows)[r.value := ConTotales(
        Factura(old(GenerarNumeroFactura(facturas, queryFails, now)), today, 0.0, 0.0, 0.0, "Pendiente", None,
                Some(idVenta), Some(v.idCliente), Some(v.idEmpleado)),
        v.total, pct)]
  {
    var v := ventas.Get(idVenta);
    if v.None? {
      return None;
    }
    var numero := GenerarNumeroFactura(facturas, queryFails, now);
    var subtotal := v.value.total;
    var impuesto := Impuesto(subtotal, pct);
    var total := subtotal + impuesto;
    assert ConTotales(Factura(numero, today, 0.0, 0.0, 0.0, "Pendiente", None,
                              Some(idVenta), Some(v.value.idCliente), Some(v.value.idEmpleado)), subtotal, pct)
        == Factura(numero, today, subtotal, impuesto, total, "Pendiente", None,
                   Some(idVenta), Some(v.value.idCliente), Some(v.value.idEmpleado));
    var id := CrearFactura(facturas, numero, subtotal, impuesto, total, "Pendiente", None,
                           Some(idVenta), Some(v.value.idCliente), Some(v.value.idEmpleado), today);
    r := Some(id);
  }

  // ---------------------------------------------------------------------
  // Lines
  // ---------------------------------------------------------------------

  /** The line `agregar_producto_factura` stores: the product's current
      price, subtotal = price * quantity. */
  function Linea(p: Producto, idProducto: int, cantidad: int, idFactura: int): DetalleFactura
  {
    DetalleFactura(cantidad, p.precio, p.precio * cantidad as real, idProducto, idFactura)
  }

  /** `agregar_producto_factura(id_factura, id_producto, cantidad)`: False
      and no change for an unknown product; otherwise one new line and the
      invoice's totals recomputed at 0 % (whether or not the invoice
      exists). */
  method AgregarProductoFactura(facturas: Table<Factura>, detalles: Table<DetalleFactura>, productos: Table<Producto>,
                                idFactura: int, idProducto: int, cantidad: int)
    returns (ok: bool)
    requires facturas.Valid() && detalles.Valid()
    modifies facturas, detalles
    ensures facturas.Valid() && detalles.Valid() && facturas.nextId == old(facturas.nextId)
    ensures ok <==> idProducto in productos.rows
    ensures !ok ==> detalles.rows == old(detalles.rows) && detalles.nextId == old(detalles.nextId) &&
                    facturas.rows == old(facturas.rows)
    ensures ok ==>
      detalles.rows == old(detalles.rows)[old(detalles.nextId) := Linea(productos.rows[idProducto], idProducto, cantidad, idFactura)] &&
      detalles.nextId == old(detalles.nextId) + 1 &&
      facturas.rows == if idFactura in old(facturas.rows)
                       then old(facturas.rows)[idFactura := ConTotales(old(facturas.rows)[idFactura], SumLineas(LineasDe(detalles, idFactura)), 0.0)]
                       else old(facturas.rows)
  {
    var p := productos.Get(idProducto);
    if p.None? {
      return false;
    }
    var _ := detalles.Insert(Linea(p.value, idProducto, cantidad, idFactura));
    var _ := RecalcularTotalesFactura(facturas, detalles, idFactura, 0.0);
    ok := true;
  }

  /** `eliminar_producto_factura(id_detalle)`: False and no change for an
      unknown line; otherwise the line goes and its invoice's totals are
      recomputed at 0 %. */
  method EliminarProductoFactura(facturas: Table<Factura>, detalles: Table<DetalleFactura>, idDetalle: int)
    returns (ok: bool)
    requires facturas.Valid() && detalles.Valid()
    modifies facturas, detalles
    ensures facturas.Valid() && detalles.Valid() && facturas.nextId == old(facturas.nextId)
    ensures ok <==> idDetalle in old(detalles.rows)
    ensures detalles.rows == old(detalles.rows) - {idDetalle} && detalles.nextId == old(detalles.nextId)
    ensures !ok ==> facturas.rows == old(facturas.rows)
    ensures ok ==>
      var idF := old(detalles.rows)[idDetalle].idFactura;
      facturas.rows == if idF in old(facturas.rows)
                       then old(facturas.rows)[idF := ConTotales(old(facturas.rows)[idF], SumLineas(LineasDe(detalles, idF)), 0.0)]
                       else old(facturas.rows)
  {
    var d := detalles.Get(idDetalle);
    if d.None? {
      return false;
    }
    var idF := d.value.idFactura;
    var rec := new Record(Some(idDetalle), d.value);
    var deleted := rec.Delete(detalles);
    if deleted {
      var _ := RecalcularTotalesFactura(facturas, detalles, idF, 0.0);
      return true;
    }
    ok := false;
  }

  // ---------------------------------------------------------------------
  // crear_factura_con_productos
  // ---------------------------------------------------------------------

  /** One element of `productos_data`; its price is not read. */
  datatype ItemFactura = ItemFactura(idProducto: int, cantidad: int, precioUnitario: real)

  /** The position of the first item whose product is unknown, or the
      number of items. */
  function FirstMissing(items: seq<ItemFactura>, productos: map<int, Producto>): (k: nat)
    ensures k <= |items|
    ensures forall i :: 0 <= i < k ==> items[i].idProducto in productos
    ensures k < |items| ==> items[k].idProducto !in productos
  {
    if items == [] then 0
    else if items[0].idProducto !in productos then 0
    else 1 + FirstMissing(items[1..], productos)
  }

  /** The lines stored for `items` (all with known products), under
      consecutive ids from `start`. */
  function LineRows(items: seq<ItemFactura>, productos: map<int, Producto>, idFactura: int, start: int): map<int, DetalleFactura>
    requires forall i :: 0 <= i < |items| ==> items[i].idProducto in productos
  {
    if items == [] then map[]
    else
      var it := items[|items| - 1];
      LineRows(items[..|items| - 1], productos, idFactura, start)[start + |items| - 1 :=
        Linea(productos[it.idProducto], it.idProducto, it.cantidad, idFactura)]
  }

  /** The invoice `crear_factura_con_productos` starts from. */
  function Inicial(numero: string, today: string, estado: string, observaciones: Option<string>,
                   idCliente: Option<int>, idEmpleado: Option<int>): Factura
  {
    Factura(numero, today, 0.0, 0.0, 0.0, estado, observaciones, None, idCliente, idEmpleado)
  }

  /** Same invoice apart from the three amounts. */
  predicate SameHeader(f: Factura, g: Factura)
  {
    f.(subtotal := 0.0, impuesto := 0.0, total := 0.0) == g.(subtotal := 0.0, impuesto := 0.0, total := 0.0)
  }

  /** One more item adds one line under the next id. */
  lemma LineRowsStep(lines0: map<int, DetalleFactura>, items: seq<ItemFactura>, i: nat,
                     productos: map<int, Producto>, fid: int, start: int)
    requires i < |items| && forall j :: 0 <= j <= i ==> items[j].idProducto in productos
    ensures lines0 + LineRows(items[..i + 1], productos, fid, start)
         == (lines0 + LineRows(items[..i], productos, fid, start))[start + i :=
              Linea(productos[items[i].idProducto], items[i].idProducto, items[i].cantidad, fid)]
  {
    assert items[..i + 1][..i] == items[..i];
  }

  /** Setting the totals forgets the amounts the invoice had. */
  lemma ConTotalesHeader(f: Factura, g: Factura, subtotal: real, pct: real)
    requires SameHeader(f, g)
    ensures ConTotales(f, subtotal, pct) == ConTotales(g, subtotal, pct)
    ensures SameHeader(ConTotales(f, subtotal, pct), g)
  {
  }

  /** The loop of `crear_factura_con_productos`: adds the items in order
      and stops at the first unknown product; only the amounts of invoice
      `fid` change. */
  method AgregarItems(facturas: Table<Factura>, detalles: Table<DetalleFactura>, productos: Table<Producto>,
                      fid: int, items: seq<ItemFactura>)
    returns (ok: bool)
    requires facturas.Valid() && detalles.Valid() && fid in facturas.rows
    modifies facturas, detalles
    ensures facturas.Valid() && detalles.Valid() && facturas.nextId == old(facturas.nextId)
    ensures ok <==> FirstMissing(items, productos.rows) == |items|
    ensures var k := FirstMissing(items, productos.rows);
      detalles.rows == old(detalles.rows) + LineRows(items[..k], productos.rows, fid, old(detalles.nextId)) &&
      detalles.nextId == old(detalles.nextId) + k
    ensures fid in facturas.rows && facturas.rows == old(facturas.rows)[fid := facturas.rows[fid]]
    ensures SameHeader(facturas.rows[fid], old(facturas.rows)[fid])
  {
    ghost var rows0 := facturas.rows;
    ghost var lines0 := detalles.rows;
    ghost var start := detalles.nextId;
    ghost var k := FirstMissing(items, productos.rows);
    var i := 0;
    while i < |items|
      invariant 0 <= i <= k
      invariant facturas.Valid() && detalles.Valid() && facturas.nextId == old(facturas.nextId)
      invariant fid in facturas.rows && facturas.rows == rows0[fid := facturas.rows[fid]]
      invariant SameHeader(facturas.rows[fid], rows0[fid])
      invariant detalles.rows == lines0 + LineRows(items[..i], productos.rows, fid, start)
      invariant detalles.nextId == start + i
      modifies facturas, detalles
    {
      var it := items[i];
      ghost var f0 := facturas.rows[fid];
      var added := AgregarProductoFactura(facturas, detalles, productos, fid, it.idProducto, it.cantidad);
      if !added {
        assert i == k;
        return false;
      }
      assert i < k;
      ConTotalesHeader(f0, rows0[fid], SumLineas(LineasDe(detalles, fid)), 0.0);
      LineRowsStep(lines0, items, i, productos.rows, fid, start);
      i := i + 1;
    }
    assert i == k && items[..i] == items;
    ok := true;
  }

  /** `crear_factura_con_productos`: creates the invoice with zero totals,
      then adds the items in order.  At the first item whose product is
      unknown it deletes the invoice and answers None, leaving the lines of
      the earlier items in place and not trying later items.  Otherwise it
      recomputes the totals at `pct` and answers the invoice id.  The items'
      own prices are never used. */
  method CrearFacturaConProductos(facturas: Table<Factura>, detalles: Table<DetalleFactura>, productos: Table<Producto>,
                                  numero: string, items: seq<ItemFactura>, pct: real, estado: string,
                                  observaciones: Option<string>, idCliente: Option<int>, idEmpleado: Option<int>,
                                  today: string)
    returns (r: Option<int>)
    requires facturas.Valid() && detalles.Valid()
    modifies facturas, detalles
    ensures facturas.Valid() && detalles.Valid()
    ensures var k := FirstMissing(items, productos.rows);
      detalles.rows == old(detalles.rows) + LineRows(items[..k], productos.rows, old(facturas.nextId), old(detalles.nextId)) &&
      detalles.nextId == old(detalles.nextId) + k
    ensures r == if FirstMissing(items, productos.rows) == |items| then Some(old(facturas.nextId)) else None
    ensures facturas.nextId == old(facturas.nextId) + 1
    ensures r.None? ==> facturas.rows == old(facturas.rows)
    ensures r.Some? ==>
      facturas.rows == old(facturas.rows)[r.value := ConTotales(
        Inicial(numero, today, estado, observaciones, idCliente, idEmpleado),
        SumLineas(LineasDe(detalles, r.value)), pct)]
  {
    var fid := CrearFactura(facturas, numero, 0.0, 0.0, 0.0, estado, observaciones, None, idCliente, idEmpleado, today);
    ghost var rows0 := old(facturas.rows);
    var ok := AgregarItems(facturas, detalles, productos, fid, items);
    if !ok {
      var _ := EliminarFactura(facturas, fid);
      assert facturas.rows == rows0;
      return None;
    }
    ghost var f1 := facturas.rows[fid];
    var _ := RecalcularTotalesFactura(facturas, detalles, fid, pct);
    ConTotalesHeader(f1, Inicial(numero, today, estado, observaciones, idCliente, idEmpleado), SumLineas(LineasDe(detalles, fid)), pct);
    r := Some(fid);
  }
}

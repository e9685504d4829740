/** views/venta_view.py: the cart of a new sale.

    The widgets are replaced by the form's text fields and the cart
    (`self.detalles`); the combo boxes by the maps `load_combos` builds
    from their display keys. */
module VentaView {
  import opened Wrappers
  import opened Text
  import opened Helpers
  import opened Models
  import opened VentaController

  /** One value of `productos_data`. */
  datatype ProductoData = ProductoData(id: int, nombre: string, precio: real, stock: int)

  /** utils/validators.py is not part of this model: `validate_integer(s,
      min_value)` is taken to accept exactly the texts int() reads whose
      value is at least min_value. */
  predicate ValidInteger(s: string, minValue: int)
  {
    ParseInt(s).Some? && ParseInt(s).value >= minValue
  }

  /** `re.sub(r'[^\d.]', '', s.replace(",", "."))`: commas become points,
      then only digits and points are kept. */
  function PriceChars(s: string): (r: string)
    ensures |r| <= |s|
    ensures forall i :: 0 <= i < |r| ==> IsDigit(r[i]) || r[i] == '.'
  {
    if s == [] then []
    else
      var c := if s[0] == ',' then '.' else s[0];
      (if IsDigit(c) || c == '.' then [c] else []) + PriceChars(s[1..])
  }

  /** Text made only of digits and points is kept as it is. */
  lemma {:induction false} PriceCharsKeeps(s: string)
    requires forall i :: 0 <= i < |s| ==> IsDigit(s[i]) || s[i] == '.'
    ensures PriceChars(s) == s
  {
    if s != [] {
      PriceCharsKeeps(s[1..]);
      assert s == [s[0]] + s[1..];
    }
  }

  // ---------------------------------------------------------------------
  // calculate_subtotal and on_producto_selected

  /** The subtotal field as `calculate_subtotal` sets it: the cleaned price
      ("0" when nothing is left) times int(cantidad), with two decimals;
      "0.00" when either does not parse. */
  function SubtotalText(precio: string, cantidad: string): string
  {
    var limpio := if PriceChars(precio) == [] then "0" else PriceChars(precio);
    match (ParseDecimal(limpio), ParseInt(cantidad))
    case (Some(p), Some(n)) => FixedText(CalculateSubtotal(p, n), 2)
    case _ => "0.00"
  }

  /** An unreadable quantity, or a price with no digit left, shows a zero
      subtotal. */
  lemma SubtotalTextZero(precio: string, cantidad: string)
    ensures ParseInt(cantidad).None? ==> SubtotalText(precio, cantidad) == "0.00"
    ensures PriceChars(precio) == [] ==> SubtotalText(precio, cantidad) == "0.00"
  {
    if PriceChars(precio) == [] && ParseInt(cantidad).Some? {
      assert "0" == NatToString(0);
      NatToStringValue(0);
      assert ParseDecimal("0") == Some(0.0) by {
        assert Strip("0") == "0" by { StripUnchanged("0"); }
        assert IndexOf("0", ".").None?;
      }
      FixedTextZero();
    }
  }

  /** The price field after choosing a product: the currency text without
      "S/", stripped. */
  function PrecioTexto(precio: real): string
  {
    Strip(Replace(FormatCurrency(precio), "S/", ""))
  }

  /** The price field shows the price with two decimals. */
  lemma PrecioTextoIsFixed(precio: real)
    ensures PrecioTexto(precio) == FixedText(precio, 2)
  {
    var t := FixedText(precio, 2);
    FixedTextValue(precio, 2);
    UnformatNumeral(t);
    DropSymbol(t);
    StripBlanksBefore(1, t);
    assert Blanks(1) + t == " " + t;
  }

  /** Removing "S/" from "S/ " and a numeral leaves the blank and the
      numeral. */
  lemma DropSymbol(t: string)
    requires NumeralChars(t)
    ensures Replace("S/ " + t, "S/", "") == " " + t
  {
    var bt := " " + t;
    assert "S/ " + t == "S/" + bt;
    ReplaceAtFront("S/", bt, "");
    forall i | 0 <= i < |bt| ensures bt[i] != 'S' {
      if i > 0 {
        assert bt[i] == t[i - 1];
      }
    }
    assert "S/"[0] == 'S';
    ReplaceAbsent(bt, "S/", "");
  }

  /** For a non-negative price the price field reads back, after the
      cleaning `agregar_producto` applies, as the price rounded to cents. */
  lemma PrecioTextoRoundTrip(precio: real)
    requires precio >= 0.0
    ensures ParseDecimal(PriceChars(PrecioTexto(precio))) == Some(Rounded(precio, 2))
  {
    var t := FixedText(precio, 2);
    PrecioTextoIsFixed(precio);
    FixedTextValue(precio, 2);
    var a, z := NonNegativeShape(precio);
    DigitsAndPoint(a, z);
    PriceCharsKeeps(t);
  }

  /** Digits around one point are all digits or the point. */
  lemma DigitsAndPoint(a: string, z: string)
    requires AllDigits(a) && AllDigits(z)
    ensures forall i :: 0 <= i < |a + "." + z| ==> IsDigit((a + "." + z)[i]) || (a + "." + z)[i] == '.'
  {
    var t := a + "." + z;
    forall i | 0 <= i < |t| ensures IsDigit(t[i]) || t[i] == '.' {
      if i < |a| {
        assert t[i] == a[i];
      } else if i > |a| {
        assert t[i] == z[i - |a| - 1];
      }
    }
  }

  /** A non-negative amount is written as integer digits, a point and two
      fractional digits. */
  lemma NonNegativeShape(x: real) returns (a: string, z: string)
    requires x >= 0.0
    ensures FixedText(x, 2) == a + "." + z
    ensures |a| >= 1 && |z| == 2 && AllDigits(a) && AllDigits(z)
  {
    var m := Magnitude(x, 2);
    a := NatToString(IntPart(m, 2));
    FracPartShape(FracValue(m, 2), 2);
    z := ZeroPad(NatToString(FracValue(m, 2)), 2);
    assert SignText(false) == [];
    assert FixedText(x, 2) == SignText(false) + a + ("." + z);
  }

  // ---------------------------------------------------------------------
  // The cart

  /** The position of the first line of product `id`, as the
      `for i, d in enumerate(self.detalles)` search finds it. */
  function FindProducto(cart: seq<CartLine>, id: int): (k: Option<nat>)
    ensures k.None? ==> forall i :: 0 <= i < |cart| ==> cart[i].idProducto != id
    ensures k.Some? ==> k.value < |cart| && cart[k.value].idProducto == id &&
                        forall i :: 0 <= i < k.value ==> cart[i].idProducto != id
  {
    if cart == [] then None
    else if cart[0].idProducto == id then Some(0)
    else match FindProducto(cart[1..], id)
      case None => None
      case Some(k) => Some(k + 1)
  }

  /** The display keys of one product all describe the same product. */
  predicate ConsistentCatalog(catalog: map<string, ProductoData>)
  {
    forall k1, k2 :: k1 in catalog && k2 in catalog && catalog[k1].id == catalog[k2].id ==> catalog[k1] == catalog[k2]
  }

  /** The cart invariant: one line per product, every quantity at least 1
      and within the stock loaded for that product. */
  predicate CartOk(cart: seq<CartLine>, catalog: map<string, ProductoData>)
  {
    DistinctIds(cart) && forall i :: 0 <= i < |cart| ==> LineOk(cart[i], catalog)
  }

  /** No product has two lines. */
  predicate DistinctIds(cart: seq<CartLine>)
  {
    forall i, j :: 0 <= i < j < |cart| ==> cart[i].idProducto != cart[j].idProducto
  }

  /** A quantity of at least 1 and within the stock loaded for the product. */
  predicate LineOk(l: CartLine, catalog: map<string, ProductoData>)
  {
    l.cantidad >= 1 && forall k :: k in catalog && catalog[k].id == l.idProducto ==> l.cantidad <= catalog[k].stock
  }

  /** What `agregar_producto` answers. */
  datatype AddOutcome = Added | Merged | NoProduct | BadQuantity | UnknownProduct | NoStock | BadPrice

  predicate Rejected(o: AddOutcome)
  {
    o != Added && o != Merged
  }

  /** The cart after `agregar_producto` has passed all its checks on the
      key, the quantity, the stock and the price, for product p, quantity n
      and price pu: the line of that product grows (within the stock) or a
      new line is appended. */
  function AgregarLinea(cart: seq<CartLine>, p: ProductoData, n: int, pu: real): (AddOutcome, seq<CartLine>)
  {
    match FindProducto(cart, p.id)
    case Some(i) =>
      var nueva := cart[i].cantidad + n;
      if nueva > p.stock then (NoStock, cart)
      else (Merged, cart[i := cart[i].(cantidad := nueva, subtotal := CalculateSubtotal(pu, nueva))])
    case None => (Added, cart + [CartLine(p.id, p.nombre, n, pu, CalculateSubtotal(pu, n))])
  }

  /** The cart after `agregar_producto`, and its answer, in the order the
      checks run: no product chosen, a quantity that is not an integer of at
      least 1, an unknown key, more than the stock, a price float() cannot
      read; then `AgregarLinea`. */
  function Agregar(cart: seq<CartLine>, catalog: map<string, ProductoData>, key: string,
                   cantidad: string, precio: string): (AddOutcome, seq<CartLine>)
  {
    if key == "" then (NoProduct, cart)
    else if !ValidInteger(cantidad, 1) then (BadQuantity, cart)
    else if key !in catalog then (UnknownProduct, cart)
    else if ParseInt(cantidad).value > catalog[key].stock then (NoStock, cart)
    else match ParseDecimal(PriceChars(precio))
      case None => (BadPrice, cart)
      case Some(pu) => AgregarLinea(cart, catalog[key], ParseInt(cantidad).value, pu)
  }

  /** A rejected add leaves the cart as it was, and the checks run in
      order. */
  lemma AgregarRejected(cart: seq<CartLine>, catalog: map<string, ProductoData>, key: string, cantidad: string, precio: string)
    ensures var (o, c) := Agregar(cart, catalog, key, cantidad, precio);
      Rejected(o) ==> c == cart
    ensures var (o, _) := Agregar(cart, catalog, key, cantidad, precio);
      (key == "" ==> o == NoProduct) &&
      (key != "" && !ValidInteger(cantidad, 1) ==> o == BadQuantity) &&
      (key != "" && ValidInteger(cantidad, 1) && key !in catalog ==> o == UnknownProduct) &&
      (key in catalog && key != "" && ValidInteger(cantidad, 1) && ParseInt(cantidad).value > catalog[key].stock ==> o == NoStock)
  {
  }

  /** A product already in the cart: its quantity grows by the amount
      added, its subtotal is the new quantity times the price just read,
      and no line is added; the other lines stay. */
  lemma AgregarMerges(cart: seq<CartLine>, p: ProductoData, n: int, pu: real, i: nat)
    requires i < |cart| && cart[i].idProducto == p.id
    requires forall a, b :: 0 <= a < b < |cart| ==> cart[a].idProducto != cart[b].idProducto
    ensures var (o, c) := AgregarLinea(cart, p, n, pu);
      o == Merged ==>
        |c| == |cart| && c[i].cantidad == cart[i].cantidad + n && c[i].subtotal == CalculateSubtotal(pu, c[i].cantidad) &&
        c[i].idProducto == cart[i].idProducto && c[i].precioUni == cart[i].precioUni &&
        forall j :: 0 <= j < |cart| && j != i ==> c[j] == cart[j]
    ensures var (o, c) := AgregarLinea(cart, p, n, pu);
      o != Added && (o == NoStock <==> cart[i].cantidad + n > p.stock)
  {
    FindUnique(cart, p.id, i);
  }

  /** In a cart with one line per product, the search finds that line. */
  lemma FindUnique(cart: seq<CartLine>, id: int, i: nat)
    requires i < |cart| && cart[i].idProducto == id
    requires forall a, b :: 0 <= a < b < |cart| ==> cart[a].idProducto != cart[b].idProducto
    ensures FindProducto(cart, id) == Some(i)
  {
  }

  /** A product not yet in the cart: exactly one line is appended, with
      subtotal = price * quantity. */
  lemma AgregarAppends(cart: seq<CartLine>, p: ProductoData, n: int, pu: real)
    ensures var (o, c) := AgregarLinea(cart, p, n, pu);
      o == Added <==> forall i :: 0 <= i < |cart| ==> cart[i].idProducto != p.id
    ensures var (o, c) := AgregarLinea(cart, p, n, pu);
      o == Added ==> c == cart + [CartLine(p.id, p.nombre, n, pu, CalculateSubtotal(pu, n))]
  {
    var k := FindProducto(cart, p.id);
    if k.Some? {
      assert cart[k.value].idProducto == p.id;
    }
  }

  lemma AgregarLineaMerged(cart: seq<CartLine>, p: ProductoData, n: int, pu: real, i: nat)
    requires FindProducto(cart, p.id) == Some(i) && cart[i].cantidad + n <= p.stock
    ensures AgregarLinea(cart, p, n, pu)
         == (Merged, cart[i := cart[i].(cantidad := cart[i].cantidad + n, subtotal := CalculateSubtotal(pu, cart[i].cantidad + n))])
  {
  }

  lemma AgregarLineaNoStock(cart: seq<CartLine>, p: ProductoData, n: int, pu: real, i: nat)
    requires FindProducto(cart, p.id) == Some(i) && cart[i].cantidad + n > p.stock
    ensures AgregarLinea(cart, p, n, pu) == (NoStock, cart)
  {
  }

  lemma AgregarLineaAdded(cart: seq<CartLine>, p: ProductoData, n: int, pu: real)
    requires forall j :: 0 <= j < |cart| ==> cart[j].idProducto != p.id
    ensures AgregarLinea(cart, p, n, pu) == (Added, cart + [CartLine(p.id, p.nombre, n, pu, CalculateSubtotal(pu, n))])
  {
  }

  /** A checked add keeps the cart invariant: the merged line stays
      within the stock, an appended line is the only one of its product. */
  lemma AgregarLineaKeepsCartOk(cart: seq<CartLine>, catalog: map<string, ProductoData>, key: string, n: int, pu: real)
    requires ConsistentCatalog(catalog) && CartOk(cart, catalog)
    requires key in catalog && 1 <= n <= catalog[key].stock
    ensures CartOk(AgregarLinea(cart, catalog[key], n, pu).1, catalog)
  {
    var p := catalog[key];
    var c := AgregarLinea(cart, p, n, pu).1;
    match FindProducto(cart, p.id) {
      case None =>
        var l := CartLine(p.id, p.nombre, n, pu, CalculateSubtotal(pu, n));
        assert c == cart + [l];
        assert LineOk(l, catalog);
        forall i | 0 <= i < |c| ensures LineOk(c[i], catalog) {
          if i < |cart| {
            assert c[i] == cart[i];
          }
        }
        forall i, j | 0 <= i < j < |c| ensures c[i].idProducto != c[j].idProducto {
          if j < |cart| {
            assert c[i] == cart[i] && c[j] == cart[j];
          } else {
            assert c[i] == cart[i];
          }
        }
      case Some(m) =>
        var nueva := cart[m].cantidad + n;
        if nueva <= p.stock {
          var l := cart[m].(cantidad := nueva, subtotal := CalculateSubtotal(pu, nueva));
          assert c == cart[m := l];
          assert LineOk(cart[m], catalog);
          assert LineOk(l, catalog);
          forall i | 0 <= i < |c| ensures LineOk(c[i], catalog) {
            if i != m {
              assert c[i] == cart[i];
            }
          }
          assert DistinctIds(c);
        }
    }
  }

  /** Any add keeps the cart invariant; a rejected one leaves the cart. */
  lemma AgregarKeepsCartOk(cart: seq<CartLine>, catalog: map<string, ProductoData>, key: string, cantidad: string, precio: string)
    requires ConsistentCatalog(catalog) && CartOk(cart, catalog)
    ensures CartOk(Agregar(cart, catalog, key, cantidad, precio).1, catalog)
  {
    if key != "" && ValidInteger(cantidad, 1) && key in catalog && ParseInt(cantidad).value <= catalog[key].stock {
      var pu := ParseDecimal(PriceChars(precio));
      if pu.Some? {
        AgregarLineaKeepsCartOk(cart, catalog, key, ParseInt(cantidad).value, pu.value);
      }
    }
  }

  /** `[d for d in self.detalles if d['id_producto'] != id_producto]`. */
  function SinProducto(cart: seq<CartLine>, id: int): (r: seq<CartLine>)
    ensures |r| <= |cart|
  {
    if cart == [] then []
    else (if cart[0].idProducto != id then [cart[0]] else []) + SinProducto(cart[1..], id)
  }

  /** Removing keeps exactly the lines of the other products. */
  lemma {:induction false} SinProductoMember(cart: seq<CartLine>, id: int, l: CartLine)
    ensures l in SinProducto(cart, id) <==> l in cart && l.idProducto != id
  {
    if cart != [] {
      SinProductoMember(cart[1..], id, l);
      assert cart == [cart[0]] + cart[1..];
    }
  }

  /** Removing keeps the other lines in their order: it is the cart
      with the lines of that product taken out and nothing else. */
  lemma {:induction false} SinProductoOrder(a: seq<CartLine>, b: seq<CartLine>, id: int)
    ensures SinProducto(a + b, id) == SinProducto(a, id) + SinProducto(b, id)
  {
    if a != [] {
      SinProductoOrder(a[1..], b, id);
      assert (a + b)[0] == a[0];
      assert (a + b)[1..] == a[1..] + b;
    } else {
      assert a + b == b;
    }
  }

  /** Removing keeps the cart invariant. */
  lemma SinProductoKeepsCartOk(cart: seq<CartLine>, catalog: map<string, ProductoData>, id: int)
    requires CartOk(cart, catalog)
    ensures CartOk(SinProducto(cart, id), catalog)
  {
    var r := SinProducto(cart, id);
    SinProductoDistinct(cart, id);
    forall i | 0 <= i < |r| ensures LineOk(r[i], catalog) {
      SinProductoMember(cart, id, r[i]);
    }
  }

  /** Removing keeps one line per product. */
  lemma {:induction false} SinProductoDistinct(cart: seq<CartLine>, id: int)
    requires DistinctIds(cart)
    ensures DistinctIds(SinProducto(cart, id))
  {
    if cart != [] {
      var rest := SinProducto(cart[1..], id);
      SinProductoDistinct(cart[1..], id);
      if cart[0].idProducto != id {
        forall j | 0 <= j < |rest| ensures rest[j].idProducto != cart[0].idProducto {
          SinProductoMember(cart[1..], id, rest[j]);
        }
        var r := [cart[0]] + rest;
        forall i, j | 0 <= i < j < |r| ensures r[i].idProducto != r[j].idProducto {
          if i > 0 {
            assert r[i] == rest[i - 1] && r[j] == rest[j - 1];
          } else {
            assert r[j] == rest[j - 1];
          }
        }
      }
    }
  }

  /** `f"{total:.2f}"` of the cart. */
  function TotalText(cart: seq<CartLine>): string
  {
    FixedText(SubtotalSum(cart), 2)
  }

  /** What `registrar_venta` does. */
  datatype RegistroOutcome = NoCliente | NoEmpleado | EmptyCart | BadIds | Registered(id: int) | NotRegistered

  /** The pre-checks of `registrar_venta`, in order: a client chosen, an
      employee chosen, a non-empty cart, and both keys resolving to a
      truthy id. None when they all pass. */
  function PreCheck(cliente: string, empleado: string, cart: seq<CartLine>,
                    clientes: map<string, int>, empleados: map<string, int>): Option<RegistroOutcome>
  {
    if cliente == "" then Some(NoCliente)
    else if empleado == "" then Some(NoEmpleado)
    else if cart == [] then Some(EmptyCart)
    else if cliente !in clientes || empleado !in empleados || clientes[cliente] == 0 || empleados[empleado] == 0 then Some(BadIds)
    else None
  }

  /** `crear_venta` is reached only with a client, an employee, a
      non-empty cart and two resolved, non-zero ids. */
  lemma PreCheckPasses(cliente: string, empleado: string, cart: seq<CartLine>,
                       clientes: map<string, int>, empleados: map<string, int>)
    ensures PreCheck(cliente, empleado, cart, clientes, empleados).None? <==>
      cliente != "" && empleado != "" && |cart| >= 1 &&
      cliente in clientes && clientes[cliente] != 0 && empleado in empleados && empleados[empleado] != 0
  {
  }

  /** The sale form. */
  class VentaView {
    var clientesData: map<string, int>
    var empleadosData: map<string, int>
    var productosData: map<string, ProductoData>
    var cliente: string
    var empleado: string
    var producto: string
    var cantidad: string
    var precio: string
    var subtotal: string
    var total: string
    var detalles: seq<CartLine>

    /** The cart invariant holds and the total field shows the cart's total. */
    ghost predicate Valid()
      reads this`productosData, this`detalles, this`total
    {
      ConsistentCatalog(productosData) && CartOk(detalles, productosData) && total == TotalText(detalles)
    }

    /** `__init__` followed by `load_combos`: empty cart, total "0.00",
        quantity "1", price and subtotal "0.00". */
    constructor (clientes: map<string, int>, empleados: map<string, int>, catalog: map<string, ProductoData>)
      requires ConsistentCatalog(catalog)
      ensures Valid()
      ensures clientesData == clientes && empleadosData == empleados && productosData == catalog
      ensures detalles == [] && total == "0.00" && cantidad == "1" && precio == "0.00" && subtotal == "0.00"
      ensures cliente == "" && empleado == "" && producto == ""
    {
      clientesData := clientes;
      empleadosData := empleados;
      productosData := catalog;
      cliente, empleado, producto := "", "", "";
      cantidad, precio, subtotal := "1", "0.00", "0.00";
      detalles := [];
      total := "0.00";
      FixedTextZero();
    }

    /** `calculate_subtotal`, which also runs whenever the quantity field
        is written. */
    method CalculateSubtotalField()
      modifies this`subtotal
      ensures subtotal == SubtotalText(precio, cantidad)
    {
      subtotal := SubtotalText(precio, cantidad);
    }

    /** `on_producto_selected`: a known key fills the price field from the
        product's price and recomputes the subtotal. */
    method OnProductoSelected()
      modifies this`precio, this`subtotal
      ensures producto in productosData ==> precio == PrecioTexto(productosData[producto].precio) &&
                                            subtotal == SubtotalText(precio, cantidad)
      ensures producto !in productosData ==> precio == old(precio) && subtotal == old(subtotal)
    {
      if producto in productosData {
        precio := PrecioTexto(productosData[producto].precio);
        CalculateSubtotalField();
      }
    }

    /** `actualizar_total`. */
    method ActualizarTotal()
      modifies this`total
      ensures total == TotalText(detalles)
    {
      total := FixedText(SubtotalSum(detalles), 2);
    }

    /** The part of `agregar_producto` after the checks on the key, the
        quantity, the stock and the price: the search for the product's
        line, then the merge or the append, and the new total. */
    method AgregarValidado(p: ProductoData, n: int, pu: real) returns (o: AddOutcome)
      modifies this`detalles, this`total
      ensures (o, detalles) == AgregarLinea(old(detalles), p, n, pu)
      ensures total == if o == NoStock then old(total) else TotalText(detalles)
    {
      ghost var antes := detalles;
      var i := 0;
      while i < |detalles|
        invariant 0 <= i <= |detalles|
        invariant detalles == antes && total == old(total)
        invariant forall j :: 0 <= j < i ==> detalles[j].idProducto != p.id
      {
        if detalles[i].idProducto == p.id {
          assert FindProducto(antes, p.id) == Some(i);
          var nueva := detalles[i].cantidad + n;
          if nueva > p.stock {
            AgregarLineaNoStock(antes, p, n, pu, i);
            return NoStock;
          }
          AgregarLineaMerged(antes, p, n, pu, i);
          detalles := detalles[i := detalles[i].(cantidad := nueva, subtotal := CalculateSubtotal(pu, nueva))];
          assert AgregarLinea(antes, p, n, pu) == (Merged, detalles);
          ActualizarTotal();
          return Merged;
        }
        i := i + 1;
      }
      AgregarLineaAdded(antes, p, n, pu);
      detalles := detalles + [CartLine(p.id, p.nombre, n, pu, CalculateSubtotal(pu, n))];
      assert AgregarLinea(antes, p, n, pu) == (Added, detalles);
      ActualizarTotal();
      o := Added;
    }

    /** `agregar_producto`: the cart and the answer are those of `Agregar`;
        the total follows the cart; after a new line the product, quantity,
        price and subtotal fields are reset. */
    method AgregarProducto() returns (o: AddOutcome)
      requires Valid()
      modifies this`detalles, this`total, this`producto, this`cantidad, this`precio, this`subtotal
      ensures Valid()
      ensures (o, detalles) == Agregar(old(detalles), productosData, old(producto), old(cantidad), old(precio))
      ensures o == Added ==> producto == "" && cantidad == "1" && precio == "0.00" && subtotal == "0.00"
      ensures o != Added ==> producto == old(producto) && cantidad == old(cantidad) && precio == old(precio) &&
                             subtotal == old(subtotal)
    {
      var r := LeerEntrada();
      if r.Failure? {
        return r.error;
      }
      o := Aplicar(producto, r.value.1, r.value.2);
    }

    /** The cart and the total after a checked product, quantity and price;
        the cart stays well formed. */
    method AgregarComprobado(key: string, n: int, pu: real) returns (o: AddOutcome)
      requires Valid() && key in productosData && 1 <= n <= productosData[key].stock
      modifies this`detalles, this`total
      ensures Valid()
      ensures (o, detalles) == AgregarLinea(old(detalles), productosData[key], n, pu)
    {
      ghost var r := AgregarLinea(detalles, productosData[key], n, pu);
      AgregarLineaKeepsCartOk(detalles, productosData, key, n, pu);
      o := AgregarValidado(productosData[key], n, pu);
      assert o == r.0 && detalles == r.1;
      assert o == NoStock ==> detalles == old(detalles);
    }

    /** The part of `agregar_producto` after the checks: the cart and the
        total change, and a new line resets the entry fields. */
    method Aplicar(key: string, n: int, pu: real) returns (o: AddOutcome)
      requires Valid() && key in productosData && 1 <= n <= productosData[key].stock
      modifies this`detalles, this`total, this`producto, this`cantidad, this`precio, this`subtotal
      ensures Valid()
      ensures (o, detalles) == AgregarLinea(old(detalles), productosData[key], n, pu)
      ensures o == Added ==> producto == "" && cantidad == "1" && precio == "0.00" && subtotal == "0.00"
      ensures o != Added ==> producto == old(producto) && cantidad == old(cantidad) && precio == old(precio) &&
                             subtotal == old(subtotal)
    {
      o := AgregarComprobado(key, n, pu);
      if o == Added {
        LimpiarEntrada();
      }
    }

    /** The checks of `agregar_producto` before the cart is touched, in
        their order: the first that fails is the answer, with the cart as
        it was; when all pass, the product, quantity and price read. */
    method LeerEntrada() returns (r: Result<(ProductoData, int, real), AddOutcome>)
      ensures r.Failure? ==> Rejected(r.error) && Agregar(detalles, productosData, producto, cantidad, precio) == (r.error, detalles)
      ensures r.Success? ==> producto in productosData && r.value.0 == productosData[producto] &&
                             ValidInteger(cantidad, 1) && r.value.1 == ParseInt(cantidad).value &&
                             1 <= r.value.1 <= r.value.0.stock &&
                             Agregar(detalles, productosData, producto, cantidad, precio) == AgregarLinea(detalles, r.value.0, r.value.1, r.value.2)
    {
      if producto == "" {
        return Failure(NoProduct);
      }
      if !ValidInteger(cantidad, 1) {
        return Failure(BadQuantity);
      }
      if producto !in productosData {
        return Failure(UnknownProduct);
      }
      var p := productosData[producto];
      var n := ParseInt(cantidad).value;
      if n > p.stock {
        return Failure(NoStock);
      }
      var pu := ParseDecimal(PriceChars(precio));
      if pu.None? {
        return Failure(BadPrice);
      }
      return Success((p, n, pu.value));
    }

    /** The product, quantity, price and subtotal fields back to their
        initial text, as after a new cart line. */
    method LimpiarEntrada()
      requires Valid()
      modifies this`producto, this`cantidad, this`precio, this`subtotal
      ensures Valid()
      ensures producto == "" && cantidad == "1" && precio == "0.00" && subtotal == "0.00"
    {
      producto := "";
      cantidad := "1";
      precio := "0.00";
      subtotal := "0.00";
    }

    /** `eliminar_producto`: with no line selected, an error and no change
        (false); otherwise every line of the selected product goes. */
    method EliminarProducto(selected: Option<int>) returns (ok: bool)
      requires Valid()
      modifies this`detalles, this`total
      ensures Valid()
      ensures ok <==> selected.Some?
      ensures detalles == if ok then SinProducto(old(detalles), selected.value) else old(detalles)
    {
      if selected.None? {
        return false;
      }
      SinProductoKeepsCartOk(detalles, productosData, selected.value);
      detalles := SinProducto(detalles, selected.value);
      ActualizarTotal();
      ok := true;
    }

    /** `limpiar_venta`: every field back to its initial text, empty cart. */
    method LimpiarVenta()
      requires ConsistentCatalog(productosData)
      modifies this`cliente, this`empleado, this`producto, this`cantidad, this`precio, this`subtotal, this`total, this`detalles
      ensures Valid()
      ensures detalles == [] && total == "0.00" && cantidad == "1" && precio == "0.00" && subtotal == "0.00"
      ensures cliente == "" && empleado == "" && producto == ""
    {
      cliente := "";
      empleado := "";
      producto := "";
      cantidad := "1";
      precio := "0.00";
      subtotal := "0.00";
      total := "0.00";
      detalles := [];
      FixedTextZero();
    }

    /** `registrar_venta`: the pre-checks, then `crear_venta` with the cart;
        a registered sale clears the form. The store changes only when the
        pre-checks pass, and then as `CrearVenta` says, including what was
        written before a failing call. */
    method RegistrarVenta(ventas: Table<Venta>, detallesT: Table<DetalleVenta>, productos: Table<Producto>,
                          today: string, fail: FailurePoint)
      returns (o: RegistroOutcome)
      requires Valid() && ventas.Valid() && detallesT.Valid() && productos.Valid()
      modifies this`cliente, this`empleado, this`producto, this`cantidad, this`precio, this`subtotal, this`total, this`detalles
      modifies ventas, detallesT, productos
      ensures Valid() && ventas.Valid() && detallesT.Valid() && productos.Valid()
      ensures var pre := PreCheck(old(cliente), old(empleado), old(detalles), clientesData, empleadosData);
        pre.Some? ==> o == pre.value && detalles == old(detalles) &&
                      ventas.rows == old(ventas.rows) && detallesT.rows == old(detallesT.rows) &&
                      productos.rows == old(productos.rows)
      ensures var pre := PreCheck(old(cliente), old(empleado), old(detalles), clientesData, empleadosData);
        pre.None? ==>
          (o.Registered? <==> Completes(fail, |old(detalles)|)) &&
          (o.Registered? ==> o.id == old(ventas.nextId) && detalles == [] && total == "0.00") &&
          (!o.Registered? ==> o == NotRegistered && detalles == old(detalles)) &&
          ventas.rows == (if fail == SaleInsert then old(ventas.rows)
                          else old(ventas.rows)[old(ventas.nextId) := Venta(today, SubtotalSum(old(detalles)),
                                                                            clientesData[old(cliente)], empleadosData[old(empleado)])]) &&
          detallesT.rows == old(detallesT.rows) +
            DetailRows(old(detalles)[..DetailsInserted(fail, |old(detalles)|)], old(ventas.nextId), old(detallesT.nextId)) &&
          productos.rows == StockAfter(old(productos.rows), old(detalles)[..StockUpdated(fail, |old(detalles)|)])
      ensures var pre := PreCheck(old(cliente), old(empleado), old(detalles), clientesData, empleadosData);
        ventas.nextId == (if pre.None? && fail != SaleInsert then old(ventas.nextId) + 1 else old(ventas.nextId)) &&
        detallesT.nextId == old(detallesT.nextId) + (if pre.None? then DetailsInserted(fail, |old(detalles)|) else 0) &&
        productos.nextId == old(productos.nextId)
      ensures o.Registered? ==>
        cliente == "" && empleado == "" && producto == "" && cantidad == "1" && precio == "0.00" && subtotal == "0.00"
      ensures !o.Registered? ==>
        cliente == old(cliente) && empleado == old(empleado) && producto == old(producto) &&
        cantidad == old(cantidad) && precio == old(precio) && subtotal == old(subtotal) && total == old(total)
    {
      var pre := PreCheck(cliente, empleado, detalles, clientesData, empleadosData);
      if pre.Some? {
        return pre.value;
      }
      var idCliente := clientesData[cliente];
      var idEmpleado := empleadosData[empleado];
      var r := CrearVenta(ventas, detallesT, productos, idCliente, idEmpleado, detalles, today, fail);
      if r.Some? {
        LimpiarVenta();
        return Registered(r.value);
      }
      o := NotRegistered;
    }
  }
}

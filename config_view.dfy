/** The settings form of views/config_view.py and the part of
    config/config_manager.py it reads from and writes to.

    The form's StringVars are string fields of a class.  The settings
    file is the map configparser keeps from (section, key) to text; every
    `set` also rewrites the file on disk, which is not modelled. */
module ConfigView {
  import opened Wrappers
  import opened Text
  import opened Helpers

  // ---------------------------------------------------------------------
  // The checks of `save_config`
  // ---------------------------------------------------------------------

  /** The check of `save_config` that stopped the save. */
  datatype ErrorAjuste = SinSimbolo | SinNombre | DecimalesInvalidos | AlertaInvalida

  /** What a save that passes its checks stores. */
  datatype Ajustes = Ajustes(moneda: CurrencySettings, tema: string, alerta: int, codificacion: string)

  /** int() accepts the decimal places and they lie in [0, 3]. */
  predicate DecimalesValidos(t: string) {
    ParseInt(t).Some? && 0 <= ParseInt(t).value <= 3
  }

  /** int() accepts the stock alert level and it is not negative. */
  predicate AlertaValida(t: string) {
    ParseInt(t).Some? && ParseInt(t).value >= 0
  }

  /** The checks of `save_config` in their order: symbol, name, decimal
      places, stock alert; the first that fails is the answer, and when
      none fails, the stripped symbol, name and code, the two integers,
      the theme and the encoding are what gets stored. */
  function Validar(simbolo: string, nombre: string, codigo: string, decimales: string, tema: string,
                   alerta: string, codificacion: string): (r: Result<Ajustes, ErrorAjuste>)
    ensures r.Success? <==>
      Strip(simbolo) != "" && Strip(nombre) != "" && DecimalesValidos(decimales) && AlertaValida(alerta)
    ensures r == Failure(SinSimbolo) <==> Strip(simbolo) == ""
    ensures r == Failure(SinNombre) <==> Strip(simbolo) != "" && Strip(nombre) == ""
    ensures r == Failure(DecimalesInvalidos) <==>
      Strip(simbolo) != "" && Strip(nombre) != "" && !DecimalesValidos(decimales)
    ensures r.Success? ==>
      r.value.moneda.symbol != "" && r.value.moneda.name != "" &&
      0 <= r.value.moneda.decimalPlaces <= 3 && r.value.alerta >= 0 &&
      ParseInt(decimales) == Some(r.value.moneda.decimalPlaces) && ParseInt(alerta) == Some(r.value.alerta)
  {
    if Strip(simbolo) == "" then Failure(SinSimbolo)
    else if Strip(nombre) == "" then Failure(SinNombre)
    else if !DecimalesValidos(decimales) then Failure(DecimalesInvalidos)
    else if !AlertaValida(alerta) then Failure(AlertaInvalida)
    else Success(Ajustes(CurrencySettings(Strip(simbolo), Strip(nombre), Strip(codigo), ParseInt(decimales).value),
                         tema, ParseInt(alerta).value, codificacion))
  }

  /** What gets stored passes the checks again unchanged when shown back
      in the form (the integers as str() writes them): saving what was
      loaded stores the same values. */
  lemma ValidarIdempotente(simbolo: string, nombre: string, codigo: string, decimales: string, tema: string,
                           alerta: string, codificacion: string, a: Ajustes)
    requires Validar(simbolo, nombre, codigo, decimales, tema, alerta, codificacion) == Success(a)
    ensures Validar(a.moneda.symbol, a.moneda.name, a.moneda.code, IntToString(a.moneda.decimalPlaces), a.tema,
                    IntToString(a.alerta), a.codificacion) == Success(a)
  {
    StripIdempotent(simbolo);
    StripIdempotent(nombre);
    StripIdempotent(codigo);
    ParseIntOfString(a.moneda.decimalPlaces);
    ParseIntOfString(a.alerta);
  }

  // ---------------------------------------------------------------------
  // The settings file
  // ---------------------------------------------------------------------

  /** The settings as configparser holds them. */
  class Configuracion {
    var valores: map<(string, string), string>

    constructor(valores: map<(string, string), string>)
      ensures this.valores == valores
    {
      this.valores := valores;
    }

    /** `set(section, key, value)`: adds the section when missing and sets
        the key. */
    method Set(seccion: string, clave: string, valor: string)
      modifies this
      ensures valores == old(valores)[(seccion, clave) := valor]
    {
      valores := valores[(seccion, clave) := valor];
    }
  }

  /** `get(section, key, fallback)`. */
  function Leer(valores: map<(string, string), string>, seccion: string, clave: string, porDefecto: string): string {
    if (seccion, clave) in valores then valores[(seccion, clave)] else porDefecto
  }

  /** `get_currency_config` (the later of its two definitions, which
      wins): None when int() rejects the stored decimal places. */
  function MonedaLeida(valores: map<(string, string), string>): Option<CurrencySettings> {
    match ParseInt(Leer(valores, "Currency", "DecimalPlaces", "2"))
    case None => None
    case Some(d) =>
      Some(CurrencySettings(Leer(valores, "Currency", "Symbol", "S/"), Leer(valores, "Currency", "Name", "Soles"),
                            Leer(valores, "Currency", "Code", "PEN"), d))
  }

  /** `get_stock_alert_level`: None when int() rejects the stored text. */
  function AlertaLeida(valores: map<(string, string), string>): Option<int> {
    ParseInt(Leer(valores, "Stock", "AlertLevel", "10"))
  }

  /** `get_theme`. */
  function TemaLeido(valores: map<(string, string), string>): string {
    Leer(valores, "General", "Theme", "cosmo")
  }

  /** `get_report_encoding`. */
  function CodificacionLeida(valores: map<(string, string), string>): string {
    Leer(valores, "Reports", "Encoding", "utf-8-sig")
  }

  /** The settings after a save's calls to `set_currency_config`,
      `set_theme`, `set_stock_alert_level` and `set`, in that order. */
  function Escrito(valores: map<(string, string), string>, a: Ajustes): map<(string, string), string> {
    valores[("Currency", "Symbol") := a.moneda.symbol]
           [("Currency", "Name") := a.moneda.name]
           [("Currency", "Code") := a.moneda.code]
           [("Currency", "DecimalPlaces") := IntToString(a.moneda.decimalPlaces)]
           [("General", "Theme") := a.tema]
           [("Stock", "AlertLevel") := IntToString(a.alerta)]
           [("Reports", "Encoding") := a.codificacion]
  }

  /** What a save writes is what the getters read back. */
  lemma GuardadoSeLee(valores: map<(string, string), string>, a: Ajustes)
    ensures MonedaLeida(Escrito(valores, a)) == Some(a.moneda)
    ensures AlertaLeida(Escrito(valores, a)) == Some(a.alerta)
    ensures TemaLeido(Escrito(valores, a)) == a.tema
    ensures CodificacionLeida(Escrito(valores, a)) == a.codificacion
  {
    ParseIntOfString(a.moneda.decimalPlaces);
    ParseIntOfString(a.alerta);
  }

  /** The values `reset_to_defaults` puts in the form. */
  const PorDefecto: Ajustes := Ajustes(CurrencySettings("S/", "Soles", "PEN", 2), "cosmo", 10, "utf-8-sig")

  /** The defaults pass the checks and are stored as they are, and they
      are what the getters answer for a settings file without the keys. */
  lemma PorDefectoValido()
    ensures Validar("S/", "Soles", "PEN", "2", "cosmo", "10", "utf-8-sig") == Success(PorDefecto)
    ensures MonedaLeida(map[]) == Some(PorDefecto.moneda) && AlertaLeida(map[]) == Some(PorDefecto.alerta)
    ensures TemaLeido(map[]) == PorDefecto.tema && CodificacionLeida(map[]) == PorDefecto.codificacion
  {
    StripUnchanged("S/");
    StripUnchanged("Soles");
    StripUnchanged("PEN");
    ParseIntOfString(2);
    ParseIntOfString(10);
    assert IntToString(2) == "2";
    assert IntToString(10) == "10";
  }

  // ---------------------------------------------------------------------
  // The form
  // ---------------------------------------------------------------------

  class ConfigForm {
    var simbolo: string
    var nombre: string
    var codigo: string
    var decimales: string
    var tema: string
    var alerta: string
    var codificacion: string

    /** The form's StringVars before anything is loaded. */
    constructor()
      ensures simbolo == "" && nombre == "" && codigo == "" && decimales == ""
      ensures tema == "" && alerta == "" && codificacion == ""
    {
      simbolo, nombre, codigo, decimales := "", "", "", "";
      tema, alerta, codificacion := "", "", "";
    }

    /** `set_currency`: a currency put in the form, the decimal places as
        str() writes them. */
    method FijarMoneda(s: string, n: string, c: string, d: int)
      modifies this`simbolo, this`nombre, this`codigo, this`decimales
      ensures simbolo == s && nombre == n && codigo == c && decimales == IntToString(d)
    {
      simbolo, nombre, codigo := s, n, c;
      decimales := IntToString(d);
    }

    /** `reset_to_defaults`: S/, Soles, PEN, 2, cosmo, 10 and utf-8-sig in
        the form; nothing is saved. */
    method Restablecer()
      modifies this
      ensures simbolo == "S/" && nombre == "Soles" && codigo == "PEN" && decimales == "2"
      ensures tema == "cosmo" && alerta == "10" && codificacion == "utf-8-sig"
    {
      FijarMoneda("S/", "Soles", "PEN", 2);
      tema := "cosmo";
      alerta := "10";
      codificacion := "utf-8-sig";
    }

    /** `load_current_config`: the stored values in the form.  When int()
        rejects the stored decimal places nothing is set; when it rejects
        the stock alert level, everything before it is set. */
    method CargarActual(conf: Configuracion) returns (ok: bool)
      modifies this
      ensures ok <==> MonedaLeida(conf.valores).Some? && AlertaLeida(conf.valores).Some?
      ensures MonedaLeida(conf.valores).Some? ==>
        var m := MonedaLeida(conf.valores).value;
        simbolo == m.symbol && nombre == m.name && codigo == m.code &&
        decimales == IntToString(m.decimalPlaces) && tema == TemaLeido(conf.valores)
      ensures ok ==>
        alerta == IntToString(AlertaLeida(conf.valores).value) && codificacion == CodificacionLeida(conf.valores)
      ensures MonedaLeida(conf.valores).None? ==>
        simbolo == old(simbolo) && nombre == old(nombre) && codigo == old(codigo) &&
        decimales == old(decimales) && tema == old(tema)
      ensures !ok ==> alerta == old(alerta) && codificacion == old(codificacion)
    {
      var m := MonedaLeida(conf.valores);
      if m.None? {
        return false;
      }
      FijarMoneda(m.value.symbol, m.value.name, m.value.code, m.value.decimalPlaces);
      tema := TemaLeido(conf.valores);
      var a := AlertaLeida(conf.valores);
      if a.None? {
        return false;
      }
      alerta := IntToString(a.value);
      codificacion := CodificacionLeida(conf.valores);
      ok := true;
    }

    /** `save_config`: the checks in order, stopping at the first that
        fails with nothing stored; otherwise the stripped symbol, name and
        code, the decimal places, the theme, the alert level and the
        encoding are written. */
    method Guardar(conf: Configuracion) returns (r: Result<Ajustes, ErrorAjuste>)
      modifies conf
      ensures r == Validar(simbolo, nombre, codigo, decimales, tema, alerta, codificacion)
      ensures r.Failure? ==> conf.valores == old(conf.valores)
      ensures r.Success? ==> conf.valores == Escrito(old(conf.valores), r.value)
    {
      if Strip(simbolo) == "" {
        return Failure(SinSimbolo);
      }
      if Strip(nombre) == "" {
        return Failure(SinNombre);
      }
      var d := ParseInt(decimales);
      if d.None? || d.value < 0 || d.value > 3 {
        return Failure(DecimalesInvalidos);
      }
      var s := ParseInt(alerta);
      if s.None? || s.value < 0 {
        return Failure(AlertaInvalida);
      }
      conf.Set("Currency", "Symbol", Strip(simbolo));
      conf.Set("Currency", "Name", Strip(nombre));
      conf.Set("Currency", "Code", Strip(codigo));
      conf.Set("Currency", "DecimalPlaces", IntToString(d.value));
      conf.Set("General", "Theme", tema);
      conf.Set("Stock", "AlertLevel", IntToString(s.value));
      conf.Set("Reports", "Encoding", codificacion);
      r := Success(Ajustes(CurrencySettings(Strip(simbolo), Strip(nombre), Strip(codigo), d.value),
                           tema, s.value, codificacion));
    }
  }
}

/**
 * The input guards of the page's handlers: the validation of the loan form
 * on submit, and the checks and arithmetic of the four currency converters
 * (pesos to dollars, dollars to pesos, pesos to euros, euros to pesos).
 * A parsed number is an `Option<real>` whose `None` stands for NaN.
 */
module Guards {
  import opened Wrappers
  import Loan

  /** The characters `String.prototype.trim` removes: white space and line terminators. */
  predicate IsJsWhitespace(c: char) {
    || c == '\t' || c == '\U{000B}' || c == '\U{000C}' || c == ' ' || c == '\U{00A0}' || c == '\U{FEFF}'
    || c == '\n' || c == '\r' || c == '\U{2028}' || c == '\U{2029}'
    || c == '\U{1680}' || ('\U{2000}' <= c <= '\U{200A}') || c == '\U{202F}' || c == '\U{205F}' || c == '\U{3000}'
  }

  /** Drops leading white space: a suffix of `s` that starts with a non-blank, or is empty. */
  function TrimStart(s: string): (r: string)
    ensures |r| <= |s| && r == s[|s| - |r|..]
    ensures r == [] || !IsJsWhitespace(r[0])
    ensures forall i :: 0 <= i < |s| - |r| ==> IsJsWhitespace(s[i])
    decreases |s|
  {
    if |s| > 0 && IsJsWhitespace(s[0]) then TrimStart(s[1..]) else s
  }

  /** Drops trailing white space: a prefix of `s` that ends with a non-blank, or is empty. */
  function TrimEnd(s: string): (r: string)
    ensures |r| <= |s| && r == s[..|r|]
    ensures r == [] || !IsJsWhitespace(r[|r| - 1])
    ensures forall i :: |r| <= i < |s| ==> IsJsWhitespace(s[i])
    decreases |s|
  {
    if |s| > 0 && IsJsWhitespace(s[|s| - 1]) then TrimEnd(s[..|s| - 1]) else s
  }

  /**
   * `trim()`: a contiguous piece of `s`, with only white space cut on either side,
   * that neither starts nor ends with white space.
   */
  function Trim(s: string): (r: string)
    ensures r == [] || (!IsJsWhitespace(r[0]) && !IsJsWhitespace(r[|r| - 1]))
    ensures var k := |s| - |TrimStart(s)|;
      && k + |r| <= |s| && s[k..k + |r|] == r
      && (forall i :: 0 <= i < k ==> IsJsWhitespace(s[i]))
      && (forall i :: k + |r| <= i < |s| ==> IsJsWhitespace(s[i]))
  {
    TrimBothEnds(s);
    TrimEnd(TrimStart(s))
  }

  /** Trimming the end after the start cuts only white space, at both ends of one slice. */
  lemma {:induction false} TrimBothEnds(s: string)
    ensures var t := TrimStart(s); var r := TrimEnd(t); var k := |s| - |t|;
      && k + |r| <= |s| && s[k..k + |r|] == r
      && (forall i :: k + |r| <= i < |s| ==> IsJsWhitespace(s[i]))
  {
    var t := TrimStart(s);
    var k := |s| - |t|;
    var r := TrimEnd(t);
    assert t == s[k..];
    assert r == t[..|r|];
    PrefixOfSuffix(s, k, |r|);
    forall i | k + |r| <= i < |s|
      ensures IsJsWhitespace(s[i])
    {
      assert s[i] == t[i - k];
    }
  }

  /** A prefix of a suffix is a slice. */
  lemma PrefixOfSuffix(s: string, k: nat, m: nat)
    requires k + m <= |s|
    ensures s[k..][..m] == s[k..k + m]
  {
  }

  /** A field trims to nothing exactly when every character in it is white space. */
  lemma {:induction false} TrimEmptyIffBlank(s: string)
    ensures Trim(s) == [] <==> forall i :: 0 <= i < |s| ==> IsJsWhitespace(s[i])
  {
    var t := TrimStart(s);
    if forall i :: 0 <= i < |s| ==> IsJsWhitespace(s[i]) {
      assert t == [];
    }
    if Trim(s) == [] {
      assert t == [];
    }
  }

  /** Trimming twice changes nothing more than trimming once. */
  lemma {:induction false} TrimIdempotent(s: string)
    ensures Trim(Trim(s)) == Trim(s)
  {
    var r := Trim(s);
    if r != [] {
      assert TrimStart(r) == r;
      assert TrimEnd(r) == r;
    }
  }

  /** `form.nombre.value.trim() || 'Anonimo'`: the trimmed name, or the placeholder when blank. */
  function NombreOAnonimo(campo: string): (r: string)
    ensures r != []
    ensures Trim(campo) == [] ==> r == "Anonimo"
    ensures Trim(campo) != [] ==> r == Trim(campo)
  {
    var t := Trim(campo);
    if t == [] then "Anonimo" else t
  }

  /** A name field holding only white space becomes the placeholder. */
  lemma BlankNameIsAnonimo(campo: string)
    requires forall i :: 0 <= i < |campo| ==> IsJsWhitespace(campo[i])
    ensures NombreOAnonimo(campo) == "Anonimo"
  {
    TrimEmptyIffBlank(campo);
  }

  /** The installment counts the submit handler accepts. */
  const CuotasPermitidas: seq<real> := [3.0, 6.0, 12.0, 24.0]

  /** A form submission that passed validation. */
  datatype Envio = Envio(nombre: string, monto: real, cuotas: real)

  /**
   * The submit guard: the name defaults to the placeholder; the amount must be a
   * number greater than zero; the count must be one of the accepted ones.
   */
  function ValidarEnvio(campoNombre: string, monto: Option<real>, cuotas: Option<real>): (r: Option<Envio>)
    ensures r.Some? <==> monto.Some? && monto.value > 0.0 && cuotas.Some? && cuotas.value in CuotasPermitidas
    ensures r.Some? ==> r.value.nombre == NombreOAnonimo(campoNombre) && r.value.nombre != []
    ensures r.Some? ==> r.value.monto == monto.value && r.value.cuotas == cuotas.value
  {
    var nombre := NombreOAnonimo(campoNombre);
    if nombre == [] || monto.None? || monto.value <= 0.0 || cuotas.None? || cuotas.value !in CuotasPermitidas then
      None
    else
      Some(Envio(nombre, monto.value, cuotas.value))
  }

  /** The guard's list of counts is exactly the set of keys of the rate table. */
  lemma CuotasPermitidasAreTableKeys(c: real)
    ensures c in CuotasPermitidas <==> c in Loan.TasasInteres
  {
  }

  /** Once the guard passes, the calculator cannot throw, and it prices a positive amount. */
  lemma {:induction false} ValidatedSubmissionIsPriced(campoNombre: string, monto: Option<real>, cuotas: Option<real>)
    requires ValidarEnvio(campoNombre, monto, cuotas).Some?
    ensures var e := ValidarEnvio(campoNombre, monto, cuotas).value;
      Loan.CalcularPrestamo(e.monto, e.cuotas).Success? && e.monto > 0.0
  {
    var e := ValidarEnvio(campoNombre, monto, cuotas).value;
    CuotasPermitidasAreTableKeys(e.cuotas);
  }

  /** Which way a converter goes: from pesos into the foreign currency, or back. */
  datatype Sentido = DesdePesos | APesos

  /** The two messages a converter shows instead of a result. */
  datatype ConversionError = EsperandoCotizaciones | MontoInvalido

  /** `!cotizacion` is false: the quote is present, a number and not zero. */
  predicate HayCotizacion(cotizacion: Option<real>) {
    cotizacion.Some? && cotizacion.value != 0.0
  }

  /**
   * The converter handlers (the same for dollars and euros): a missing or zero
   * quote is reported first, then an amount that is NaN or not positive;
   * otherwise pesos are divided by the quote, foreign amounts multiplied by it.
   */
  function Convertir(sentido: Sentido, monto: Option<real>, cotizacion: Option<real>): (r: Result<real, ConversionError>)
    ensures !HayCotizacion(cotizacion) ==> r == Failure(EsperandoCotizaciones)
    ensures HayCotizacion(cotizacion) && !(monto.Some? && monto.value > 0.0) ==> r == Failure(MontoInvalido)
    ensures r.Success? <==> HayCotizacion(cotizacion) && monto.Some? && monto.value > 0.0
    ensures r.Success? && sentido == DesdePesos ==> r.value * cotizacion.value == monto.value
    ensures r.Success? && sentido == APesos ==> r.value / cotizacion.value == monto.value
  {
    if !HayCotizacion(cotizacion) then Failure(EsperandoCotizaciones)
    else if monto.None? || monto.value <= 0.0 then Failure(MontoInvalido)
    else if sentido == DesdePesos then Success(monto.value / cotizacion.value)
    else Success(monto.value * cotizacion.value)
  }

  /** With a positive quote, converting pesos out and the result back gives the pesos again. */
  lemma {:induction false} ConvertirRoundTrip(pesos: real, cotizacion: real)
    requires pesos > 0.0 && cotizacion > 0.0
    ensures var ida := Convertir(DesdePesos, Some(pesos), Some(cotizacion));
      && ida.Success? && ida.value > 0.0
      && Convertir(APesos, Some(ida.value), Some(cotizacion)) == Success(pesos)
  {
    var ida := Convertir(DesdePesos, Some(pesos), Some(cotizacion));
    assert ida.value * cotizacion == pesos;
    assert ida.value > 0.0 by {
      assert pesos / cotizacion > 0.0;
    }
  }

  /** 1000 pesos at a quote of 1000 are 1 unit of foreign currency, and 1 unit is 1000 pesos. */
  lemma ConvertirExamples()
    ensures Convertir(DesdePesos, Some(1000.0), Some(1000.0)) == Success(1.0)
    ensures Convertir(APesos, Some(1.0), Some(1000.0)) == Success(1000.0)
  {
  }

  /** The market tier picked in a converter's select box. */
  datatype Tipo = Oficial | Blue

  /** The quotes of one currency, one per tier (`cotizaciones` and `cotizacionesEuro`). */
  class Cotizaciones {
    var oficial: Option<real>
    var blue: Option<real>

    /** Both tiers start at zero, which the converters read as "no quote yet". */
    constructor()
      ensures oficial == Some(0.0) && blue == Some(0.0)
    {
      oficial, blue := Some(0.0), Some(0.0);
    }

    /** The quote of a tier (`cotizaciones[tipo]`). */
    function Cotizacion(tipo: Tipo): (q: Option<real>)
      reads this
      ensures tipo == Oficial ==> q == oficial
      ensures tipo == Blue ==> q == blue
    {
      match tipo
      case Oficial => oficial
      case Blue => blue
    }

    /** A successful fetch stores each tier's selling price in its own slot. */
    method Actualizar(oficialVenta: Option<real>, blueVenta: Option<real>)
      modifies this
      ensures oficial == oficialVenta && blue == blueVenta
    {
      oficial := oficialVenta;
      blue := blueVenta;
    }

    /** A converter click: reads the selected tier's quote and converts with it. */
    method ConvertirCon(tipo: Tipo, sentido: Sentido, monto: Option<real>) returns (r: Result<real, ConversionError>)
      ensures !HayCotizacion(Cotizacion(tipo)) ==> r == Failure(EsperandoCotizaciones)
      ensures HayCotizacion(Cotizacion(tipo)) && !(monto.Some? && monto.value > 0.0) ==> r == Failure(MontoInvalido)
      ensures r.Success? <==> monto.Some? && monto.value > 0.0 && HayCotizacion(Cotizacion(tipo))
      ensures r.Success? && sentido == DesdePesos ==> r.value * Cotizacion(tipo).value == monto.value
      ensures r.Success? && sentido == APesos ==> r.value / Cotizacion(tipo).value == monto.value
    {
      var cotizacion := Cotizacion(tipo);
      r := Convertir(sentido, monto, cotizacion);
    }
  }

  /** Until a fetch succeeds, every conversion waits for quotes. */
  method ConvertirAntesDeCotizar(tipo: Tipo, sentido: Sentido, monto: Option<real>) returns (r: Result<real, ConversionError>)
    ensures r == Failure(EsperandoCotizaciones)
  {
    var quotes := new Cotizaciones();
    r := quotes.ConvertirCon(tipo, sentido, monto);
  }
}

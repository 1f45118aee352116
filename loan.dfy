/**
 * The loan calculator: a fixed table of interest multipliers keyed by
 * installment count, and `CalcularPrestamo`, which prices a loan from it.
 * Numbers are exact reals; `Round2` is `Number(x.toFixed(2))` on exact values
 * (nearest cent, ties away from zero).
 */
module Loan {
  import opened Wrappers

  /** The multiplier applied to the principal, per installment count. */
  const TasasInteres: map<real, real> := map[3.0 := 1.10, 6.0 := 1.25, 12.0 := 1.50, 24.0 := 2.00]

  /** What `calcularPrestamo` returns on success. */
  datatype Prestamo = Prestamo(montoFinal: real, valorCuota: real, tasa: real)

  /** The error thrown for an installment count that is not in the table. */
  datatype PrestamoError = CuotasInvalidas

  /**
   * The whole number of cents nearest to `x`, halves away from zero: what
   * `toFixed(2)` keeps of an exact value, counted in cents.
   */
  function Cents(x: real): (n: int)
    ensures x >= 0.0 ==> n >= 0 && x * 100.0 - 0.5 < n as real <= x * 100.0 + 0.5
    ensures x < 0.0 ==> n <= 0 && x * 100.0 - 0.5 <= n as real < x * 100.0 + 0.5
  {
    if x >= 0.0 then (x * 100.0 + 0.5).Floor else -((-x) * 100.0 + 0.5).Floor
  }

  /** Rounds to two decimals: to the nearest cent, halves away from zero. */
  function Round2(x: real): (r: real)
    ensures x >= 0.0 ==> 0.0 <= r && x - 0.005 < r <= x + 0.005
    ensures x < 0.0 ==> r <= 0.0 && x - 0.005 <= r < x + 0.005
  {
    Cents(x) as real / 100.0
  }

  /** For a non-negative amount, `n` cents is the rounded value exactly when it lies in (x - 0.005, x + 0.005]. */
  lemma {:induction false} Round2Unique(x: real, n: int)
    requires x >= 0.0
    ensures Round2(x) == n as real / 100.0 <==> x - 0.005 < n as real / 100.0 <= x + 0.005
  {
    var m := Cents(x);
    assert Round2(x) == m as real / 100.0;
    if x - 0.005 < n as real / 100.0 <= x + 0.005 {
      assert x * 100.0 - 0.5 < n as real <= x * 100.0 + 0.5;
      assert m == n;
    }
  }

  /** Rounding leaves an amount that is already a whole number of cents unchanged. */
  lemma Round2OfCents(n: nat)
    ensures Round2(n as real / 100.0) == n as real / 100.0
  {
    Round2Unique(n as real / 100.0, n);
  }

  /** Rounding never reverses the order of two non-negative amounts. */
  lemma {:induction false} Round2Monotonic(x: real, y: real)
    requires 0.0 <= x <= y
    ensures Round2(x) <= Round2(y)
  {
    assert x * 100.0 + 0.5 <= y * 100.0 + 0.5;
    assert Cents(x) <= Cents(y);
  }

  /** Rounding an amount no smaller than a non-negative `x` never lands half a cent or more below `x`. */
  lemma {:induction false} RoundedScaleCovers(x: real, f: real)
    requires x >= 0.0 && f >= 1.0
    ensures Round2(x) <= Round2(x * f) && x - 0.005 < Round2(x * f)
  {
    ScaleUp(x, f);
    Round2Monotonic(x, x * f);
  }

  /**
   * `calcularPrestamo(monto, cuotas)`: looks the multiplier up, throws when the
   * count is not a key of the table, and otherwise rounds the total and the
   * installment value separately, both from the unrounded product.
   */
  function CalcularPrestamo(monto: real, cuotas: real): (r: Result<Prestamo, PrestamoError>)
    ensures r.Failure? <==> cuotas !in TasasInteres
    ensures r.Failure? ==> r.error == CuotasInvalidas
    ensures r.Success? ==>
      && r.value.tasa == TasasInteres[cuotas]
      && r.value.montoFinal == Round2(monto * r.value.tasa)
      && r.value.valorCuota == Round2(monto * r.value.tasa / cuotas)
  {
    if cuotas !in TasasInteres || TasasInteres[cuotas] == 0.0 then Failure(CuotasInvalidas)
    else
      var tasa := TasasInteres[cuotas];
      var montoFinal := monto * tasa;
      var valorCuota := montoFinal / cuotas;
      Success(Prestamo(Round2(montoFinal), Round2(valorCuota), tasa))
  }

  /** Every multiplier in the table is at least 1, so the unrounded product is never below the principal. */
  lemma {:induction false} TasaAtLeastOne(cuotas: real)
    requires cuotas in TasasInteres
    ensures 1.0 <= TasasInteres[cuotas] <= 2.0
  {
    assert cuotas == 3.0 || cuotas == 6.0 || cuotas == 12.0 || cuotas == 24.0;
  }

  /** Scaling a non-negative amount by a factor of at least one does not shrink it. */
  lemma {:induction false} ScaleUp(x: real, f: real)
    requires x >= 0.0 && f >= 1.0
    ensures x <= x * f
  {
    assert x * f - x == x * (f - 1.0);
    assert x * (f - 1.0) >= 0.0;
  }

  /** The priced total is never below the principal rounded to cents, nor half a cent below the principal. */
  lemma {:induction false} MontoFinalCoversPrincipal(monto: real, cuotas: real)
    requires monto >= 0.0
    requires CalcularPrestamo(monto, cuotas).Success?
    ensures Round2(monto) <= CalcularPrestamo(monto, cuotas).value.montoFinal
    ensures monto - 0.005 < CalcularPrestamo(monto, cuotas).value.montoFinal
  {
    if cuotas == 3.0 { RoundedScaleCovers(monto, 1.10); }
    else if cuotas == 6.0 { RoundedScaleCovers(monto, 1.25); }
    else if cuotas == 12.0 { RoundedScaleCovers(monto, 1.50); }
    else { RoundedScaleCovers(monto, 2.00); }
  }

  /** Two amounts each known to within half a cent: the `c`-fold part against the whole. */
  lemma {:induction false} GapBound(total: real, c: real, v: real, t: real)
    requires c > 0.0
    requires total / c - 0.005 < v <= total / c + 0.005
    requires total - 0.005 < t <= total + 0.005
    ensures -0.005 * (c + 1.0) <= v * c - t <= 0.005 * (c + 1.0)
  {
    var q := total / c;
    assert q * c == total;
    var below, above := v - (q - 0.005), (q + 0.005) - v;
    assert below * c > 0.0;
    assert below * c == v * c - total + 0.005 * c;
    assert above * c >= 0.0;
    assert above * c == total + 0.005 * c - v * c;
  }

  /** Rounding a total and its `c`-th part separately keeps them within `(c + 1)` half cents. */
  lemma {:induction false} SeparateRoundingGap(total: real, c: real)
    requires total >= 0.0 && c > 0.0
    ensures -0.005 * (c + 1.0) <= Round2(total / c) * c - Round2(total) <= 0.005 * (c + 1.0)
  {
    assert total / c >= 0.0;
    GapBound(total, c, Round2(total / c), Round2(total));
  }

  /**
   * Because each figure is rounded on its own, the installments multiplied back
   * differ from the rounded total by at most half a cent per installment plus half a cent.
   */
  lemma {:induction false} InstallmentsNearTotal(monto: real, cuotas: real)
    requires monto >= 0.0
    requires CalcularPrestamo(monto, cuotas).Success?
    ensures var p := CalcularPrestamo(monto, cuotas).value;
      -0.005 * (cuotas + 1.0) <= p.valorCuota * cuotas - p.montoFinal <= 0.005 * (cuotas + 1.0)
  {
    var tasa := TasasInteres[cuotas];
    assert monto * tasa >= 0.0 by {
      if cuotas == 3.0 { assert tasa == 1.10; }
      else if cuotas == 6.0 { assert tasa == 1.25; }
      else if cuotas == 12.0 { assert tasa == 1.50; }
      else { assert tasa == 2.00; }
    }
    SeparateRoundingGap(monto * tasa, cuotas);
  }

  /** The program's own self-test: 1000 in 3 installments costs 1100, paid as 366.67 each. */
  lemma CalcularPrestamoSelfTest()
    ensures CalcularPrestamo(1000.0, 3.0) == Success(Prestamo(1100.0, 366.67, 1.10))
  {
    Round2Unique(1100.0, 110000);
    Round2Unique(1100.0 / 3.0, 36667);
  }

  /**
   * The installment value comes from the unrounded product, not from the rounded
   * total: 48.02 in 6 installments costs 60.03 in all, yet each installment is
   * 10.00, whereas dividing the rounded total would give 10.01.
   */
  lemma InstallmentFromUnroundedProduct()
    ensures CalcularPrestamo(48.02, 6.0) == Success(Prestamo(60.03, 10.00, 1.25))
    ensures Round2(60.03 / 6.0) == 10.01
  {
    Round2Unique(60.025, 6003);
    Round2Unique(60.025 / 6.0, 1000);
    Round2Unique(60.03 / 6.0, 1001);
  }
}

/** The real-daily-limit engine of calculator.js: validation, days to the card's
    closing date, the real limit after committed spending, the per-day allowance,
    what is left for today, and the ok / warning / danger status. Every function
    here is pure; the clock reading `new Date()` is the parameter `hoy`. */
module Calculator {
  import opened JsValues
  import opened Calendar

  /** One expense of `gastosHoy`. `fecha` is the ISO rendering of the same clock
      reading as `timestamp` and is not kept. */
  datatype Gasto = Gasto(monto: Option<real>, timestamp: int)

  /** The user record (`userData`); every field may be absent from the JSON. */
  datatype Perfil = Perfil(
    limiteTotal: Option<real>,
    gastosMes: Option<real>,
    cuotasActivas: Option<real>,
    diaCierre: Option<int>,
    gastosHoy: Option<seq<Gasto>>)

  datatype Estado = Ok | Warning | Danger

  /** The object `calcularLimiteReal` returns. */
  datatype Resultado = Resultado(
    limiteReal: Num,
    diasRestantes: int,
    disponiblePorDia: Num,
    disponibleHoy: Num,
    totalGastosHoy: real,
    estado: Estado)

  /** `{ valid: true }` or `{ valid: false, error }`. */
  datatype Validacion = Valido | Invalido(error: string)

  /** A returned result, or the `Error` that `calcularLimiteReal` throws. */
  datatype Calculo = Calculado(resultado: Resultado) | Lanzado(mensaje: string)

  const ERROR_LIMITE := "El límite total debe ser mayor a 0"
  const ERROR_GASTOS := "Los gastos del mes no pueden ser negativos"
  const ERROR_CUOTAS := "Las cuotas activas no pueden ser negativas"
  const ERROR_DIA := "El día de cierre debe estar entre 1 y 31"

  /** `!limiteTotal || limiteTotal <= 0` */
  predicate LimiteInvalido(p: Perfil) {
    p.limiteTotal.None? || p.limiteTotal.value <= 0.0
  }

  /** `x < 0`, which is false for an absent field. */
  predicate Negativo(x: Option<real>) {
    x.Some? && x.value < 0.0
  }

  /** `!diaCierre || diaCierre < 1 || diaCierre > 31` */
  predicate DiaInvalido(p: Perfil) {
    p.diaCierre.None? || p.diaCierre.value < 1 || p.diaCierre.value > 31
  }

  /** `validarDatos`: the first failing check, in the order total limit, month
      spend, installments, closing day. */
  function ValidarDatos(p: Perfil): (v: Validacion)
    ensures v.Valido? <==>
      !LimiteInvalido(p) && !Negativo(p.gastosMes) && !Negativo(p.cuotasActivas) && !DiaInvalido(p)
    ensures LimiteInvalido(p) ==> v == Invalido(ERROR_LIMITE)
    ensures v == Invalido(ERROR_GASTOS) <==> !LimiteInvalido(p) && Negativo(p.gastosMes)
    ensures v == Invalido(ERROR_CUOTAS) <==>
      !LimiteInvalido(p) && !Negativo(p.gastosMes) && Negativo(p.cuotasActivas)
    ensures v == Invalido(ERROR_DIA) <==>
      !LimiteInvalido(p) && !Negativo(p.gastosMes) && !Negativo(p.cuotasActivas) && DiaInvalido(p)
  {
    assert ERROR_LIMITE[1] != ERROR_GASTOS[1] && ERROR_LIMITE[1] != ERROR_CUOTAS[1];
    assert ERROR_LIMITE[3] != ERROR_DIA[3] && ERROR_GASTOS[1] != ERROR_CUOTAS[1];
    assert ERROR_GASTOS[1] != ERROR_DIA[1] && ERROR_CUOTAS[1] != ERROR_DIA[1];
    if LimiteInvalido(p) then Invalido(ERROR_LIMITE)
    else if Negativo(p.gastosMes) then Invalido(ERROR_GASTOS)
    else if Negativo(p.cuotasActivas) then Invalido(ERROR_CUOTAS)
    else if DiaInvalido(p) then Invalido(ERROR_DIA)
    else Valido
  }

  /** `calcularDiasHastaCierre`: the closing date is `diaCierre` of this month, or
      of the next month once today's day has reached it; the result is the ceiling
      of the millisecond difference in days, floored at 0. It comes out as the
      difference of calendar days, including JavaScript's overflow of a closing day
      the month does not have. */
  function CalcularDiasHastaCierre(diaCierre: int, hoy: Instant): (dias: int)
    requires ValidInstant(hoy)
    ensures dias >= 0
    ensures hoy.day < diaCierre ==> dias == diaCierre - hoy.day
    ensures hoy.day >= diaCierre ==>
      dias == Max0(DaysInMonth(hoy.year, hoy.month) - hoy.day + diaCierre)
  {
    var fechaCierre :=
      if hoy.day >= diaCierre then DayNumber(hoy.year, hoy.month + 1, diaCierre)
      else DayNumber(hoy.year, hoy.month, diaCierre);
    var diferenciaMs := fechaCierre * MS_PER_DAY - TimeValue(hoy);
    DayNumberNextMonth(hoy.year, hoy.month, diaCierre);
    CeilDaysOfDayDifference(fechaCierre - DayNumber(hoy.year, hoy.month, hoy.day), hoy.msOfDay);
    var diasRestantes := CeilDays(diferenciaMs);
    if diasRestantes > 0 then diasRestantes else 0
  }

  function Max0(n: int): int {
    if n > 0 then n else 0
  }

  /** A valid closing day always lies 1 to 31 days ahead, and the closing day
      itself counts as passed: it yields the whole next month, never 0. */
  lemma DiasHastaCierreEnRango(diaCierre: int, hoy: Instant)
    requires ValidInstant(hoy) && 1 <= diaCierre <= 31
    ensures 1 <= CalcularDiasHastaCierre(diaCierre, hoy) <= 31
    ensures hoy.day == diaCierre ==>
      CalcularDiasHastaCierre(diaCierre, hoy) == DaysInMonth(hoy.year, hoy.month)
  {
  }

  /** From one day to the next the count goes down by one, except on the day
      before closing, when it restarts at the length of the new period. This needs
      a closing day the current month has. */
  lemma DiasHastaCierreAvanza(diaCierre: int, hoy: Instant)
    requires ValidInstant(hoy) && 1 <= diaCierre <= DaysInMonth(hoy.year, hoy.month)
    ensures var manana := NextDay(hoy);
      if CalcularDiasHastaCierre(diaCierre, hoy) == 1
      then CalcularDiasHastaCierre(diaCierre, manana) == DaysInMonth(manana.year, manana.month)
      else CalcularDiasHastaCierre(diaCierre, manana) == CalcularDiasHastaCierre(diaCierre, hoy) - 1
  {
    var manana := NextDay(hoy);
    if hoy.day == DaysInMonth(hoy.year, hoy.month) {
      assert manana.day == 1;
    } else {
      assert manana.day == hoy.day + 1 && manana.month == hoy.month && manana.year == hoy.year;
    }
  }

  /** With a closing day past the end of the month, the overflowed closing date is
      never reached: with `diaCierre` 31, 28 February 2025 is 3 days from closing
      (3 March) and 1 March 2025 is 30 days from it. */
  lemma DiasHastaCierreSaltaCierreDesbordado()
    ensures CalcularDiasHastaCierre(31, Instant(2025, 1, 28, 0)) == 3
    ensures NextDay(Instant(2025, 1, 28, 0)) == Instant(2025, 2, 1, 0)
    ensures CalcularDiasHastaCierre(31, Instant(2025, 2, 1, 0)) == 30
  {
    assert !IsLeapYear(2025);
  }

  /** `g.monto || 0` */
  function MontoDe(g: Gasto): real {
    g.monto.GetOr(0.0)
  }

  /** `gastosHoy.reduce((sum, g) => sum + (g.monto || 0), 0)`, summed left to right. */
  function TotalGastosHoy(gastos: seq<Gasto>): (total: real)
    ensures (forall i :: 0 <= i < |gastos| ==> MontoDe(gastos[i]) >= 0.0) ==> total >= 0.0
  {
    if gastos == [] then 0.0
    else TotalGastosHoy(gastos[..|gastos| - 1]) + MontoDe(gastos[|gastos| - 1])
  }

  /** The sum over a concatenation is the sum of the sums. */
  lemma {:induction false} TotalGastosHoyConcat(a: seq<Gasto>, b: seq<Gasto>)
    ensures TotalGastosHoy(a + b) == TotalGastosHoy(a) + TotalGastosHoy(b)
    decreases |b|
  {
    if b == [] {
      assert a + b == a;
    } else {
      var n := |b| - 1;
      assert (a + b)[..|a + b| - 1] == a + b[..n];
      assert (a + b)[|a + b| - 1] == b[n];
      TotalGastosHoyConcat(a, b[..n]);
    }
  }

  /** One expense sums to its own amount. */
  lemma TotalDeUno(g: Gasto)
    ensures TotalGastosHoy([g]) == MontoDe(g)
  {
    assert [g][..0] == [];
  }

  /** `diasRestantes > 0 ? limiteReal / diasRestantes : 0`: the guard, not a
      fault, keeps the division by zero away. */
  function DisponiblePorDia(limiteReal: Num, diasRestantes: int): (r: Num)
    ensures diasRestantes <= 0 ==> r == Finite(0.0)
    ensures diasRestantes > 0 ==> (r.Finite? <==> limiteReal.Finite?)
    ensures diasRestantes > 0 && r.Finite? ==> r.v * (diasRestantes as real) == limiteReal.v
    ensures limiteReal.Finite? && limiteReal.v >= 0.0 ==> r.Finite? && r.v >= 0.0
  {
    if diasRestantes > 0 then DivBy(limiteReal, diasRestantes) else Finite(0.0)
  }

  /** `determinarEstado`: danger when nothing is left today; otherwise warning when
      less than a tenth of the real limit is left today or at most 3 days remain;
      otherwise ok. A NaN amount fails every comparison. */
  function DeterminarEstado(disponibleHoy: Num, limiteReal: Num, diasRestantes: int): (e: Estado)
    ensures e == Danger <==> disponibleHoy.Finite? && disponibleHoy.v <= 0.0
    ensures e == Ok ==> diasRestantes > 3
    ensures e == Ok && disponibleHoy.Finite? && limiteReal.Finite? ==>
      disponibleHoy.v > 0.0 && disponibleHoy.v >= limiteReal.v * 0.1
    ensures e == Warning && disponibleHoy.Finite? && diasRestantes > 3 ==>
      limiteReal.Finite? && 0.0 < disponibleHoy.v < limiteReal.v * 0.1
    ensures disponibleHoy.NaN? ==> (e == Ok <==> diasRestantes > 3)
  {
    if AtMost(disponibleHoy, 0.0) then Danger
    else if Below(disponibleHoy, Scale(limiteReal, 0.1)) || diasRestantes <= 3 then Warning
    else Ok
  }

  /** The arithmetic of `calcularLimiteReal` before rounding, once the days to
      closing are known: the real limit floored at 0 (NaN when a field is
      missing), the per-day allowance that spreads it over the days, today's
      expenses, what is left of today's allowance floored at 0, and the status. */
  function CalculoConDias(p: Perfil, diasRestantes: int): (r: Resultado)
    requires !LimiteInvalido(p) && 1 <= diasRestantes <= 31
    ensures r.diasRestantes == diasRestantes
    ensures r.limiteReal.Finite? <==> p.gastosMes.Some? && p.cuotasActivas.Some?
    ensures r.limiteReal.Finite? ==>
      var bruto := p.limiteTotal.value - p.gastosMes.value - p.cuotasActivas.value;
      r.limiteReal.v >= 0.0 && r.limiteReal.v >= bruto && (r.limiteReal.v == 0.0 || r.limiteReal.v == bruto)
    ensures r.disponiblePorDia.Finite? <==> r.limiteReal.Finite?
    ensures r.disponiblePorDia.Finite? ==>
      r.disponiblePorDia.v * (diasRestantes as real) == r.limiteReal.v
    ensures r.totalGastosHoy == TotalGastosHoy(p.gastosHoy.GetOr([]))
    ensures r.disponibleHoy.Finite? <==> r.limiteReal.Finite?
    ensures r.disponibleHoy.Finite? ==>
      r.disponibleHoy.v >= 0.0 && r.disponibleHoy.v >= r.disponiblePorDia.v - r.totalGastosHoy
      && (r.disponibleHoy.v == 0.0 || r.disponibleHoy.v == r.disponiblePorDia.v - r.totalGastosHoy)
    ensures r.estado == DeterminarEstado(r.disponibleHoy, r.limiteReal, diasRestantes)
  {
    var limiteReal := MaxZero(Sub(Sub(Finite(p.limiteTotal.value), OfField(p.gastosMes)), OfField(p.cuotasActivas)));
    var disponiblePorDia := DisponiblePorDia(limiteReal, diasRestantes);
    var totalGastosHoy := TotalGastosHoy(p.gastosHoy.GetOr([]));
    var disponibleHoy := MaxZero(Sub(disponiblePorDia, Finite(totalGastosHoy)));
    Resultado(limiteReal, diasRestantes, disponiblePorDia, disponibleHoy, totalGastosHoy,
              DeterminarEstado(disponibleHoy, limiteReal, diasRestantes))
  }

  /** The values `calcularLimiteReal` computes before rounding, on a record that
      passed its two checks: the arithmetic above with the days to closing from
      the clock, which always number 1 to 31. */
  function CalculoExacto(p: Perfil, hoy: Instant): (r: Resultado)
    requires ValidInstant(hoy) && !LimiteInvalido(p) && !DiaInvalido(p)
    ensures 1 <= r.diasRestantes <= 31
    ensures r.diasRestantes == CalcularDiasHastaCierre(p.diaCierre.value, hoy)
    ensures r == CalculoConDias(p, r.diasRestantes)
  {
    var diasRestantes := CalcularDiasHastaCierre(p.diaCierre.value, hoy);
    DiasHastaCierreEnRango(p.diaCierre.value, hoy);
    CalculoConDias(p, diasRestantes)
  }

  /** The returned object: the four amounts rounded to cents, the days and the
      status as computed. */
  function Redondeado(r: Resultado): (q: Resultado)
    ensures q.diasRestantes == r.diasRestantes && q.estado == r.estado
    ensures EnCentavos(q.limiteReal, r.limiteReal) && EnCentavos(q.disponiblePorDia, r.disponiblePorDia)
    ensures EnCentavos(q.disponibleHoy, r.disponibleHoy) && q.totalGastosHoy == RoundCents(r.totalGastosHoy)
  {
    r.(limiteReal := RoundNum(r.limiteReal),
       disponiblePorDia := RoundNum(r.disponiblePorDia),
       disponibleHoy := RoundNum(r.disponibleHoy),
       totalGastosHoy := RoundCents(r.totalGastosHoy))
  }

  /** `a` is `x` rounded to cents. */
  predicate EnCentavos(a: Num, x: Num) {
    (a.Finite? <==> x.Finite?) && (a.Finite? ==> a.v == RoundCents(x.v))
  }

  /** `calcularLimiteReal`: throws on a missing or non-positive total limit (checked
      first) and on a closing day outside 1..31; otherwise returns the amounts of
      `CalculoExacto` rounded to cents, with the days and the status of the exact,
      unrounded values. */
  function CalcularLimiteReal(p: Perfil, hoy: Instant): (c: Calculo)
    requires ValidInstant(hoy)
    ensures c.Lanzado? <==> LimiteInvalido(p) || DiaInvalido(p)
    ensures LimiteInvalido(p) ==> c == Lanzado(ERROR_LIMITE)
    ensures !LimiteInvalido(p) && DiaInvalido(p) ==> c == Lanzado(ERROR_DIA)
    ensures c.Calculado? ==>
      var e := CalculoExacto(p, hoy);
      && c.resultado.diasRestantes == e.diasRestantes
      && c.resultado.estado == e.estado
      && EnCentavos(c.resultado.limiteReal, e.limiteReal)
      && EnCentavos(c.resultado.disponiblePorDia, e.disponiblePorDia)
      && EnCentavos(c.resultado.disponibleHoy, e.disponibleHoy)
      && c.resultado.totalGastosHoy == RoundCents(e.totalGastosHoy)
  {
    if LimiteInvalido(p) then Lanzado(ERROR_LIMITE)
    else if DiaInvalido(p) then Lanzado(ERROR_DIA)
    else Calculado(Redondeado(CalculoExacto(p, hoy)))
  }

  /** A record that passes `validarDatos` never makes the engine throw, and a
      record the engine throws on fails `validarDatos`; on the total limit, both
      report the same message. A record can pass the engine's checks and still
      fail `validarDatos` (a negative month spend). */
  lemma ValidacionPreviene(p: Perfil, hoy: Instant)
    requires ValidInstant(hoy)
    ensures ValidarDatos(p).Valido? ==> CalcularLimiteReal(p, hoy).Calculado?
    ensures CalcularLimiteReal(p, hoy).Lanzado? ==> ValidarDatos(p).Invalido?
    ensures CalcularLimiteReal(p, hoy) == Lanzado(ERROR_LIMITE) <==> ValidarDatos(p) == Invalido(ERROR_LIMITE)
  {
  }

  /** Real limit and today's allowance are never negative: with month spend and
      installments present, both are whole cents at or above zero, and the real
      limit is `max(0, limiteTotal - gastosMes - cuotasActivas)` rounded. */
  lemma MontosNoNegativos(p: Perfil, hoy: Instant)
    requires ValidInstant(hoy) && p.gastosMes.Some? && p.cuotasActivas.Some?
    requires CalcularLimiteReal(p, hoy).Calculado?
    ensures var r := CalcularLimiteReal(p, hoy).resultado;
      var bruto := p.limiteTotal.value - p.gastosMes.value - p.cuotasActivas.value;
      && r.limiteReal.Finite? && r.limiteReal.v == RoundCents(if bruto > 0.0 then bruto else 0.0)
      && r.limiteReal.v >= 0.0
      && r.disponiblePorDia.Finite? && r.disponiblePorDia.v >= 0.0
      && r.disponibleHoy.Finite? && r.disponibleHoy.v >= 0.0
  {
    var e := CalculoExacto(p, hoy);
    var bruto := p.limiteTotal.value - p.gastosMes.value - p.cuotasActivas.value;
    assert e.limiteReal.v == if bruto > 0.0 then bruto else 0.0;
  }

  /** A record that lacks `gastosMes` or `cuotasActivas` passes `validarDatos`,
      and the engine then computes with NaN: the amounts come out NaN and the
      status is never danger, only ok or warning by the days rule. */
  lemma CampoFaltanteDaNaN(p: Perfil, hoy: Instant)
    requires ValidInstant(hoy) && ValidarDatos(p).Valido?
    requires p.gastosMes.None? || p.cuotasActivas.None?
    ensures CalcularLimiteReal(p, hoy).Calculado?
    ensures var r := CalcularLimiteReal(p, hoy).resultado;
      r.limiteReal.NaN? && r.disponiblePorDia.NaN? && r.disponibleHoy.NaN?
      && r.estado == (if r.diasRestantes <= 3 then Warning else Ok)
  {
  }

  /** Spending more today, with everything else equal, never leaves more available
      today and never improves the status. */
  lemma MasGastoNoMejora(p: Perfil, g: Gasto, hoy: Instant)
    requires ValidInstant(hoy) && !LimiteInvalido(p) && !DiaInvalido(p)
    requires MontoDe(g) >= 0.0
    ensures var q := p.(gastosHoy := Some(p.gastosHoy.GetOr([]) + [g]));
      var antes := CalculoExacto(p, hoy);
      var despues := CalculoExacto(q, hoy);
      && despues.totalGastosHoy == antes.totalGastosHoy + MontoDe(g)
      && (despues.disponibleHoy.Finite? ==> despues.disponibleHoy.v <= antes.disponibleHoy.v)
      && (antes.estado == Danger ==> despues.estado == Danger)
      && (antes.estado == Warning ==> despues.estado != Ok)
  {
    var gastos := p.gastosHoy.GetOr([]);
    TotalGastosHoyConcat(gastos, [g]);
    assert TotalGastosHoy([g]) == MontoDe(g) by {
      assert [g][..0] == [];
    }
  }

  /** Scenario: total limit 50000, month spend 15000, installments 5000, closing
      day 20, five days before closing (15 June 2025) and no expense yet. */
  const ESCENARIO_PERFIL := Perfil(Some(50000.0), Some(15000.0), Some(5000.0), Some(20), Some([]))
  const ESCENARIO_HOY := Instant(2025, 5, 15, 36_000_000)

  /** With no expense: real limit 30000, 6000 a day, 6000 left, ok; after 5500
      spent: 500 left, below a tenth of 30000, warning; after 6500: 0 left, danger. */
  lemma Escenarios()
    ensures CalcularLimiteReal(ESCENARIO_PERFIL, ESCENARIO_HOY)
      == Calculado(Resultado(Finite(30000.0), 5, Finite(6000.0), Finite(6000.0), 0.0, Ok))
    ensures CalcularLimiteReal(ESCENARIO_PERFIL.(gastosHoy := Some([Gasto(Some(5500.0), 0)])), ESCENARIO_HOY)
      == Calculado(Resultado(Finite(30000.0), 5, Finite(6000.0), Finite(500.0), 5500.0, Warning))
    ensures CalcularLimiteReal(ESCENARIO_PERFIL.(gastosHoy := Some([Gasto(Some(6500.0), 0)])), ESCENARIO_HOY)
      == Calculado(Resultado(Finite(30000.0), 5, Finite(6000.0), Finite(0.0), 6500.0, Danger))
  {
    assert CalcularDiasHastaCierre(20, ESCENARIO_HOY) == 5;
    RoundCentsWhole(30000);
    RoundCentsWhole(6000);
    RoundCentsWhole(5500);
    RoundCentsWhole(6500);
    RoundCentsWhole(500);
    RoundCentsWhole(0);
    assert [Gasto(Some(5500.0), 0)][..0] == [];
    assert [Gasto(Some(6500.0), 0)][..0] == [];
  }

  /** A third of ten thousand, in cents: 333.33. */
  lemma RedondeoTercio()
    ensures RoundCents(10000.0 / 30.0) == 333.33
  {
    assert 33333.0 <= 10000.0 / 30.0 * 100.0 + 0.5 < 33334.0;
  }

  /** A closing day of 1 always rolls over to the next month: on 2 January 2025 a
      limit of 10000 lasts 30 days, 333.33 a day, under a tenth of the limit, so
      warning. */
  lemma EscenarioDiaUno()
    ensures CalcularLimiteReal(Perfil(Some(10000.0), Some(0.0), Some(0.0), Some(1), Some([])), Instant(2025, 0, 2, 0))
      == Calculado(Resultado(Finite(10000.0), 30, Finite(333.33), Finite(333.33), 0.0, Warning))
  {
    var p := Perfil(Some(10000.0), Some(0.0), Some(0.0), Some(1), Some([]));
    var hoy := Instant(2025, 0, 2, 0);
    var e := CalculoExacto(p, hoy);
    var porDia := DisponiblePorDia(Finite(10000.0), 30);
    assert porDia == Finite(10000.0 / 30.0);
    assert e.diasRestantes == 30;
    assert e.limiteReal == Finite(10000.0);
    assert e.disponiblePorDia == porDia;
    assert e.totalGastosHoy == 0.0;
    assert e.disponibleHoy == porDia;
    assert e.estado == DeterminarEstado(porDia, Finite(10000.0), 30);
    assert DeterminarEstado(porDia, Finite(10000.0), 30) == Warning;
    RoundCentsWhole(10000);
    RoundCentsWhole(0);
    RedondeoTercio();
  }

  /** A total limit of 0 fails with the total-limit error whatever the other
      fields hold. */
  lemma LimiteCeroFalla(p: Perfil, hoy: Instant)
    requires ValidInstant(hoy) && p.limiteTotal == Some(0.0)
    ensures ValidarDatos(p) == Invalido(ERROR_LIMITE)
    ensures CalcularLimiteReal(p, hoy) == Lanzado(ERROR_LIMITE)
  {
  }
}

/** The browser client of app.js: its own copy of the arithmetic (`calcularLocal`)
    used when `/api/calcular` does not answer, the remaining amount and status
    class that `updateUI` and `updateStatusMessage` show, and the record
    `userData` that `handleCalcular`, `handleRegistrarGasto` and the delete
    buttons change in place. The DOM, `fetch`, `localStorage`, `alert` and the
    currency formatting are left out: an alert is a returned message, the
    server's answering or not is the parameter `servidorResponde`, and a screen
    is a returned value. */
module App {
  import opened JsValues
  import opened Calendar
  import opened Calculator
  import opened Server

  /** The three fields of a result that `updateUI` reads. */
  datatype ResultadoUI = ResultadoUI(limiteReal: real, diasRestantes: int, disponibleHoy: real)

  /** Where the client's result came from. The server's `disponibleHoy` already has
      today's expenses taken off; the local one does not. */
  datatype Recibido = DelServidor(datos: ResultadoUI) | Local(datos: ResultadoUI)

  /** The class `updateStatusMessage` puts on the status message. */
  datatype ClaseEstado = ClaseDanger | ClaseWarning | ClaseSuccess

  /** What `updateUI` shows: the remaining amount, the real limit, the days and
      the status class. */
  datatype Pantalla = Pantalla(disponibleRestante: real, limiteReal: real, diasRestantes: int, clase: ClaseEstado)

  const ALERTA_LIMITE := "Por favor, ingresá el límite total de tu tarjeta"
  const ALERTA_DIA := "Por favor, ingresá un día de cierre válido (1-31)"
  const ALERTA_MONTO := "Por favor, ingresá un monto válido"

  /** The arithmetic of `calcularLocal` once the days to closing are known: the
      real limit, clamped at 0 only when returned, and a per-day amount divided
      from the UNCLAMPED limit, then clamped. Dividing first and clamping after
      gives the same as clamping first, so a committed spend above the limit
      yields 0 a day and the per-day amount times the days is the real limit.
      No rounding. */
  function LocalConDias(limiteTotal: real, gastosMes: real, cuotasActivas: real, diasRestantes: int): (r: ResultadoUI)
    requires diasRestantes >= 0
    ensures r.diasRestantes == diasRestantes
    ensures var bruto := limiteTotal - gastosMes - cuotasActivas;
      r.limiteReal >= 0.0 && r.limiteReal >= bruto && (r.limiteReal == 0.0 || r.limiteReal == bruto)
    ensures r.disponibleHoy >= 0.0
    ensures diasRestantes > 0 ==> r.disponibleHoy * (diasRestantes as real) == r.limiteReal
    ensures diasRestantes == 0 ==> r.disponibleHoy == 0.0
  {
    var limiteReal := limiteTotal - gastosMes - cuotasActivas;
    var disponibleHoy := if diasRestantes > 0 then limiteReal / (diasRestantes as real) else 0.0;
    assert diasRestantes > 0 ==> MaxCero(disponibleHoy) * (diasRestantes as real) == MaxCero(limiteReal) by {
      if diasRestantes > 0 {
        TopeDelCociente(limiteReal, diasRestantes);
      }
    }
    ResultadoUI(MaxCero(limiteReal), diasRestantes, MaxCero(disponibleHoy))
  }

  /** `calcularLocal`: the arithmetic above with the days to closing taken by the
      same rollover as the engine's, clamped at 0. */
  function CalcularLocal(limiteTotal: real, gastosMes: real, cuotasActivas: real, diaCierre: int, hoy: Instant): (r: ResultadoUI)
    requires ValidInstant(hoy)
    ensures r.diasRestantes == CalcularDiasHastaCierre(diaCierre, hoy)
    ensures 1 <= diaCierre <= 31 ==> 1 <= r.diasRestantes <= 31
    ensures r == LocalConDias(limiteTotal, gastosMes, cuotasActivas, r.diasRestantes)
  {
    var diasRestantes := CalcularDiasHastaCierre(diaCierre, hoy);
    assert 1 <= diaCierre <= 31 ==> 1 <= diasRestantes <= 31 by {
      if 1 <= diaCierre <= 31 {
        DiasHastaCierreEnRango(diaCierre, hoy);
      }
    }
    LocalConDias(limiteTotal, gastosMes, cuotasActivas, diasRestantes)
  }

  /** Clamping a quotient by a positive count at 0 is dividing the clamped value. */
  lemma TopeDelCociente(x: real, n: int)
    requires n > 0
    ensures MaxCero(x / (n as real)) * (n as real) == MaxCero(x)
  {
    var d := n as real;
    var q := x / d;
    assert q * d == x;
    if x <= 0.0 {
      assert q <= 0.0;
    }
  }

  /** On a record with every field present that passes the engine's checks, the
      browser copy computes what the engine computes before rounding: the same
      real limit, the same days, and as its `disponibleHoy` the engine's per-day
      allowance. */
  lemma CalcularLocalComoElMotor(p: Perfil, hoy: Instant)
    requires ValidInstant(hoy) && !LimiteInvalido(p) && !DiaInvalido(p)
    requires p.gastosMes.Some? && p.cuotasActivas.Some?
    ensures var l := CalcularLocal(p.limiteTotal.value, p.gastosMes.value, p.cuotasActivas.value, p.diaCierre.value, hoy);
      var e := CalculoExacto(p, hoy);
      && e.limiteReal == Finite(l.limiteReal)
      && e.diasRestantes == l.diasRestantes
      && e.disponiblePorDia == Finite(l.disponibleHoy)
  {
    var d := CalcularDiasHastaCierre(p.diaCierre.value, hoy);
    DiasHastaCierreEnRango(p.diaCierre.value, hoy);
    LocalComoMotorConDias(p, d);
  }

  /** The same agreement for any given number of days. */
  lemma LocalComoMotorConDias(p: Perfil, d: int)
    requires !LimiteInvalido(p) && p.gastosMes.Some? && p.cuotasActivas.Some? && 1 <= d <= 31
    ensures var l := LocalConDias(p.limiteTotal.value, p.gastosMes.value, p.cuotasActivas.value, d);
      var e := CalculoConDias(p, d);
      e.limiteReal == Finite(l.limiteReal) && e.disponiblePorDia == Finite(l.disponibleHoy)
  {
    var l := LocalConDias(p.limiteTotal.value, p.gastosMes.value, p.cuotasActivas.value, d);
    var e := CalculoConDias(p, d);
    assert e.limiteReal.v == l.limiteReal;
    FactorComun(e.disponiblePorDia.v, l.disponibleHoy, d);
  }

  /** Two amounts that give the same product with a positive count are equal. */
  lemma FactorComun(a: real, b: real, n: int)
    requires n > 0 && a * (n as real) == b * (n as real)
    ensures a == b
  {
    assert (a - b) * (n as real) == 0.0;
  }

  /** `updateStatusMessage`: danger when nothing remains, warning below a tenth of
      the real limit, success otherwise. It takes the days to closing and does not
      look at them. */
  function ClaseDeEstado(disponible: real, limiteReal: real, diasRestantes: int): (c: ClaseEstado)
    ensures c == ClaseDanger <==> disponible <= 0.0
    ensures c == ClaseSuccess <==> disponible > 0.0 && disponible >= limiteReal * 0.1
    ensures c == ClaseWarning <==> 0.0 < disponible < limiteReal * 0.1
  {
    if disponible <= 0.0 then ClaseDanger
    else if disponible < limiteReal * 0.1 then ClaseWarning
    else ClaseSuccess
  }

  /** The class the engine's status would give. */
  function ClaseDelMotor(e: Estado): ClaseEstado {
    match e
    case Ok => ClaseSuccess
    case Warning => ClaseWarning
    case Danger => ClaseDanger
  }

  /** The browser's status and the engine's agree on danger, and differ exactly
      where the engine's days rule applies: 3 days or fewer to closing with a
      positive amount of at least a tenth of the limit is success in the browser
      and warning in the engine. */
  lemma ClaseFrenteAlMotor(disponible: real, limiteReal: real, diasRestantes: int)
    ensures var c := ClaseDeEstado(disponible, limiteReal, diasRestantes);
      var e := DeterminarEstado(Finite(disponible), Finite(limiteReal), diasRestantes);
      && (c == ClaseDanger <==> e == Danger)
      && (c == ClaseDelMotor(e) <==> !(diasRestantes <= 3 && disponible > 0.0 && disponible >= limiteReal * 0.1))
      && (c != ClaseDelMotor(e) ==> c == ClaseSuccess && e == Warning)
  {
  }

  /** The remaining amount `updateUI` shows, as written: the result's
      `disponibleHoy` less today's expenses, whatever the result's origin. */
  function RestanteEscrito(recibido: Recibido, gastosHoy: seq<Gasto>): (r: real)
    ensures r + TotalGastosHoy(gastosHoy) == recibido.datos.disponibleHoy
  {
    recibido.datos.disponibleHoy - TotalGastosHoy(gastosHoy)
  }

  /** The remaining amount as evidently intended: today's expenses come off the
      local per-day amount, and not a second time off the server's, which
      already has them taken off. */
  function Restante(recibido: Recibido, gastosHoy: seq<Gasto>): (r: real)
    ensures recibido.Local? ==> r + TotalGastosHoy(gastosHoy) == recibido.datos.disponibleHoy
    ensures recibido.DelServidor? ==> r == recibido.datos.disponibleHoy
  {
    match recibido
    case Local(datos) => datos.disponibleHoy - TotalGastosHoy(gastosHoy)
    case DelServidor(datos) => datos.disponibleHoy
  }

  /** The screen for a remaining amount and a result. */
  function PantallaDe(restante: real, datos: ResultadoUI): Pantalla {
    Pantalla(restante, datos.limiteReal, datos.diasRestantes,
             ClaseDeEstado(restante, datos.limiteReal, datos.diasRestantes))
  }

  /** `updateUI` as written: the result's real limit and days, today's expenses
      taken off its `disponibleHoy` on both paths, and the status class of that
      remaining amount. */
  function ActualizarUI(recibido: Recibido, gastosHoy: seq<Gasto>): (p: Pantalla)
    ensures p.limiteReal == recibido.datos.limiteReal && p.diasRestantes == recibido.datos.diasRestantes
    ensures p.disponibleRestante + TotalGastosHoy(gastosHoy) == recibido.datos.disponibleHoy
    ensures p.clase == ClaseDeEstado(p.disponibleRestante, p.limiteReal, p.diasRestantes)
    ensures p.clase == ClaseDanger <==> p.disponibleRestante <= 0.0
  {
    PantallaDe(RestanteEscrito(recibido, gastosHoy), recibido.datos)
  }

  /** `updateUI` corrected: the same screen with `Restante`. It differs from the
      page as written only on a result from the server. */
  function ActualizarUICorregido(recibido: Recibido, gastosHoy: seq<Gasto>): (p: Pantalla)
    ensures p.limiteReal == recibido.datos.limiteReal && p.diasRestantes == recibido.datos.diasRestantes
    ensures recibido.Local? ==> p == ActualizarUI(recibido, gastosHoy)
    ensures recibido.DelServidor? ==> p.disponibleRestante == recibido.datos.disponibleHoy
    ensures p.clase == ClaseDeEstado(p.disponibleRestante, p.limiteReal, p.diasRestantes)
  {
    PantallaDe(Restante(recibido, gastosHoy), recibido.datos)
  }

  /** The record the client posts: every field present. */
  function PerfilEnviado(limiteTotal: real, gastosMes: real, cuotasActivas: real, diaCierre: int, gastosHoy: seq<Gasto>): Perfil {
    Perfil(Some(limiteTotal), Some(gastosMes), Some(cuotasActivas), Some(diaCierre), Some(gastosHoy))
  }

  /** The client's `calcularLimiteReal`: the server's answer when it responds
      with 200, which is exactly when the record passes `validarDatos`; the
      local copy when the server does not respond or answers with an error. */
  function ResultadoCliente(p: Perfil, hoy: Instant, servidorResponde: bool): (r: Recibido)
    requires ValidInstant(hoy)
    requires p.limiteTotal.Some? && p.gastosMes.Some? && p.cuotasActivas.Some? && p.diaCierre.Some?
    ensures r.DelServidor? <==> servidorResponde && ValidarDatos(p).Valido?
    ensures r.Local? ==>
      r.datos == CalcularLocal(p.limiteTotal.value, p.gastosMes.value, p.cuotasActivas.value, p.diaCierre.value, hoy)
    ensures r.DelServidor? ==>
      var e := CalculoExacto(p, hoy);
      && r.datos.limiteReal == RoundCents(e.limiteReal.v)
      && r.datos.diasRestantes == e.diasRestantes
      && r.datos.disponibleHoy == RoundCents(e.disponibleHoy.v)
  {
    var respuesta := ApiCalcular(p, hoy);
    if servidorResponde && respuesta.Exito? then
      var resultado := respuesta.cuerpo;
      DelServidor(ResultadoUI(resultado.limiteReal.v, resultado.diasRestantes, resultado.disponibleHoy.v))
    else
      Local(CalcularLocal(p.limiteTotal.value, p.gastosMes.value, p.cuotasActivas.value, p.diaCierre.value, hoy))
  }

  /** With `Restante`, the screen does not depend on whether the server answered,
      up to rounding to cents: a local remaining amount at or below 0 is 0 from
      the server, and a positive one is the server's rounded to cents. Both are
      danger when nothing remains. */
  lemma RestanteNoDependeDelOrigen(p: Perfil, hoy: Instant)
    requires ValidInstant(hoy) && ValidarDatos(p).Valido?
    requires p.gastosMes.Some? && p.cuotasActivas.Some?
    ensures var gastos := p.gastosHoy.GetOr([]);
      var local := Restante(ResultadoCliente(p, hoy, false), gastos);
      var servidor := Restante(ResultadoCliente(p, hoy, true), gastos);
      && (local <= 0.0 ==> servidor == 0.0)
      && (local > 0.0 ==> servidor == RoundCents(local))
      && (local <= 0.0 <==> ActualizarUICorregido(ResultadoCliente(p, hoy, false), gastos).clase == ClaseDanger)
  {
    CalcularLocalComoElMotor(p, hoy);
    RoundCentsWhole(0);
  }

  /** As written, a result from the server loses today's expenses twice: with
      5500 spent out of 6000 a day, the server leaves 500, warning, and the
      screen shows -5000, danger. The local path, and `Restante`, show 500. */
  lemma DobleDescuentoEnPantalla()
    ensures var p := ESCENARIO_PERFIL.(gastosHoy := Some([Gasto(Some(5500.0), 0)]));
      var recibido := ResultadoCliente(p, ESCENARIO_HOY, true);
      && recibido == DelServidor(ResultadoUI(30000.0, 5, 500.0))
      && CalcularLimiteReal(p, ESCENARIO_HOY).resultado.estado == Warning
      && RestanteEscrito(recibido, p.gastosHoy.value) == -5000.0
      && ClaseDeEstado(RestanteEscrito(recibido, p.gastosHoy.value), 30000.0, 5) == ClaseDanger
      && ActualizarUI(recibido, p.gastosHoy.value) == Pantalla(-5000.0, 30000.0, 5, ClaseDanger)
      && ActualizarUICorregido(recibido, p.gastosHoy.value) == Pantalla(500.0, 30000.0, 5, ClaseWarning)
      && Restante(ResultadoCliente(p, ESCENARIO_HOY, false), p.gastosHoy.value) == 500.0
  {
    var p := ESCENARIO_PERFIL.(gastosHoy := Some([Gasto(Some(5500.0), 0)]));
    Escenarios();
    assert [Gasto(Some(5500.0), 0)][..0] == [];
    assert TotalGastosHoy(p.gastosHoy.value) == 5500.0;
    var local := ResultadoCliente(p, ESCENARIO_HOY, false);
    assert local.datos.diasRestantes == 5;
    assert local.datos.limiteReal == 30000.0;
    assert local.datos.disponibleHoy == 6000.0;
  }

  /** Unlike the engine's, the browser's remaining amount is not clamped: with
      6500 spent out of 6000 a day it is -500. */
  lemma RestanteSinTope()
    ensures var gastos := [Gasto(Some(6500.0), 0)];
      ActualizarUI(ResultadoCliente(ESCENARIO_PERFIL.(gastosHoy := Some(gastos)), ESCENARIO_HOY, false), gastos)
        == Pantalla(-500.0, 30000.0, 5, ClaseDanger)
  {
    var gastos := [Gasto(Some(6500.0), 0)];
    assert gastos[..0] == [];
    var local := ResultadoCliente(ESCENARIO_PERFIL.(gastosHoy := Some(gastos)), ESCENARIO_HOY, false);
    assert local.datos.diasRestantes == 5;
    assert local.datos.disponibleHoy == 6000.0;
  }

  /** The client accepts a negative month spend that `validarDatos` refuses, so
      the server answers 400 and the client falls back to its local copy even
      when the server is up. */
  lemma GastoNegativoVaAlCalculoLocal(gastosMes: real, hoy: Instant)
    requires ValidInstant(hoy) && gastosMes < 0.0
    ensures var p := PerfilEnviado(50000.0, gastosMes, 0.0, 20, []);
      && ValidarDatos(p) == Invalido(ERROR_GASTOS)
      && ResultadoCliente(p, hoy, true).Local?
  {
  }

  /** `splice(indice, 1)`'s start: a negative index counts from the end, and an
      index past the end removes nothing. */
  function InicioSplice(indice: int, longitud: nat): (k: nat)
    ensures k <= longitud
    ensures 0 <= indice < longitud ==> k == indice
  {
    if indice < 0 then (if longitud + indice > 0 then longitud + indice else 0)
    else if indice < longitud then indice
    else longitud
  }

  /** Removing one expense lowers today's total by exactly its amount. */
  lemma TotalSinGasto(antes: seq<Gasto>, gasto: Gasto, despues: seq<Gasto>)
    ensures TotalGastosHoy(antes + [gasto] + despues) == TotalGastosHoy(antes + despues) + MontoDe(gasto)
  {
    TotalGastosHoyConcat(antes + [gasto], despues);
    TotalGastosHoyConcat(antes, [gasto]);
    TotalGastosHoyConcat(antes, despues);
    TotalDeUno(gasto);
  }

  /** The page's `userData`. */
  class Aplicacion {
    var limiteTotal: real
    var gastosMes: real
    var cuotasActivas: real
    var diaCierre: int
    var gastosHoy: seq<Gasto>

    /** Every expense the page adds has an amount above 0. So the page's sum
        `sum + g.monto`, which has no `|| 0`, is `TotalGastosHoy`, and it is
        never negative. */
    predicate Valid()
      reads this
    {
      forall i :: 0 <= i < |gastosHoy| ==> gastosHoy[i].monto.Some? && gastosHoy[i].monto.value > 0.0
    }

    /** The record the page posts to the server. */
    function Enviado(): Perfil
      reads this
    {
      PerfilEnviado(limiteTotal, gastosMes, cuotasActivas, diaCierre, gastosHoy)
    }

    /** The record as the page starts: every amount 0, no expenses. */
    constructor ()
      ensures Valid()
      ensures limiteTotal == 0.0 && gastosMes == 0.0 && cuotasActivas == 0.0 && diaCierre == 0
      ensures gastosHoy == []
    {
      limiteTotal := 0.0;
      gastosMes := 0.0;
      cuotasActivas := 0.0;
      diaCierre := 0;
      gastosHoy := [];
    }

    /** `handleCalcular` on the parsed inputs (`None` for an unparseable one): a
        missing or non-positive limit, then a closing day outside 1..31, raise an
        alert before any field changes. Otherwise the four fields are stored, an
        unparseable month spend or installments as 0 and a negative one as it is,
        and the page shows `updateUI` of the client's result, as written. The
        remaining amount shown never exceeds the result's `disponibleHoy`. */
    method HandleCalcular(limite: Option<real>, gastos: Option<real>, cuotas: Option<real>, dia: Option<int>,
                          hoy: Instant, servidorResponde: bool)
      returns (alerta: Option<string>, pantalla: Option<Pantalla>)
      requires ValidInstant(hoy) && Valid()
      modifies this
      ensures Valid()
      ensures (limite.None? || limite.value <= 0.0) ==>
        alerta == Some(ALERTA_LIMITE) && pantalla.None? && unchanged(this)
      ensures limite.Some? && limite.value > 0.0 && (dia.None? || dia.value < 1 || dia.value > 31) ==>
        alerta == Some(ALERTA_DIA) && pantalla.None? && unchanged(this)
      ensures limite.Some? && limite.value > 0.0 && dia.Some? && 1 <= dia.value <= 31 ==>
        && alerta.None?
        && limiteTotal == limite.value && gastosMes == gastos.GetOr(0.0)
        && cuotasActivas == cuotas.GetOr(0.0) && diaCierre == dia.value
        && gastosHoy == old(gastosHoy)
        && pantalla == Some(ActualizarUI(ResultadoCliente(Enviado(), hoy, servidorResponde), gastosHoy))
        && pantalla.value.disponibleRestante <= ResultadoCliente(Enviado(), hoy, servidorResponde).datos.disponibleHoy
    {
      var limiteLeido := limite;
      var gastosLeidos := gastos.GetOr(0.0);
      var cuotasLeidas := cuotas.GetOr(0.0);
      if limiteLeido.None? || limiteLeido.value <= 0.0 {
        return Some(ALERTA_LIMITE), None;
      }
      if dia.None? || dia.value < 1 || dia.value > 31 {
        return Some(ALERTA_DIA), None;
      }
      limiteTotal := limiteLeido.value;
      gastosMes := gastosLeidos;
      cuotasActivas := cuotasLeidas;
      diaCierre := dia.value;
      var recibido := ResultadoCliente(Enviado(), hoy, servidorResponde);
      assert forall i :: 0 <= i < |gastosHoy| ==> MontoDe(gastosHoy[i]) >= 0.0;
      alerta, pantalla := None, Some(ActualizarUI(recibido, gastosHoy));
    }

    /** `handleRegistrarGasto`: a missing or non-positive amount raises an alert
        and changes nothing; a positive one is appended as the last expense. */
    method RegistrarGasto(monto: Option<real>, ahora: int) returns (alerta: Option<string>)
      requires Valid()
      modifies this
      ensures Valid()
      ensures (monto.None? || monto.value <= 0.0) ==> alerta == Some(ALERTA_MONTO) && unchanged(this)
      ensures monto.Some? && monto.value > 0.0 ==>
        && alerta.None?
        && gastosHoy == old(gastosHoy) + [Gasto(monto, ahora)]
        && TotalGastosHoy(gastosHoy) == old(TotalGastosHoy(gastosHoy)) + monto.value
        && limiteTotal == old(limiteTotal) && gastosMes == old(gastosMes)
        && cuotasActivas == old(cuotasActivas) && diaCierre == old(diaCierre)
    {
      if monto.None? || monto.value <= 0.0 {
        return Some(ALERTA_MONTO);
      }
      var gasto := Gasto(monto, ahora);
      TotalGastosHoyConcat(gastosHoy, [gasto]);
      assert [gasto][..0] == [];
      gastosHoy := gastosHoy + [gasto];
      alerta := None;
    }

    /** The delete button of the expense at `indice`: `splice(indice, 1)` takes out
        that one expense and keeps the others in order; today's total drops by its
        amount. An index past the end removes nothing. */
    method EliminarGasto(indice: int)
      requires Valid()
      modifies this
      ensures Valid()
      ensures var k := InicioSplice(indice, |old(gastosHoy)|);
        if k < |old(gastosHoy)| then
          && gastosHoy == old(gastosHoy)[..k] + old(gastosHoy)[k + 1..]
          && TotalGastosHoy(gastosHoy) == old(TotalGastosHoy(gastosHoy)) - MontoDe(old(gastosHoy)[k])
        else gastosHoy == old(gastosHoy)
      ensures limiteTotal == old(limiteTotal) && gastosMes == old(gastosMes)
      ensures cuotasActivas == old(cuotasActivas) && diaCierre == old(diaCierre)
    {
      var k := InicioSplice(indice, |gastosHoy|);
      if k < |gastosHoy| {
        var antes, despues := gastosHoy[..k], gastosHoy[k + 1..];
        assert gastosHoy == antes + [gastosHoy[k]] + despues;
        TotalSinGasto(antes, gastosHoy[k], despues);
        gastosHoy := antes + despues;
      }
    }
  }
}

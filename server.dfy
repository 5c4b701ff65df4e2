/** The HTTP handlers of server.js that compute with or change the stored user
    record: `/api/calcular`, `/api/estado`, `/api/gasto` and `/api/reset-mes`.
    The file `data/user-data.json` becomes the field `registro` of a store object
    (absent when the file does not exist); reading, parsing and writing it are
    left out, and each handler works on the record in place. */
module Server {
  import opened JsValues
  import opened Calendar
  import opened Calculator

  /** What a handler answers: status 200 with a body, 400 or 500 with `{ error }`. */
  datatype Respuesta<T> = Exito(cuerpo: T) | ErrorCliente(error: string) | ErrorServidor(error: string)

  /** The body of `/api/estado`: `configurado: false` with the setup hint, or
      `configurado: true` spread over the engine's result. */
  datatype Tarjeta = NoConfigurado | Configurado(resultado: Resultado)

  /** The body of a registered expense: the new entry spread with the new result. */
  datatype GastoRegistrado = GastoRegistrado(gasto: Gasto, resultado: Resultado)

  const ERROR_MONTO := "El monto debe ser mayor a 0"
  const ERROR_SIN_TARJETA := "Primero debes configurar tu tarjeta"
  const ERROR_REGISTRAR := "Error al registrar el gasto"
  const ERROR_ESTADO := "Error al obtener el estado"
  const ERROR_SIN_DATOS := "No hay datos para resetear"
  const MENSAJE_RESETEO := "Mes reseteado correctamente"

  /** `!userData.limiteTotal`: absent or zero. A negative limit is truthy. */
  predicate SinLimite(p: Perfil) {
    p.limiteTotal.None? || p.limiteTotal.value == 0.0
  }

  /** `!monto || monto <= 0` on the request's amount. */
  predicate MontoRechazado(monto: Option<real>) {
    monto.None? || monto.value <= 0.0
  }

  /** `/api/calcular`: a body that fails `validarDatos` gets a 400 with its first
      error and is not computed; any other body gets the engine's result. The
      engine's own throw, caught as a 500, cannot happen after validation. */
  function ApiCalcular(cuerpo: Perfil, hoy: Instant): (r: Respuesta<Resultado>)
    requires ValidInstant(hoy)
    ensures r.ErrorCliente? <==> ValidarDatos(cuerpo).Invalido?
    ensures r.ErrorCliente? ==> r.error == ValidarDatos(cuerpo).error
    ensures !r.ErrorServidor?
    ensures r.Exito? ==> Calculado(r.cuerpo) == CalcularLimiteReal(cuerpo, hoy)
  {
    var validacion := ValidarDatos(cuerpo);
    if validacion.Invalido? then ErrorCliente(validacion.error)
    else
      ValidacionPreviene(cuerpo, hoy);
      match CalcularLimiteReal(cuerpo, hoy)
      case Calculado(resultado) => Exito(resultado)
      case Lanzado(mensaje) => ErrorServidor(mensaje)
  }

  /** The record after `gastosHoy.push(gasto)`, the list created first when absent. */
  function ConGasto(p: Perfil, g: Gasto): (q: Perfil)
    ensures q.gastosHoy.Some?
    ensures |q.gastosHoy.value| == |p.gastosHoy.GetOr([])| + 1
    ensures q.gastosHoy.value[|q.gastosHoy.value| - 1] == g
    ensures q.(gastosHoy := p.gastosHoy) == p
  {
    p.(gastosHoy := Some(p.gastosHoy.GetOr([]) + [g]))
  }

  /** Appending puts exactly one entry at the end, keeps the earlier entries in
      order, raises today's total by the new amount and changes no other field. */
  lemma ConGastoAgregaAlFinal(p: Perfil, g: Gasto)
    ensures var antes := p.gastosHoy.GetOr([]);
      var despues := ConGasto(p, g).gastosHoy.value;
      && |despues| == |antes| + 1
      && despues[|antes|] == g
      && despues[..|antes|] == antes
      && TotalGastosHoy(despues) == TotalGastosHoy(antes) + MontoDe(g)
    ensures ConGasto(p, g).(gastosHoy := p.gastosHoy) == p
  {
    var antes := p.gastosHoy.GetOr([]);
    TotalGastosHoyConcat(antes, [g]);
    assert [g][..0] == [];
  }

  /** The record after a month reset: month spend 0 and no expenses today. */
  function Reseteado(p: Perfil): (q: Perfil)
    ensures q.gastosMes == Some(0.0) && q.gastosHoy == Some([])
    ensures q.limiteTotal == p.limiteTotal && q.cuotasActivas == p.cuotasActivas
    ensures q.diaCierre == p.diaCierre
  {
    p.(gastosMes := Some(0.0), gastosHoy := Some([]))
  }

  /** Resetting twice is resetting once; a valid record stays valid; and on the
      reset record the engine gives back the whole limit left after installments,
      all of it available today. */
  lemma ReseteoLiberaElLimite(p: Perfil, hoy: Instant)
    requires ValidInstant(hoy)
    ensures Reseteado(Reseteado(p)) == Reseteado(p)
    ensures ValidarDatos(p).Valido? ==> ValidarDatos(Reseteado(p)).Valido?
    ensures ValidarDatos(p).Valido? && p.cuotasActivas.Some? ==>
      var e := CalculoExacto(Reseteado(p), hoy);
      var bruto := p.limiteTotal.value - p.cuotasActivas.value;
      && e.limiteReal == Finite(if bruto > 0.0 then bruto else 0.0)
      && e.totalGastosHoy == 0.0
      && e.disponibleHoy == e.disponiblePorDia
  {
    if ValidarDatos(p).Valido? && p.cuotasActivas.Some? {
      var e := CalculoExacto(Reseteado(p), hoy);
      assert e.totalGastosHoy == 0.0;
      assert e.disponiblePorDia.v >= 0.0;
    }
  }

  /** The store that holds the one user record. */
  class Almacen {
    /** The contents of `data/user-data.json`; `None` while the file does not exist. */
    var registro: Option<Perfil>

    constructor (inicial: Option<Perfil>)
      ensures registro == inicial
    {
      registro := inicial;
    }

    /** `/api/estado`: not configured when there is no record or its total limit
        is falsy; otherwise the engine's result, or a 500 when the engine throws
        (a negative limit or a bad closing day). The record is only read. */
    method ApiEstado(hoy: Instant) returns (r: Respuesta<Tarjeta>)
      requires ValidInstant(hoy)
      ensures r == Exito(NoConfigurado) <==> registro.None? || SinLimite(registro.value)
      ensures r.ErrorServidor? <==>
        registro.Some? && !SinLimite(registro.value) && CalcularLimiteReal(registro.value, hoy).Lanzado?
      ensures r.ErrorServidor? ==> r.error == ERROR_ESTADO
      ensures r.Exito? && r.cuerpo.Configurado? ==>
        registro.Some? && CalcularLimiteReal(registro.value, hoy) == Calculado(r.cuerpo.resultado)
      ensures !r.ErrorCliente?
    {
      if registro.None? {
        return Exito(NoConfigurado);
      }
      var datos := registro.value;
      if SinLimite(datos) {
        return Exito(NoConfigurado);
      }
      var calculo := CalcularLimiteReal(datos, hoy);
      if calculo.Lanzado? {
        return ErrorServidor(ERROR_ESTADO);
      }
      r := Exito(Configurado(calculo.resultado));
    }

    /** `/api/gasto`: a missing or non-positive amount is refused before the record
        is read, and a missing record is refused; neither changes anything.
        Otherwise the expense is appended and saved, and then the engine runs on
        the new record: if it throws, the answer is a 500 but the expense stays
        saved. `ahora` is `Date.now()`. */
    method ApiGasto(monto: Option<real>, ahora: int, hoy: Instant) returns (r: Respuesta<GastoRegistrado>)
      requires ValidInstant(hoy)
      modifies this
      ensures MontoRechazado(monto) ==> r == ErrorCliente(ERROR_MONTO) && registro == old(registro)
      ensures !MontoRechazado(monto) && old(registro).None? ==>
        r == ErrorCliente(ERROR_SIN_TARJETA) && registro.None?
      ensures !MontoRechazado(monto) && old(registro).Some? ==>
        var gasto := Gasto(monto, ahora);
        && registro == Some(ConGasto(old(registro).value, gasto))
        && match CalcularLimiteReal(registro.value, hoy)
           case Calculado(resultado) => r == Exito(GastoRegistrado(gasto, resultado))
           case Lanzado(_) => r == ErrorServidor(ERROR_REGISTRAR)
    {
      if MontoRechazado(monto) {
        return ErrorCliente(ERROR_MONTO);
      }
      if registro.None? {
        return ErrorCliente(ERROR_SIN_TARJETA);
      }
      var datos := registro.value;
      if datos.gastosHoy.None? {
        datos := datos.(gastosHoy := Some([]));
      }
      var gasto := Gasto(monto, ahora);
      datos := datos.(gastosHoy := Some(datos.gastosHoy.value + [gasto]));
      registro := Some(datos);
      var calculo := CalcularLimiteReal(datos, hoy);
      if calculo.Lanzado? {
        return ErrorServidor(ERROR_REGISTRAR);
      }
      r := Exito(GastoRegistrado(gasto, calculo.resultado));
    }

    /** `/api/reset-mes`: without a record it fails and creates nothing; otherwise
        month spend becomes 0 and today's expenses an empty list, and nothing else
        changes. */
    method ApiResetMes() returns (r: Respuesta<string>)
      modifies this
      ensures old(registro).None? ==> r == ErrorCliente(ERROR_SIN_DATOS) && registro.None?
      ensures old(registro).Some? ==>
        registro == Some(Reseteado(old(registro).value)) && r == Exito(MENSAJE_RESETEO)
    {
      if registro.None? {
        return ErrorCliente(ERROR_SIN_DATOS);
      }
      var datos := registro.value;
      datos := datos.(gastosMes := Some(0.0));
      datos := datos.(gastosHoy := Some([]));
      registro := Some(datos);
      r := Exito(MENSAJE_RESETEO);
    }
  }

  /** A record that passed `validarDatos` keeps passing it, and keeps giving a
      result, after any number of accepted expenses: the handler's 500 after a
      save cannot happen on such a record. */
  lemma GastoConservaValidez(p: Perfil, g: Gasto, hoy: Instant)
    requires ValidInstant(hoy) && ValidarDatos(p).Valido?
    ensures ValidarDatos(ConGasto(p, g)).Valido?
    ensures CalcularLimiteReal(ConGasto(p, g), hoy).Calculado?
  {
    ValidacionPreviene(ConGasto(p, g), hoy);
  }
}

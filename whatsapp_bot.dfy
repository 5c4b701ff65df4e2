/** The chat front end of whatsapp-bot.js: the classification of an incoming
    message into a command, the amount that "gasté …" carries, and the setup
    wizard over the globals `configurando` and `datosConfiguracion`. Sending
    replies, the HTTP calls to the server, the client lifecycle and the text of
    the replies are left out; `parseFloat`/`parseInt` of a wizard answer is given
    already parsed, `None` standing for NaN. */
module WhatsappBot {
  import opened JsValues
  import opened Calendar
  import opened Calculator
  import opened Server

  // ---------------------------------------------------------------- dispatch

  /** An incoming message: the flags the handler filters on, and its body after
      `trim().toLowerCase()`. */
  datatype Mensaje = Mensaje(propio: bool, grupo: bool, difusion: bool, esChat: bool, texto: string)

  /** What the `'message'` handler does with a message. */
  datatype Accion =
    | Ignorar              // filtered out, no answer
    | SeguirConfiguracion  // `manejarConfiguracion`
    | Saludar              // `enviarSaludo`
    | MostrarDisponibleHoy // `mostrarDisponibleHoy`
    | MostrarResumen       // `mostrarResumen`
    | ResetearMes          // `resetearMes`
    | IniciarConfig        // `iniciarConfiguracion`
    | RegistrarGasto       // `registrarGasto`
    | MostrarAyuda         // `mostrarAyuda`
    | NoEntendido          // "No entendí ese comando"

  /** Own messages, groups, broadcasts, non-chat messages and blank bodies get no answer. */
  predicate Descartado(m: Mensaje) {
    m.propio || m.grupo || m.difusion || !m.esChat || |m.texto| == 0
  }

  /** `s.startsWith(p)` */
  predicate EmpiezaCon(s: string, p: string) {
    |p| <= |s| && s[..|p|] == p
  }

  /** `s.includes(t)`, searched from the front. */
  predicate Contiene(s: string, t: string)
    decreases |s|
  {
    EmpiezaCon(s, t) || (|s| > 0 && Contiene(s[1..], t))
  }

  /** `t` occurs in `s` at position `i`. */
  predicate OcurreEn(s: string, t: string, i: int) {
    0 <= i <= |s| - |t| && s[i..i + |t|] == t
  }

  /** `includes` finds `t` exactly when `t` occurs at some position of `s`. */
  lemma {:induction false} ContieneEn(s: string, t: string)
    ensures Contiene(s, t) <==> exists i :: OcurreEn(s, t, i)
    decreases |s|
  {
    if EmpiezaCon(s, t) {
      assert OcurreEn(s, t, 0);
    } else if |s| > 0 {
      ContieneEn(s[1..], t);
      if Contiene(s[1..], t) {
        var i :| OcurreEn(s[1..], t, i);
        assert s[i + 1..i + 1 + |t|] == s[1..][i..i + |t|];
        assert OcurreEn(s, t, i + 1);
      } else {
        assert forall i :: OcurreEn(s, t, i) && i > 0 ==> OcurreEn(s[1..], t, i - 1);
      }
    }
  }

  /** A text shorter than `t` does not include it. */
  lemma {:induction false} NoContieneSiEsCorto(s: string, t: string)
    requires |s| < |t|
    ensures !Contiene(s, t)
    decreases |s|
  {
    if |s| > 0 {
      NoContieneSiEsCorto(s[1..], t);
    }
  }

  /** The command words, grouped by the action they ask for. */
  const SALUDOS: set<string> := {"hola", "hi", "inicio"}
  const CONSULTAS: set<string> := {"hoy", "cuanto puedo gastar"}
  const RESUMENES: set<string> := {"resumen", "estado"}
  const RESETEOS: set<string> := {"reset mes", "resetear mes"}
  const CONFIGURACIONES: set<string> := {"configurar", "config"}
  const AYUDAS: set<string> := {"ayuda", "help"}
  const PALABRAS: set<string> := SALUDOS + CONSULTAS + RESUMENES + RESETEOS + CONFIGURACIONES + AYUDAS

  /** The question `includes` looks for anywhere in the text. */
  const PREGUNTA := "cuánto puedo gastar"

  /** The text of a kept message outside the wizard: the case where the command
      table applies. */
  predicate EsComando(configurando: bool, m: Mensaje) {
    !Descartado(m) && !configurando
  }

  /** The "gasté "/"gaste " prefix of an expense. */
  predicate PrefijoDeGasto(texto: string) {
    EmpiezaCon(texto, "gasté ") || EmpiezaCon(texto, "gaste ")
  }

  /** Every command word is non-empty, none starts with 'g', and all but the
      written-out question are shorter than the accented one. */
  lemma FormaDeLasPalabras()
    ensures forall w :: w in PALABRAS ==> |w| > 0 && w[0] != 'g'
    ensures forall w :: w in PALABRAS && w !in CONSULTAS ==> |w| < |PREGUNTA|
  {
  }

  /** A text that does not start with 'g' does not start like an expense. */
  lemma NoEsGastoSinG(texto: string)
    requires |texto| > 0 && texto[0] != 'g'
    ensures !PrefijoDeGasto(texto)
  {
  }

  /** No command word starts like an expense. */
  lemma PalabraNoEsGasto(texto: string)
    requires texto in PALABRAS
    ensures !PrefijoDeGasto(texto)
  {
    FormaDeLasPalabras();
    NoEsGastoSinG(texto);
  }

  /** Only the written-out question is long enough to include the accented one. */
  lemma PalabraNoPregunta(texto: string)
    requires texto in PALABRAS && texto !in CONSULTAS
    ensures !Contiene(texto, PREGUNTA)
  {
    FormaDeLasPalabras();
    NoContieneSiEsCorto(texto, PREGUNTA);
  }

  /** Both facts above, for any text. */
  lemma PalabraSinGastoNiPregunta(texto: string)
    ensures texto in PALABRAS ==> !PrefijoDeGasto(texto)
    ensures texto in PALABRAS && texto !in CONSULTAS ==> !Contiene(texto, PREGUNTA)
  {
    if texto in PALABRAS {
      PalabraNoEsGasto(texto);
      if texto !in CONSULTAS {
        PalabraNoPregunta(texto);
      }
    }
  }

  /** No word belongs to two groups. */
  lemma GruposDisjuntos()
    ensures SALUDOS !! CONSULTAS && SALUDOS !! RESUMENES && SALUDOS !! RESETEOS
    ensures SALUDOS !! CONFIGURACIONES && SALUDOS !! AYUDAS
    ensures CONSULTAS !! RESUMENES && CONSULTAS !! RESETEOS && CONSULTAS !! CONFIGURACIONES
    ensures CONSULTAS !! AYUDAS && RESUMENES !! RESETEOS && RESUMENES !! CONFIGURACIONES
    ensures RESUMENES !! AYUDAS && RESETEOS !! CONFIGURACIONES && RESETEOS !! AYUDAS
    ensures CONFIGURACIONES !! AYUDAS
  {
  }

  /** The command table, tried in the handler's order on the text of a kept
      message outside the wizard: the command words, the question anywhere in
      the text, the "gasté "/"gaste " prefix, and anything else unknown. */
  function Comando(texto: string): (a: Accion)
    ensures a != Ignorar && a != SeguirConfiguracion
    ensures a == Saludar <==> texto in SALUDOS
    ensures a == MostrarDisponibleHoy <==> texto in CONSULTAS || Contiene(texto, PREGUNTA)
    ensures a == MostrarResumen <==> texto in RESUMENES
    ensures a == ResetearMes <==> texto in RESETEOS
    ensures a == IniciarConfig <==> texto in CONFIGURACIONES
    ensures a == MostrarAyuda <==> texto in AYUDAS
    ensures a == RegistrarGasto <==> PrefijoDeGasto(texto) && !Contiene(texto, PREGUNTA)
    ensures a == NoEntendido <==>
      texto !in PALABRAS && !Contiene(texto, PREGUNTA) && !PrefijoDeGasto(texto)
  {
    PalabraSinGastoNiPregunta(texto);
    GruposDisjuntos();
    if texto in SALUDOS then Saludar
    else if texto in CONSULTAS || Contiene(texto, PREGUNTA) then MostrarDisponibleHoy
    else if texto in RESUMENES then MostrarResumen
    else if texto in RESETEOS then ResetearMes
    else if texto in CONFIGURACIONES then IniciarConfig
    else if PrefijoDeGasto(texto) then RegistrarGasto
    else if texto in AYUDAS then MostrarAyuda
    else NoEntendido
  }

  /** The `'message'` handler's choice: the filter first, then the wizard while
      configuring (before any command word, "configurar" included), then the
      command table. */
  function Despachar(configurando: bool, m: Mensaje): (a: Accion)
    ensures a == Ignorar <==> Descartado(m)
    ensures a == SeguirConfiguracion <==> !Descartado(m) && configurando
    ensures !Descartado(m) && !configurando ==> a == Comando(m.texto)
  {
    if Descartado(m) then Ignorar
    else if configurando then SeguirConfiguracion
    else Comando(m.texto)
  }

  /** A plain chat message from someone else carrying `texto`. */
  function DeChat(texto: string): Mensaje {
    Mensaje(false, false, false, true, texto)
  }

  /** Every command word of a plain chat message maps to its action. */
  lemma PalabrasDeComando()
    ensures forall w :: w in SALUDOS ==> Despachar(false, DeChat(w)) == Saludar
    ensures forall w :: w in CONSULTAS ==> Despachar(false, DeChat(w)) == MostrarDisponibleHoy
    ensures forall w :: w in RESUMENES ==> Despachar(false, DeChat(w)) == MostrarResumen
    ensures forall w :: w in RESETEOS ==> Despachar(false, DeChat(w)) == ResetearMes
    ensures forall w :: w in CONFIGURACIONES ==> Despachar(false, DeChat(w)) == IniciarConfig
    ensures forall w :: w in AYUDAS ==> Despachar(false, DeChat(w)) == MostrarAyuda
  {
    forall w | w in PALABRAS
      ensures !Descartado(DeChat(w))
    {
      FormaDeLasPalabras();
    }
  }

  /** While configuring even "configurar" goes to the wizard; an unknown word,
      and an expense word without its space, are not understood. */
  lemma Comandos()
    ensures Despachar(true, DeChat("configurar")) == SeguirConfiguracion
    ensures Despachar(false, DeChat("chau")) == NoEntendido
    ensures Despachar(false, DeChat("gasté")) == NoEntendido
  {
    NoContieneSiEsCorto("chau", PREGUNTA);
    NoContieneSiEsCorto("gasté", PREGUNTA);
  }

  /** The question "cuánto puedo gastar" anywhere in the text wins over a
      "gasté " prefix. */
  lemma PreguntaAntesQueGasto()
    ensures Despachar(false, DeChat("gasté 500 y cuánto puedo gastar")) == MostrarDisponibleHoy
  {
    var t := "gasté 500 y cuánto puedo gastar";
    assert OcurreEn(t, "cuánto puedo gastar", 12);
    ContieneEn(t, "cuánto puedo gastar");
  }

  // ------------------------------------------------------ the amount of "gasté"

  predicate EsDigito(c: char) {
    '0' <= c <= '9'
  }

  /** JavaScript's `\s`: the ASCII white space, the no-break space, the Unicode
      space separators, the line and paragraph separators and the byte order mark. */
  predicate EsEspacio(c: char) {
    || c == '\t' || c == '\n' || c == '\U{000B}' || c == '\U{000C}' || c == '\r' || c == ' '
    || c == '\U{00A0}' || c == '\U{1680}' || ('\U{2000}' <= c <= '\U{200A}')
    || c == '\U{2028}' || c == '\U{2029}' || c == '\U{202F}' || c == '\U{205F}'
    || c == '\U{3000}' || c == '\U{FEFF}'
  }

  predicate TodoDigitos(s: string) {
    forall k :: 0 <= k < |s| ==> EsDigito(s[k])
  }

  /** The end of the longest run of digits from `i` (`\d+` taken greedily). */
  function CorridaDigitos(s: string, i: nat): (j: nat)
    requires i <= |s|
    ensures i <= j <= |s|
    ensures TodoDigitos(s[i..j])
    ensures j < |s| ==> !EsDigito(s[j])
    decreases |s| - i
  {
    if i < |s| && EsDigito(s[i]) then CorridaDigitos(s, i + 1) else i
  }

  /** The end of the longest run of white space from `i` (`\s+` taken greedily). */
  function CorridaEspacios(s: string, i: nat): (j: nat)
    requires i <= |s|
    ensures i <= j <= |s|
    ensures forall k :: i <= k < j ==> EsEspacio(s[k])
    ensures j < |s| ==> !EsEspacio(s[j])
    decreases |s| - i
  {
    if i < |s| && EsEspacio(s[i]) then CorridaEspacios(s, i + 1) else i
  }

  /** The captured number: its whole digits and the digits after `.` or `,`
      (empty when there is no fraction). */
  datatype Numeral = Numeral(entera: string, fraccion: string)

  /** `/gast[ée]\s+(\d+(?:[.,]\d+)?)/` tried at position `i`. The text is already
      lower case, so the `i` flag changes nothing. */
  function CoincideEn(s: string, i: nat): (r: Option<Numeral>)
    requires i <= |s|
    ensures r.Some? ==> |r.value.entera| > 0 && TodoDigitos(r.value.entera) && TodoDigitos(r.value.fraccion)
    ensures r.Some? ==> EmpiezaCon(s[i..], "gasté") || EmpiezaCon(s[i..], "gaste")
    ensures r.Some? ==> i + 5 < |s| && CorridaEspacios(s, i + 5) > i + 5
  {
    if i + 5 <= |s| && s[i..i + 4] == "gast" && (s[i + 4] == 'é' || s[i + 4] == 'e') then
      assert s[i..][..5] == s[i..i + 4] + [s[i + 4]];
      var e := CorridaEspacios(s, i + 5);
      var d := CorridaDigitos(s, e);
      if e == i + 5 || d == e then None
      else if d + 1 < |s| && (s[d] == '.' || s[d] == ',') && EsDigito(s[d + 1]) then
        Some(Numeral(s[e..d], s[d + 1..CorridaDigitos(s, d + 1)]))
      else Some(Numeral(s[e..d], ""))
    else None
  }

  /** `texto.match(...)`: the leftmost position from `i` where the pattern matches. */
  function Buscar(s: string, i: nat): (r: Option<Numeral>)
    requires i <= |s|
    ensures r.Some? ==>
      exists k :: i <= k <= |s| && CoincideEn(s, k) == r && (forall j :: i <= j < k ==> CoincideEn(s, j).None?)
    ensures r.None? ==> forall k :: i <= k <= |s| ==> CoincideEn(s, k).None?
    decreases |s| - i
  {
    if CoincideEn(s, i).Some? then CoincideEn(s, i)
    else if i == |s| then None
    else Buscar(s, i + 1)
  }

  function ValorDigito(c: char): nat
    requires EsDigito(c)
  {
    (c as int - '0' as int) as nat
  }

  /** The value of a run of decimal digits, most significant first. */
  function ValorDigitos(ds: string): nat
    requires TodoDigitos(ds)
  {
    if ds == [] then 0 else ValorDigitos(ds[..|ds| - 1]) * 10 + ValorDigito(ds[|ds| - 1])
  }

  function Pot10(n: nat): nat {
    if n == 0 then 1 else 10 * Pot10(n - 1)
  }

  /** A run of `k` digits is worth less than `10^k`. */
  lemma {:induction false} ValorDigitosCota(ds: string)
    requires TodoDigitos(ds)
    ensures ValorDigitos(ds) < Pot10(|ds|)
  {
    if ds != [] {
      var init := ds[..|ds| - 1];
      ValorDigitosCota(init);
      assert ValorDigitos(ds) == ValorDigitos(init) * 10 + ValorDigito(ds[|ds| - 1]);
      assert ValorDigito(ds[|ds| - 1]) <= 9;
      assert Pot10(|ds|) == 10 * Pot10(|init|);
    }
  }

  /** A value below a positive bound, divided by it, lies in [0, 1). */
  lemma Fraccion(f: real, p: real)
    requires 0.0 <= f < p
    ensures 0.0 <= f / p < 1.0
  {
    var q := f / p;
    assert q * p == f;
  }

  /** `parseFloat` of the capture once its `,` became `.`: the exact decimal value,
      whose whole part is the digits before the point. */
  function ValorNumeral(n: Numeral): (r: real)
    requires TodoDigitos(n.entera) && TodoDigitos(n.fraccion)
    ensures ValorDigitos(n.entera) as real <= r < ValorDigitos(n.entera) as real + 1.0
  {
    var f := ValorDigitos(n.fraccion) as real;
    var p := Pot10(|n.fraccion|) as real;
    ValorDigitosCota(n.fraccion);
    Fraccion(f, p);
    ValorDigitos(n.entera) as real + f / p
  }

  predicate TodoCeros(s: string) {
    forall k :: 0 <= k < |s| ==> s[k] == '0'
  }

  /** A run of digits is worth 0 exactly when every digit is '0'. */
  lemma {:induction false} ValorDigitosCero(ds: string)
    requires TodoDigitos(ds)
    ensures ValorDigitos(ds) == 0 <==> TodoCeros(ds)
  {
    if ds != [] {
      var init := ds[..|ds| - 1];
      ValorDigitosCero(init);
      if TodoCeros(ds) {
        assert TodoCeros(init);
      }
      if TodoCeros(init) && ds[|ds| - 1] == '0' {
        assert forall k :: 0 <= k < |ds| ==> ds[k] == (if k < |init| then init[k] else ds[|ds| - 1]);
      }
    }
  }

  /** The captured number is above 0 exactly when some digit of it is not '0'. */
  lemma ValorNumeralPositivo(n: Numeral)
    requires TodoDigitos(n.entera) && TodoDigitos(n.fraccion)
    ensures ValorNumeral(n) >= 0.0
    ensures ValorNumeral(n) > 0.0 <==> !(TodoCeros(n.entera) && TodoCeros(n.fraccion))
  {
    ValorDigitosCero(n.entera);
    ValorDigitosCero(n.fraccion);
    ValorDigitosCota(n.fraccion);
    var f := ValorDigitos(n.fraccion) as real;
    var p := Pot10(|n.fraccion|) as real;
    assert f / p >= 0.0;
    assert f > 0.0 ==> f / p > 0.0;
  }

  /** What `registrarGasto` makes of the text: no amount found, an amount that is
      not above 0, or an amount posted to `/api/gasto`. */
  datatype LecturaMonto = SinMonto | MontoNoPositivo | Enviar(monto: real)

  /** The amount check of `registrarGasto`. */
  function MontoDelMensaje(texto: string): (r: LecturaMonto)
    ensures r.SinMonto? <==> Buscar(texto, 0).None?
    ensures r.Enviar? ==> r.monto > 0.0 && r.monto == ValorNumeral(Buscar(texto, 0).value)
    ensures r.MontoNoPositivo? <==>
      var hallado := Buscar(texto, 0);
      hallado.Some? && TodoCeros(hallado.value.entera) && TodoCeros(hallado.value.fraccion)
  {
    var hallado := Buscar(texto, 0);
    if hallado.None? then SinMonto
    else
      var numeral := hallado.value;
      ValorNumeralPositivo(numeral);
      var monto := ValorNumeral(numeral);
      if monto <= 0.0 then MontoNoPositivo else Enviar(monto)
  }

  /** Every amount the bot posts passes the server's own amount check. */
  lemma MontoDelBotAceptado(texto: string)
    requires MontoDelMensaje(texto).Enviar?
    ensures !MontoRechazado(Some(MontoDelMensaje(texto).monto))
  {
  }

  /** The decimal digits of `n`, most significant first. */
  function Decimal(n: nat): (s: string)
    ensures |s| > 0 && TodoDigitos(s)
  {
    var ultimo := ['0' + ((n % 10) as char)];
    if n < 10 then ultimo else Decimal(n / 10) + ultimo
  }

  lemma {:induction false} ValorDecimal(n: nat)
    ensures ValorDigitos(Decimal(n)) == n
  {
    var s := Decimal(n);
    assert s[..|s| - 1] == (if n < 10 then [] else Decimal(n / 10));
    if n >= 10 {
      ValorDecimal(n / 10);
    }
  }

  /** A run of digits that reaches the end of the text is taken whole. */
  lemma CorridaHastaElFinal(s: string, i: nat)
    requires i <= |s| && TodoDigitos(s[i..])
    ensures CorridaDigitos(s, i) == |s|
  {
  }

  /** A run of white space from `i` that ends at `j` is the greedy `\s+`. */
  lemma {:induction false} CorridaEspaciosHasta(s: string, i: nat, j: nat)
    requires i <= j <= |s| && forall k :: i <= k < j ==> EsEspacio(s[k])
    requires j < |s| ==> !EsEspacio(s[j])
    ensures CorridaEspacios(s, i) == j
    decreases j - i
  {
    if i < j {
      CorridaEspaciosHasta(s, i + 1, j);
    }
  }

  /** A run of digits from `i` that ends at `j` is the greedy `\d+`. */
  lemma {:induction false} CorridaDigitosHasta(s: string, i: nat, j: nat)
    requires i <= j <= |s| && forall k :: i <= k < j ==> EsDigito(s[k])
    requires j < |s| ==> !EsDigito(s[j])
    ensures CorridaDigitos(s, i) == j
    decreases j - i
  {
    if i < j {
      CorridaDigitosHasta(s, i + 1, j);
    }
  }

  /** "gasté" or "gaste" at the start, white space up to `e`, digits up to `d`, a
      `.` or a `,`, and digits up to `g`: the captures are the two digit runs. */
  lemma CoincideEnPosiciones(s: string, e: nat, d: nat, g: nat)
    requires 5 < e < d && d + 1 < g <= |s|
    requires s[0..4] == "gast" && (s[4] == 'é' || s[4] == 'e')
    requires forall k :: 5 <= k < e ==> EsEspacio(s[k])
    requires forall k :: e <= k < d ==> EsDigito(s[k])
    requires s[d] == '.' || s[d] == ','
    requires forall k :: d + 1 <= k < g ==> EsDigito(s[k])
    requires g < |s| ==> !EsDigito(s[g])
    ensures CoincideEn(s, 0) == Some(Numeral(s[e..d], s[d + 1..g]))
  {
    assert EsDigito(s[e]);
    CorridaEspaciosHasta(s, 5, e);
    CorridaDigitosHasta(s, e, d);
    CorridaDigitosHasta(s, d + 1, g);
  }

  /** "gasté" or "gaste", at least one white-space character, digits, a `.` or a
      `,`, and more digits: the pattern captures the digits on each side of the
      separator, whatever follows once the digits stop. */
  lemma CoincideConSeparador(p: string, w: string, a: string, c: char, f: string, resto: string)
    requires p == "gasté" || p == "gaste"
    requires |w| > 0 && forall k :: 0 <= k < |w| ==> EsEspacio(w[k])
    requires |a| > 0 && TodoDigitos(a) && |f| > 0 && TodoDigitos(f)
    requires c == '.' || c == ','
    requires resto == [] || !EsDigito(resto[0])
    ensures CoincideEn(p + w + a + [c] + f + resto, 0) == Some(Numeral(a, f))
  {
    var s := p + w + a + [c] + f + resto;
    var e := 5 + |w|;
    var d := e + |a|;
    var g := d + 1 + |f|;
    assert s[..5] == p && s[5..e] == w && s[e..d] == a && s[d] == c && s[d + 1..g] == f && s[g..] == resto;
    assert s[0..4] == p[0..4];
    forall k | 5 <= k < e
      ensures EsEspacio(s[k])
    {
      assert s[k] == s[5..e][k - 5];
    }
    forall k | e <= k < d
      ensures EsDigito(s[k])
    {
      assert s[k] == s[e..d][k - e];
    }
    forall k | d + 1 <= k < g
      ensures EsDigito(s[k])
    {
      assert s[k] == s[d + 1..g][k - d - 1];
    }
    assert g < |s| ==> s[g] == s[g..][0];
    CoincideEnPosiciones(s, e, d, g);
  }

  /** A match at the very start is the one `match` returns, and a value above 0
      is posted. */
  lemma MontoDeLaPrimeraCoincidencia(s: string, n: Numeral)
    requires CoincideEn(s, 0) == Some(n) && TodoDigitos(n.entera) && TodoDigitos(n.fraccion)
    requires ValorNumeral(n) > 0.0
    ensures MontoDelMensaje(s) == Enviar(ValorNumeral(n))
  {
    assert Buscar(s, 0) == Some(n);
  }

  /** At a "gasté "/"gaste " followed by digits up to the end of the text, the
      pattern captures all of those digits and no fraction. */
  lemma CoincideConEnteroFinal(s: string, i: nat)
    requires i + 6 < |s| && s[i..i + 4] == "gast" && (s[i + 4] == 'é' || s[i + 4] == 'e')
    requires s[i + 5] == ' ' && TodoDigitos(s[i + 6..])
    ensures CoincideEn(s, i) == Some(Numeral(s[i + 6..], ""))
  {
    assert EsDigito(s[i + 6..][0]);
    assert CorridaEspacios(s, i + 6) == i + 6;
    assert CorridaEspacios(s, i + 5) == i + 6;
    CorridaHastaElFinal(s, i + 6);
    var e := CorridaEspacios(s, i + 5);
    var d := CorridaDigitos(s, e);
    assert e == i + 6 && d == |s|;
    assert s[e..d] == s[i + 6..];
    assert i + 5 <= |s|;
    assert s[i..i + 4] == "gast";
    assert CoincideEn(s, i) == Some(Numeral(s[e..d], ""));
  }

  /** "gasté " followed by a whole number above 0 posts exactly that number. */
  lemma GasteEntero(n: nat)
    requires n > 0
    ensures MontoDelMensaje("gasté " + Decimal(n)) == Enviar(n as real)
  {
    var d := Decimal(n);
    var s := "gasté " + d;
    assert s[0..4] == "gast" && s[4] == 'é' && s[5] == ' ';
    assert s[6..] == d;
    CoincideConEnteroFinal(s, 0);
    ValorDecimal(n);
    assert ValorNumeral(Numeral(d, "")) == n as real;
    MontoDeLaPrimeraCoincidencia(s, Numeral(d, ""));
  }

  /** "gaste 12,5" is matched with 12 before the comma and 5 after it. */
  lemma CoincideConComa()
    ensures CoincideEn("gaste 12,5", 0) == Some(Numeral("12", "5"))
  {
    var s := "gaste 12,5";
    assert s[0..4] == "gast" && s[4] == 'e' && s[8] == ',';
    assert CorridaEspacios(s, 5) == 6;
    assert CorridaDigitos(s, 6) == 8;
    assert CorridaDigitos(s, 9) == 10;
    assert s[6..8] == "12" && s[9..10] == "5";
  }

  /** A comma works as the decimal point. */
  lemma GasteConComa()
    ensures MontoDelMensaje("gaste 12,5") == Enviar(12.5)
  {
    CoincideConComa();
    assert ValorDigitos("12") == 12 by {
      assert "12"[..1] == "1";
      assert "1"[..0] == "";
    }
    assert ValorDigitos("5") == 5 by {
      assert "5"[..0] == "";
    }
    assert Pot10(1) == 10;
    assert ValorNumeral(Numeral("12", "5")) == 12.5;
    MontoDeLaPrimeraCoincidencia("gaste 12,5", Numeral("12", "5"));
  }

  /** A zero amount is found and refused. */
  lemma GasteCero()
    ensures MontoDelMensaje("gasté 0") == MontoNoPositivo
  {
    var z := "gasté 0";
    assert z[0..4] == "gast" && z[4] == 'é' && z[6..7] == "0";
    assert CorridaEspacios(z, 5) == 6;
    assert CorridaDigitos(z, 6) == 7;
    assert Buscar(z, 0) == Some(Numeral("0", ""));
  }

  /** Without digits after "gasté " nothing is found. */
  lemma GasteSinNumero()
    ensures MontoDelMensaje("gasté mucho") == SinMonto
  {
    var m := "gasté mucho";
    assert m[0..4] == "gast" && m[4] == 'é';
    assert CorridaEspacios(m, 5) == 6;
    assert CorridaDigitos(m, 6) == 6;
    assert CoincideEn(m, 0).None?;
    forall k | 1 <= k <= |m|
      ensures CoincideEn(m, k).None?
    {
      if k + 5 <= |m| {
        assert m[k..k + 4] != "gast" by {
          assert m[k..k + 4][0] == m[k];
        }
      }
    }
  }

  // --------------------------------------------------------------- the wizard

  /** `datosConfiguracion` at the start: `{}`. */
  const VACIO := Perfil(None, None, None, None, None)

  function Uno<T>(x: Option<T>): nat {
    if x.Some? then 1 else 0
  }

  /** `Object.keys(datosConfiguracion).length`: the wizard's step. */
  function CamposRecogidos(d: Perfil): nat {
    Uno(d.limiteTotal) + Uno(d.gastosMes) + Uno(d.cuotasActivas) + Uno(d.diaCierre) + Uno(d.gastosHoy)
  }

  /** What the wizard holds between messages: the limit, then the month spend,
      then the installments, each as accepted. */
  predicate EnOrden(d: Perfil) {
    && (d.gastosMes.Some? ==> d.limiteTotal.Some?)
    && (d.cuotasActivas.Some? ==> d.gastosMes.Some?)
    && d.diaCierre.None? && d.gastosHoy.None?
    && (d.limiteTotal.Some? ==> d.limiteTotal.value > 0.0)
    && (d.gastosMes.Some? ==> d.gastosMes.value >= 0.0)
    && (d.cuotasActivas.Some? ==> d.cuotasActivas.value >= 0.0)
  }

  /** The state after one answer to the wizard, and the record it posted when it
      finished. */
  datatype TrasRespuesta = TrasRespuesta(configurando: bool, datos: Perfil, guardado: Option<Perfil>)

  /** `manejarConfiguracion`, by the step: a limit that is NaN or not above 0 is
      refused; a month spend or installments that do not parse count as 0 and
      only a negative one is refused; a closing day must be a whole number in
      1..31. A refused answer keeps the step. The accepted closing day completes
      the record with an empty `gastosHoy`, posts it, and ends the wizard with the
      collected data cleared, whether the post succeeds or not. */
  function Responder(d: Perfil, numero: Option<real>, entero: Option<int>): (t: TrasRespuesta)
    requires EnOrden(d)
    ensures t.configurando <==> t.guardado.None?
    ensures t.guardado.Some? ==> CamposRecogidos(d) == 3 && t.datos == VACIO
    ensures t.guardado.None? ==> EnOrden(t.datos)
    ensures CamposRecogidos(d) == 0 && t.datos != d ==> t.datos == d.(limiteTotal := numero)
    ensures CamposRecogidos(d) == 1 && t.datos != d ==> t.datos == d.(gastosMes := Some(numero.GetOr(0.0)))
    ensures CamposRecogidos(d) == 2 && t.datos != d ==> t.datos == d.(cuotasActivas := Some(numero.GetOr(0.0)))
  {
    var paso := CamposRecogidos(d);
    if paso == 0 then
      if numero.None? || numero.value <= 0.0 then TrasRespuesta(true, d, None)
      else TrasRespuesta(true, d.(limiteTotal := numero), None)
    else if paso == 1 then
      var gastos := numero.GetOr(0.0);
      if gastos < 0.0 then TrasRespuesta(true, d, None)
      else TrasRespuesta(true, d.(gastosMes := Some(gastos)), None)
    else if paso == 2 then
      var cuotas := numero.GetOr(0.0);
      if cuotas < 0.0 then TrasRespuesta(true, d, None)
      else TrasRespuesta(true, d.(cuotasActivas := Some(cuotas)), None)
    else
      if entero.None? || entero.value < 1 || entero.value > 31 then TrasRespuesta(true, d, None)
      else TrasRespuesta(false, VACIO, Some(d.(diaCierre := entero, gastosHoy := Some([]))))
  }

  /** Before the closing day, an answer either is refused and changes nothing or
      is accepted and adds exactly one field: the step goes up by one. The data
      stay in order and the wizard goes on. An accepted limit is stored as given;
      an accepted month spend or installments count is stored as the number, or
      0 when the answer does not parse (`|| 0`). */
  lemma {:induction false} RespuestaAvanzaUnPaso(d: Perfil, numero: Option<real>, entero: Option<int>)
    requires EnOrden(d) && CamposRecogidos(d) < 3
    ensures var t := Responder(d, numero, entero);
      && t.configurando && t.guardado.None? && EnOrden(t.datos)
      && (t.datos == d || CamposRecogidos(t.datos) == CamposRecogidos(d) + 1)
    ensures CamposRecogidos(d) == 0 ==>
      (Responder(d, numero, entero).datos == d <==> numero.None? || numero.value <= 0.0)
    ensures 0 < CamposRecogidos(d) ==>
      (Responder(d, numero, entero).datos == d <==> numero.GetOr(0.0) < 0.0)
    ensures CamposRecogidos(d) == 0 && numero.Some? && numero.value > 0.0 ==>
      Responder(d, numero, entero).datos == d.(limiteTotal := numero)
    ensures CamposRecogidos(d) == 1 && numero.GetOr(0.0) >= 0.0 ==>
      Responder(d, numero, entero).datos == d.(gastosMes := Some(numero.GetOr(0.0)))
    ensures CamposRecogidos(d) == 2 && numero.GetOr(0.0) >= 0.0 ==>
      Responder(d, numero, entero).datos == d.(cuotasActivas := Some(numero.GetOr(0.0)))
  {
    var paso := CamposRecogidos(d);
    if paso == 0 {
      assert d.limiteTotal.None? && d.gastosMes.None? && d.cuotasActivas.None?;
    } else if paso == 1 {
      assert d.limiteTotal.Some? && d.gastosMes.None? && d.cuotasActivas.None?;
    } else {
      assert d.limiteTotal.Some? && d.gastosMes.Some? && d.cuotasActivas.None?;
    }
  }

  /** A month spend and an installments count that do not parse are stored as 0,
      and the wizard moves on. */
  lemma SinNumeroCuentaCero()
    ensures var t1 := Responder(VACIO.(limiteTotal := Some(50000.0)), None, None);
      var t2 := Responder(t1.datos, None, None);
      && t1.datos.gastosMes == Some(0.0)
      && t2.datos == Perfil(Some(50000.0), Some(0.0), Some(0.0), None, None)
      && t2.configurando
  {
  }

  /** At the closing-day step, exactly a whole day in 1..31 is accepted: a
      refused day keeps the wizard running with its data unchanged, and an
      accepted one posts the collected fields with that day and no expenses.
      The record posted has every field, passes `validarDatos`, so the engine
      computes it without NaN. */
  lemma {:induction false} GuardadoEsValido(d: Perfil, numero: Option<real>, entero: Option<int>, hoy: Instant)
    requires EnOrden(d) && ValidInstant(hoy)
    ensures CamposRecogidos(d) == 3 ==>
      var t := Responder(d, numero, entero);
      && (t.guardado.Some? <==> entero.Some? && 1 <= entero.value <= 31)
      && (t.guardado.None? ==> t == TrasRespuesta(true, d, None))
      && (t.guardado.Some? ==> t.guardado.value == d.(diaCierre := entero, gastosHoy := Some([])))
    ensures var t := Responder(d, numero, entero);
      t.guardado.Some? ==>
        && CamposRecogidos(d) == 3 && !t.configurando && t.datos == VACIO
        && t.guardado.value.gastosHoy == Some([])
        && ValidarDatos(t.guardado.value).Valido?
        && CalcularLimiteReal(t.guardado.value, hoy).Calculado?
        && CalcularLimiteReal(t.guardado.value, hoy).resultado.limiteReal.Finite?
  {
    var t := Responder(d, numero, entero);
    if t.guardado.Some? {
      var p := t.guardado.value;
      assert d.limiteTotal.Some? && d.gastosMes.Some? && d.cuotasActivas.Some?;
      ValidacionPreviene(p, hoy);
    }
  }

  /** Answering 50000, 15000, 5000 and 20 from the start posts the record of the
      worked scenario, and leaves the wizard finished and empty. */
  lemma ConfiguracionCompleta()
    ensures var t1 := Responder(VACIO, Some(50000.0), None);
      var t2 := Responder(t1.datos, Some(15000.0), None);
      var t3 := Responder(t2.datos, Some(5000.0), None);
      var t4 := Responder(t3.datos, None, Some(20));
      && t4.guardado == Some(ESCENARIO_PERFIL)
      && !t4.configurando && t4.datos == VACIO
  {
  }

  /** The bot's globals. */
  class Bot {
    var configurando: bool
    var datosConfiguracion: Perfil

    /** The wizard's data are in order, and empty whenever it is not running. */
    predicate Valid()
      reads this
    {
      EnOrden(datosConfiguracion) && (!configurando ==> datosConfiguracion == VACIO)
    }

    constructor ()
      ensures Valid() && !configurando && datosConfiguracion == VACIO
    {
      configurando := false;
      datosConfiguracion := VACIO;
    }

    /** `iniciarConfiguracion`: the wizard starts over at step 0. */
    method IniciarConfiguracion()
      modifies this
      ensures Valid() && configurando && CamposRecogidos(datosConfiguracion) == 0
    {
      configurando := true;
      datosConfiguracion := VACIO;
    }

    /** `manejarConfiguracion` on the parsed answer, updating the globals in place. */
    method ManejarConfiguracion(numero: Option<real>, entero: Option<int>) returns (guardado: Option<Perfil>)
      requires Valid() && configurando
      modifies this
      ensures Valid()
      ensures var t := Responder(old(datosConfiguracion), numero, entero);
        configurando == t.configurando && datosConfiguracion == t.datos && guardado == t.guardado
    {
      var paso := CamposRecogidos(datosConfiguracion);
      guardado := None;
      if paso == 0 {
        if numero.None? || numero.value <= 0.0 {
          return;
        }
        datosConfiguracion := datosConfiguracion.(limiteTotal := numero);
      } else if paso == 1 {
        var gastos := numero.GetOr(0.0);
        if gastos < 0.0 {
          return;
        }
        datosConfiguracion := datosConfiguracion.(gastosMes := Some(gastos));
      } else if paso == 2 {
        var cuotas := numero.GetOr(0.0);
        if cuotas < 0.0 {
          return;
        }
        datosConfiguracion := datosConfiguracion.(cuotasActivas := Some(cuotas));
      } else {
        if entero.None? || entero.value < 1 || entero.value > 31 {
          return;
        }
        datosConfiguracion := datosConfiguracion.(diaCierre := entero);
        datosConfiguracion := datosConfiguracion.(gastosHoy := Some([]));
        guardado := Some(datosConfiguracion);
        configurando := false;
        datosConfiguracion := VACIO;
      }
    }

    /** The `'message'` handler: classify the message, and run the wizard or
        start it when that is the action. Every other action only calls the
        server and leaves the globals alone. */
    method AlRecibirMensaje(m: Mensaje, numero: Option<real>, entero: Option<int>)
      returns (accion: Accion, guardado: Option<Perfil>)
      requires Valid()
      modifies this
      ensures Valid()
      ensures accion == Despachar(old(configurando), m)
      ensures accion == SeguirConfiguracion ==>
        var t := Responder(old(datosConfiguracion), numero, entero);
        configurando == t.configurando && datosConfiguracion == t.datos && guardado == t.guardado
      ensures accion == IniciarConfig ==>
        configurando && datosConfiguracion == VACIO && guardado.None?
      ensures accion != SeguirConfiguracion && accion != IniciarConfig ==>
        unchanged(this) && guardado.None?
    {
      accion := Despachar(configurando, m);
      guardado := None;
      if accion == SeguirConfiguracion {
        guardado := ManejarConfiguracion(numero, entero);
      } else if accion == IniciarConfig {
        IniciarConfiguracion();
      }
    }
  }
}

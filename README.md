# Límite real: a verified model

Límite real tells a credit-card holder how much they can spend today. It takes
the card's total limit and subtracts what is already committed: the month's
spending and the active installments. What is left is the *real limit*. It is
spread evenly over the days until the card's closing date, and today's
expenses are taken off that per-day share. The answer comes with a status:
`ok`, `warning` or `danger`.

The system has three front ends over one engine:

- an Express server that keeps one user record in a JSON file;
- a browser page with its own fallback copy of the arithmetic;
- a WhatsApp bot with a chat setup wizard.

The Dafny model covers the following:

- `js_values.dfy` (module `JsValues`): JavaScript values as the code meets them.
  - A JSON field that may be absent.
  - A number that turns into NaN when an absent field takes part in arithmetic.
  - `Math.round(x * 100) / 100` on exact values.
- `calendar.dfy` (module `Calendar`): the part of `Date` that the closing-date
  arithmetic uses.
  - Local calendar fields.
  - `new Date(y, m, d)` with its overflow of days and months.
  - Millisecond differences and `Math.ceil` of days.
- `calculator.dfy` (module `Calculator`): the engine of `calculator.js`, as pure
  functions. The clock is the parameter `hoy`, an `Instant`. The engine has:
  - the validation;
  - the days to closing;
  - the real limit, the per-day allowance and what is left today;
  - the status;
  - the rounding of the result.
- `server.dfy` (module `Server`): the handlers of `server.js` that compute with
  or change the stored record.
  - `/api/calcular` is a function.
  - `/api/estado`, `/api/gasto` and `/api/reset-mes` are methods of a class
    `Almacen`. Its field `registro` is the contents of `data/user-data.json`.
- `app.dfy` (module `App`): the browser client of `app.js`.
  - `calcularLocal`, and how it agrees with the engine.
  - The status class of the page.
  - The remaining amount the page shows.
  - A class `Aplicacion` whose fields are the page's `userData`. Its methods
    `HandleCalcular`, `RegistrarGasto` and `EliminarGasto` update those fields
    in place.
- `whatsapp_bot.dfy` (module `WhatsappBot`): the chat front end of
  `whatsapp-bot.js`.
  - How a message is classified into a command.
  - The amount regular expression of "gasté …", as a leftmost, greedy match.
  - The four-step setup wizard, over a class `Bot` that holds the globals
    `configurando` and `datosConfiguracion`.

Money is modelled as exact `real`. A JSON field that may be missing is an
`Option`. An engine amount is a `Num`: a finite value or NaN.

## Model

| member | source | states |
|---|---|---|
| JsValues.RoundCents | calculator.js:47-51 | The rounded amount is a whole number of cents, within half a cent of the input, rounding halves up, and never negative for a non-negative input |
| JsValues.RoundCentsKeepsCents | calculator.js:47-51 | Rounding an amount that already is whole cents gives it back unchanged, so rounding is idempotent |
| JsValues.RoundCentsWhole | calculator.js:47-51 | A whole amount comes back from rounding unchanged |
| JsValues.RoundCentsMonotonic | calculator.js:47-51 | Rounding to cents never reverses the order of two amounts |
| Calendar.DayNumberNextMonth | calculator.js:72 | `new Date(y, m + 1, d)` is `DaysInMonth(y, m)` days after `new Date(y, m, d)`, including December carrying into January of the next year |
| Calendar.DayOverflow | calculator.js:68 | In a 30-day month, day 31 overflows to the 1st of the next month |
| Calendar.DayNumberOverflow | calculator.js:68-72 | `new Date(y, m, d)` carries a day past the month into the following days one for one, and a month index past 11 into the next year |
| Calendar.CeilDays | calculator.js:77 | `Math.ceil(ms / 86400000)` is the least whole number of days covering `ms` |
| Calendar.CeilDaysOfDayDifference | calculator.js:76-77 | For a closing date `k` calendar days ahead at midnight, rounding the millisecond difference up gives exactly `k`, whatever the current time of day |
| Calculator.ValidarDatos | calculator.js:120-138 | Valid iff the limit is present and positive, neither month spend nor installments is negative, and the closing day is in 1..31; each error message holds exactly when its check is the first to fail |
| Calculator.CalcularDiasHastaCierre | calculator.js:61-80 | The count is never negative. It is `diaCierre - today` while the closing day is ahead this month. Once today's day has reached the closing day, it is the rest of this month plus the closing day, clamped at 0 |
| Calculator.DiasHastaCierreEnRango | calculator.js:68-79 | A valid closing day is always 1 to 31 days away, and on the closing day itself the count is the whole month's length |
| Calculator.DiasHastaCierreAvanza | calculator.js:61-80 | For a closing day that the current month has, from one day to the next the count drops by one, except that a count of 1 restarts at the length of the new period. A closing day past the month's end breaks this (see the next row) |
| Calculator.DiasHastaCierreSaltaCierreDesbordado | calculator.js:68-73 | With closing day 31 in February 2025, the overflowed closing date (3 March) is skipped: 3 days on 28 February and 30 days on 1 March |
| Calculator.TotalGastosHoy | calculator.js:38 | Today's total is non-negative when every amount is |
| Calculator.TotalGastosHoyConcat | calculator.js:38 | Today's total of two lists joined is the sum of their totals |
| Calculator.DisponiblePorDia | calculator.js:35 | The allowance is 0 when no days remain. Otherwise it is NaN exactly when the limit is, times the days gives back the limit, and it is non-negative for a non-negative limit |
| Calculator.DeterminarEstado | calculator.js:89-99 | Danger iff today's amount is a number at or below 0. Ok only with more than 3 days left and, on numbers, with a positive amount of at least a tenth of the limit. With more than 3 days left, warning means below a tenth. A NaN amount gives ok iff more than 3 days are left, because every comparison with NaN is false |
| Calculator.CalculoConDias | calculator.js:29-44 | The unrounded result for a given number of days. The real limit is NaN exactly when month spend or installments is missing, and otherwise is `max(0, total - month - installments)`. The allowance times the days is the real limit. Today's amount is the allowance minus today's total, clamped at 0. The status follows `determinarEstado` |
| Calculator.CalculoExacto | calculator.js:31-32 | The engine's unrounded result takes its days from `calcularDiasHastaCierre`, always 1..31 for a valid closing day |
| Calculator.Redondeado | calculator.js:46-53 | The returned object keeps the days and the status, and each of the four amounts is the exact one rounded to cents, NaN staying NaN |
| Calculator.CalcularLimiteReal | calculator.js:16-54 | Throws iff the limit is missing or not positive, or the closing day is outside 1..31, with the limit error first. Otherwise it returns the unrounded result with every amount rounded to cents |
| Calculator.ValidacionPreviene | calculator.js:20-26 | A record that passes `validarDatos` never makes the engine throw; a throw implies a validation error; and both fail on the limit in exactly the same records |
| Calculator.MontosNoNegativos | calculator.js:29-50 | With every field present, the real limit is the rounded `max(0, total - month - installments)`, and the limit, the per-day allowance and today's amount are non-negative numbers |
| Calculator.CampoFaltanteDaNaN | calculator.js:29-44 | A record without month spend or installments passes validation. The engine then gives NaN amounts, and the status is warning or ok by the days rule alone, never danger |
| Calculator.MasGastoNoMejora | calculator.js:38-44 | Adding an expense raises today's total by its amount, never raises today's amount, and never improves the status |
| Calculator.Escenarios | calculator.js:16-54 | Scenario 50000 / 15000 / 5000, closing on the 20th, 5 days before closing. With no expense: 30000 real, 6000 a day, ok. After spending 5500: 500 left, warning. After spending 6500: 0 left, danger |
| Calculator.RedondeoTercio | calculator.js:49 | 10000 / 30 rounds to 333.33 |
| Calculator.EscenarioDiaUno | calculator.js:71-73 | Closing day 1 on 2 January 2025 rolls to 1 February: 30 days, 333.33 a day, warning |
| Calculator.LimiteCeroFalla | calculator.js:121-122 | A total limit of 0 fails both validation and the engine with the limit error |
| Server.ApiCalcular | server.js:21-39 | 400 with the validation error iff `validarDatos` fails; otherwise 200 with the engine's result; never 500 |
| Server.ConGasto | server.js:141-151 | After the push the record has a `gastosHoy` list, created when it was absent, one entry longer, ending with the new expense; no other field changes |
| Server.ConGastoAgregaAlFinal | server.js:141-151 | The new expense is the last entry and the earlier ones keep their order. Today's total rises by its amount and no other field changes |
| Server.Reseteado | server.js:180-181 | Month spend becomes 0 and today's list empty; limit, installments and closing day are kept |
| Server.ReseteoLiberaElLimite | server.js:180-181 | Resetting is idempotent and keeps a valid record valid. After a reset the engine gives the whole limit left after installments, and today's amount equals the per-day allowance |
| Server.Almacen.ApiEstado | server.js:82-116 | Not configured iff the record is missing or its limit is falsy. 500 iff the engine throws on the record. Otherwise the engine's result. The record is never changed |
| Server.Almacen.ApiGasto | server.js:119-168 | A missing or non-positive amount gives a 400 and a missing record gives a 400, with nothing changed. Otherwise the expense is appended and saved before the engine runs, so an engine throw answers 500 with the expense kept |
| Server.Almacen.ApiResetMes | server.js:171-196 | Without a record, 400 and nothing created; otherwise the record is reset as `Reseteado` and the success message returned |
| Server.GastoConservaValidez | server.js:151-157 | A valid record stays valid after an accepted expense, so the 500 after saving cannot happen on it |
| App.LocalConDias | app.js:122-146 | The real limit is `max(0, total - month - installments)`. The per-day amount is non-negative, is 0 with no days, and otherwise times the days gives back the clamped real limit |
| App.CalcularLocal | app.js:118-147 | The days come from the same rollover as the engine's, 1..31 for a valid closing day, and the amounts from `LocalConDias` |
| App.CalcularLocalComoElMotor | app.js:118-147 | On a complete record the engine accepts, the browser's copy gives the engine's unrounded real limit, days and per-day allowance |
| App.LocalComoMotorConDias | app.js:140-145 | The same agreement for any given number of days in 1..31 |
| App.ClaseDeEstado | app.js:183-196 | Danger iff nothing remains; warning iff something remains but less than a tenth of the real limit; success iff at least a tenth remains and it is above 0. The days are not looked at |
| App.ClaseFrenteAlMotor | app.js:186-195 | The page's status agrees with the engine's on danger. It differs exactly when 3 days or fewer remain with a positive amount of at least a tenth of the limit: success on the page, warning in the engine |
| App.RestanteEscrito | app.js:159-160 | The remaining amount as written: the result's `disponibleHoy` less today's total, whichever path the result came from |
| App.Restante | app.js:159-160 | The remaining amount as evidently intended: today's total comes off the local per-day amount only, and the server's `disponibleHoy` is shown as it is |
| App.ActualizarUI | app.js:152-178 | `updateUI` as written: the result's real limit and days, a remaining amount that plus today's total gives the result's `disponibleHoy` on both paths, and the status class of that amount |
| App.ActualizarUICorregido | app.js:152-178 | The corrected screen: the same as written on the local path, and the server's `disponibleHoy` as the remaining amount on the server path |
| App.ResultadoCliente | app.js:93-113 | The server's answer is used iff the server responds and the record passes validation, and then it is the engine's rounded result. Otherwise the local copy is used |
| App.RestanteNoDependeDelOrigen | app.js:159-160 | With the corrected remaining amount, the server path and the local path agree up to rounding: 0 from the server when the local amount is at or below 0, and otherwise the local amount rounded to cents |
| App.DobleDescuentoEnPantalla | app.js:159-160 | As written, with 5500 spent out of 6000 a day, the server leaves 500 (warning) but the page shows -5000 (danger) |
| App.RestanteSinTope | app.js:159-160 | The page's remaining amount is not clamped: 6500 spent out of 6000 a day shows -500 |
| App.GastoNegativoVaAlCalculoLocal | app.js:59-72 | A negative month spend passes the page's checks, is refused by the server with 400, and the page falls back to its local copy |
| App.InicioSplice | app.js:261 | The start of `splice` never lies past the end of the list, and an index inside the list is the start itself |
| App.TotalSinGasto | app.js:261 | Removing one expense lowers today's total by exactly its amount |
| App.Aplicacion.constructor | app.js:2-8 | The page starts with every amount 0, closing day 0 and no expenses |
| App.Aplicacion.HandleCalcular | app.js:57-88 | A missing or non-positive limit, and then a closing day outside 1..31, raise their alert with nothing changed. Otherwise the four inputs are stored, unparseable spend or installments as 0, and today's list is untouched. The screen is `ActualizarUI` (as written) of the client's result, and its remaining amount never exceeds the result's `disponibleHoy`. The expenses stay positive |
| App.Aplicacion.RegistrarGasto | app.js:201-216 | A missing or non-positive amount raises the alert with nothing changed. Otherwise the expense is appended last, today's total rises by its amount, and no other field changes |
| App.Aplicacion.EliminarGasto | app.js:258-264 | `splice(indice, 1)` removes the one expense at the start index and keeps the rest in order, lowering today's total by its amount. Past the end nothing is removed. No other field changes |
| WhatsappBot.ContieneEn | whatsapp-bot.js:111 | `includes` holds iff the phrase occurs at some position of the text |
| WhatsappBot.Responder | whatsapp-bot.js:356-445 | The wizard stops iff it posts a record. It posts only from the closing-day step, and then its data are cleared. Otherwise its data stay in order. An accepted limit is stored as given. An accepted month spend or installments count is stored as the number, or as 0 when the answer does not parse (`\|\| 0`) |
| WhatsappBot.Comando | whatsapp-bot.js:109-128 | The command table, with one iff per action. Each group of fixed words gives its action. The question anywhere in the text (`Contiene`, `includes`) gives today's amount. The "gasté "/"gaste " prefix (`EmpiezaCon`, `startsWith`) registers an expense unless the question is in the text. Anything else is not understood |
| WhatsappBot.Despachar | whatsapp-bot.js:86-128 | Ignored iff the message is filtered out (`Descartado`: sent by the bot itself, from a group or a broadcast, not a chat message, or empty once trimmed). It goes to the wizard iff it is kept and the wizard is running. Otherwise the action is the command table's |
| WhatsappBot.PalabrasDeComando | whatsapp-bot.js:109-122 | Every command word, sent as a plain chat message, gets its action |
| WhatsappBot.Comandos | whatsapp-bot.js:103-128 | While configuring, "configurar" goes to the wizard. "chau" is not understood, and neither is "gasté" without a space |
| WhatsappBot.PreguntaAntesQueGasto | whatsapp-bot.js:111-119 | A text that starts with "gasté " but contains "cuánto puedo gastar" is answered as the question |
| WhatsappBot.CorridaDigitos | whatsapp-bot.js:268 | `\d+` extends as far as the digits go: all digits up to the returned end, and a non-digit (or the end) there |
| WhatsappBot.CorridaEspacios | whatsapp-bot.js:268 | `\s+` extends over all the JavaScript white space from the position and stops at the first other character |
| WhatsappBot.CoincideEn | whatsapp-bot.js:268 | A match captures a non-empty run of digits and an all-digit fraction. It starts with "gasté" or "gaste", and at least one white-space character follows |
| WhatsappBot.Buscar | whatsapp-bot.js:268 | The match found is the one at the first position that matches: no earlier position matches. No match means no position matches |
| WhatsappBot.ValorDigitosCero | whatsapp-bot.js:274 | A run of digits is worth 0 iff every digit is '0' |
| WhatsappBot.ValorNumeralPositivo | whatsapp-bot.js:274-276 | A captured amount is non-negative, and positive iff some digit is not '0' |
| WhatsappBot.ValorNumeral | whatsapp-bot.js:274 | The amount read from the capture has the digits before the point as its whole part: it lies in [whole, whole + 1) |
| WhatsappBot.MontoDelMensaje | whatsapp-bot.js:265-279 | No amount iff nothing matches. An amount that is not positive iff every digit matched is '0'. Otherwise the positive value of the leftmost match is sent |
| WhatsappBot.MontoDelBotAceptado | whatsapp-bot.js:276-283 | Every amount the bot sends passes the server's own amount check |
| WhatsappBot.MontoDeLaPrimeraCoincidencia | whatsapp-bot.js:268-274 | A positive match at the start of the text is the amount sent |
| WhatsappBot.CoincideConEnteroFinal | whatsapp-bot.js:268 | After "gasté "/"gaste ", digits up to the end are captured whole, with no fraction |
| WhatsappBot.GasteEntero | whatsapp-bot.js:268-279 | Round trip: "gasté " followed by the decimal digits of any positive whole number sends exactly that number |
| WhatsappBot.CoincideConComa | whatsapp-bot.js:268 | "gaste 12,5" captures 12 and the fraction 5 |
| WhatsappBot.CoincideConSeparador | whatsapp-bot.js:268 | For either spelling, any non-empty white space, any digits, either separator `.` or `,`, any fraction digits and anything after them that is not a digit: the captures are exactly those digits and that fraction |
| WhatsappBot.GasteConComa | whatsapp-bot.js:274 | A comma works as the decimal point: "gaste 12,5" sends 12.5 |
| WhatsappBot.GasteCero | whatsapp-bot.js:276-279 | "gasté 0" is found and refused as not positive |
| WhatsappBot.GasteSinNumero | whatsapp-bot.js:269-272 | "gasté mucho" carries no amount |
| WhatsappBot.RespuestaAvanzaUnPaso | whatsapp-bot.js:357-394 | Before the closing day, an answer is either refused and changes nothing, or accepted and adds exactly one field. The wizard goes on with its data in order. The limit is refused iff missing or not positive, the others iff negative. An accepted limit is stored as given; an accepted month spend or installments count is stored as the number, or 0 when it does not parse |
| WhatsappBot.SinNumeroCuentaCero | whatsapp-bot.js:372-390 | Answers that do not parse at the month-spend and installments steps are stored as 0, and the wizard goes on |
| WhatsappBot.GuardadoEsValido | whatsapp-bot.js:395-445 | At the closing-day step, a post happens iff the day is a whole number in 1..31. A refused day keeps the wizard running with its data unchanged. The posted record is the collected fields with that day and an empty `gastosHoy`, it passes `validarDatos`, and the engine gives it a finite result. Only this step posts, and the wizard then ends with empty data |
| WhatsappBot.ConfiguracionCompleta | whatsapp-bot.js:356-403 | Answering 50000, 15000, 5000 and 20 posts the scenario's record and ends the wizard empty |
| WhatsappBot.Bot.constructor | whatsapp-bot.js:9-10 | The bot starts not configuring, with empty setup data |
| WhatsappBot.Bot.IniciarConfiguracion | whatsapp-bot.js:342-351 | The wizard starts at step 0 with empty data |
| WhatsappBot.Bot.ManejarConfiguracion | whatsapp-bot.js:356-448 | The globals become exactly the state `Responder` gives for the answer, and the wizard invariant is kept |
| WhatsappBot.Bot.AlRecibirMensaje | whatsapp-bot.js:77-133 | The action is `Despachar` of the message. The wizard runs or starts only on its two actions. Every other action leaves the globals unchanged |

## Left out

- `formatCurrency` (calculator.js:106-113 and its copy in app.js): it uses locale formatting through `Intl.NumberFormat`. The screen holds amounts, not text.
- The file I/O of server.js: reading, parsing and writing `data/user-data.json`, `mkdir`, and the `/api/user-data` routes. A read error other than a missing file becomes a 500; that path is not modelled. The stored record is the field `Almacen.registro`.
- Routing, static files and the server start-up.
- The page's network and browser side: `fetch`, `saveUserData` and `loadUserData`, which also reassigns `userData` from the server or `localStorage`. Also left out: the DOM, `alert`, `showNotification`, the rendering of the history list, and clearing the input.
  - Whether the server answered is the parameter `servidorResponde`.
  - An alert is a returned message.
- The screen refresh after adding or deleting an expense. It is `ActualizarUI` on the local result; the methods do not return it.
- `parseFloat`/`parseInt` of text inputs and wizard answers. They arrive already parsed, with `None` for NaN.
  - `Server.Almacen.ApiGasto` takes the amount as a number. A numeric string in the request is not modelled.
- JSON field values of other types (`null`, strings, booleans), and an expense whose `monto` is NaN.
  - A missing field is modelled.
  - `gasto.monto || 0` gives 0 for a missing amount.
- A fractional closing day: the model takes `diaCierre` as a whole number.
- IEEE-754 doubles: amounts are exact reals, so binary rounding error and infinities are not modelled. `Math.round` is modelled exactly, halves rounding up.
- Time zones and daylight saving. `hoy` is the local calendar date and time of day, and every day is 86,400,000 ms.
- `Calculator.CalcularDiasHastaCierre`: a missing closing day is not modelled, because every caller has rejected it first.
- The engine's 500 in `/api/calcular` (server.js:35-37). After validation it cannot happen, so `Server.ApiCalcular` proves it never does rather than modelling a message for it.
- The rest of the bot: the WhatsApp client and its events, QR login, the message texts, `enviarMensajeSeguro`, `esErrorDeConexion`, and the HTTP calls behind `mostrarDisponibleHoy`, `mostrarResumen`, `resetearMes` and the wizard's post.
  - `mostrarDisponibleHoy` and `mostrarResumen` call `/api/estado`, `registrarGasto` calls `/api/gasto`, and `resetearMes` calls `/api/reset-mes`. Those handlers are modelled in `Server`.
  - The wizard's save goes to `/api/user-data`, whose handler is not modelled (see above), and then to `/api/calcular` (`Server.ApiCalcular`).
  - A save that fails and a save that succeeds end the wizard the same way, as long as the bot's reply can be sent.
- `WhatsappBot.Responder`: does not model a reply that cannot be sent. `enviarMensajeSeguro` rethrows (whatsapp-bot.js:166-172). If the reply in the save's `catch` also fails, lines 444-445 never run. The wizard then stays running with five collected fields, a step that no branch of `manejarConfiguracion` handles, so it changes nothing on any later answer. The model assumes every reply is delivered, so the wizard always ends after the closing day.
- `trim()` and `toLowerCase()` on a message body: `Mensaje.texto` is given already normalised, and Unicode case mapping is not modelled.
- Concurrency: interleaved requests to the server, and messages that arrive while an earlier one is still being answered.

## Findings

| source | as written | input that shows it | evidently intended | confidence | as-written member | corrected member |
|---|---|---|---|---|---|---|
| app.js:158-160 | `updateUI` takes today's expenses off `disponibleHoy` whatever the result's origin, but the server's `disponibleHoy` (calculator.js:41) already has them taken off | Server up; limit 50000, month spend 15000, installments 5000, closing day 20, on 15 June, one expense of 5500. The server answers 500 left (warning), and the page shows -5000 (danger) | Take today's expenses off only the local result, so both paths show the same amount up to rounding | medium; not executed | App.RestanteEscrito, App.ActualizarUI, App.DobleDescuentoEnPantalla | App.Restante, App.ActualizarUICorregido, App.RestanteNoDependeDelOrigen |

`App.ActualizarUI` and `App.Aplicacion.HandleCalcular` model the page as written,
so on the server path they show the amount with today's expenses taken off twice.
`App.ActualizarUICorregido` is the corrected screen.

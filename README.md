# Patrol and incident rules of a condominium security back office

This project is a Dafny model of the rule-bearing core of a Flask and
TypeScript back office for condominium security teams. It covers patrols
("rondas"), sporadic patrols ("rondas esporádicas"), their consolidation into
a shift report, and incident reports ("ocorrências"). The model covers:

- the in-memory patrol stores of the mock API (`api/ronda_esporadica_routes.py`,
  `api/ronda_routes.py`, `api/ronda_esporadica_consolidacao_routes.py`),
  as classes over a `seq` of records whose methods are the routes: start,
  finish, update, list of the day, consolidation, bulk "processada" marking;
- the database-backed twins (`blueprints/api/*.py`) as classes or functions
  over a table of rows, with the listing order, the statistics by turno and
  by date, and the consolidation status counters;
- calendar arithmetic: proleptic Gregorian dates with their ordinal day
  numbers, `timedelta` by one day, CPython's `strptime` for "%Y-%m-%d" and
  "%H:%M", `strftime` renderings, and the day/night shift windows of the
  WhatsApp upload (`blueprints/ronda/routes.py`);
- the admin dashboard's period helpers, the e-mail report assembler and the
  justification dispatcher, and the user-account flag toggles;
- the occurrence-report field extraction (leftmost `re.search` of the "Data:",
  "Hora:", "Local:" and "Responsável pelo registro:" lines), the turno rule,
  the approve/reject transitions and the edit permission;
- the client services: the WhatsApp text of a shift's rondas, the ±30-minute
  entry-time check and the start-then-finish save.

The current time, the database's auto-increment, the WhatsApp log processor,
the AI and classifier services and every other foreign service are parameters
of the members that use them. HTTP answers are modelled as status code,
message and the state change they imply.

## Model

| member | source | states |
|---|---|---|
| Common.Strip | blueprints/admin/routes_tools.py:167 | `str.strip()`: empty exactly for an all-whitespace text, otherwise neither end is whitespace |
| Common.StripSlice | blueprints/admin/routes_tools.py:167 | the stripped text is the slice after the leading whitespace, and only whitespace follows it |
| Common.StripKeeps | blueprints/api/ocorrencia_routes.py:47 | every character of the stripped text comes from the input, so a property of all input characters survives |
| Common.StripUnchanged | blueprints/api/ronda_esporadica_routes.py:52 | a text with non-blank ends is its own strip |
| Common.PyInt | blueprints/api/ronda_esporadica_routes.py:52 | `int(text)` succeeds only on a non-empty stripped numeral |
| Common.PyIntNumeral | blueprints/api/ronda_esporadica_routes.py:52 | a run of digits parses to its decimal value |
| Common.PyIntNegativeNumeral | blueprints/api/ronda_esporadica_routes.py:52 | a minus sign and digits parse to the negated value |
| Common.PyIntIntToString | blueprints/api/ronda_esporadica_routes.py:52 | `int(str(n)) == n` for every integer |
| Common.NatToStringValue | blueprints/api/ronda_esporadica_routes.py:184 | the decimal rendering of a natural is a non-empty digit string whose value is that natural |
| Common.JoinSplit | blueprints/admin/routes_dashboard.py:425 | joining the pieces of a split with the separator gives back the text |
| Common.SplitAfterChar | blueprints/admin/routes_dashboard.py:425 | a text without the separator followed by the separator is the first piece of the split |
| Common.TruncDiv | api/ronda_routes.py:159-160 | `int(a / b)` for a positive divisor: the quotient truncated toward zero, bracketed by multiples of the divisor |
| Common.LexLeqFirstDifference | api/ronda_esporadica_consolidacao_routes.py:107 | Python's string order is decided at the first differing character |
| Common.FilterKeeps | api/ronda_esporadica_consolidacao_routes.py:105-107 | a list comprehension with a condition keeps exactly the elements satisfying it, in order |
| Common.EnviarCada | blueprints/ronda/routes.py:476-510 | sending each element of a list to a service returns the mapped values in order and counts the successes |
| Calendar.DaysInMonth | blueprints/admin/routes_dashboard.py:48-52 | a month has 28 to 31 days, and 29 exactly for February of a leap year |
| Calendar.NextDay | blueprints/ronda/routes.py:134 | `date + timedelta(days=1)`: the next valid date, one ordinal later, overflowing only after 9999-12-31 |
| Calendar.PrevDay | blueprints/admin/routes_dashboard.py:52 | `date - timedelta(days=1)`: the previous valid date, one ordinal earlier, overflowing only before 0001-01-01 |
| Calendar.OrdinalOrder | blueprints/api/ronda_esporadica_routes.py:137-140 | ordinals number dates in chronological order without gaps or repeats |
| Calendar.FormatIso | blueprints/api/ronda_esporadica_routes.py:94 | `isoformat()` writes ten characters |
| Calendar.IsoOrderIsDateOrder | api/ronda_esporadica_consolidacao_routes.py:107 | comparing two ISO date strings compares the dates they write |
| Calendar.StrptimeIsoDate | blueprints/api/ronda_esporadica_routes.py:62 | `strptime(s, "%Y-%m-%d")` yields only valid dates |
| Calendar.StrptimeIsoDateRoundTrip | blueprints/api/ronda_esporadica_routes.py:62 | every valid date is read back from its ISO rendering |
| Calendar.FormatBr | blueprints/admin/routes_dashboard.py:76 | `strftime("%d/%m/%Y")` writes ten characters |
| Calendar.FormatHourMinute | blueprints/api/ronda_esporadica_routes.py:230 | `strftime("%H:%M")` writes five characters |
| Calendar.StrptimeHourMinute | blueprints/api/ronda_esporadica_routes.py:219 | `strptime(s, "%H:%M")` yields a minute of the day |
| Calendar.StrptimeHourMinuteRoundTrip | blueprints/api/ronda_esporadica_routes.py:219 | every minute of the day is read back from its "%H:%M" rendering |
| Calendar.StrptimeHourMinuteShortForm | blueprints/api/ronda_esporadica_routes.py:219 | single-digit fields are accepted; hour 24, minute 60 and a leading space are refused |
| Common.Lower | blueprints/ronda/routes.py:428 | `str.lower()` keeps the length and lowers each character on its own |
| Common.Pad2 | blueprints/api/ronda_esporadica_routes.py:230 | two-digit zero-padded numeral (`%H`, `%M`, `%d`, `%m`) whose digits read back as the number |
| Common.Filter | api/ronda_esporadica_consolidacao_routes.py:105-107 | a list comprehension with a condition: as many elements as satisfy it, each from the input and satisfying it |
| Calendar.DaysBeforeNextYear | blueprints/ronda/routes.py:134 | consecutive New Year's days are a year's length apart: 366 days in a leap year, 365 otherwise |
| Calendar.MonthToken | blueprints/api/ronda_esporadica_routes.py:62 | strptime's `%m` yields a month from 1 to 12 of one or two characters |
| Calendar.DayToken | blueprints/api/ronda_esporadica_routes.py:62 | strptime's `%d` yields a day from 1 to 31 of one or two characters |
| Calendar.HourToken | blueprints/api/ronda_esporadica_routes.py:219 | strptime's `%H` yields an hour from 0 to 23 of one or two characters |
| Calendar.MinuteToken | blueprints/api/ronda_esporadica_routes.py:219 | strptime's `%M` yields a minute from 0 to 59 of one or two characters |
| AdminTools.Saudacao | blueprints/admin/routes_tools.py:169-177 | a custom greeting that is not blank wins, stripped; a blank or absent one gives the default only when requested |
| AdminTools.Despedida | blueprints/admin/routes_tools.py:171-184 | the same precedence for the closing: stripped non-blank custom text, else the default when requested, else nothing |
| AdminTools.JoinFecho | blueprints/admin/routes_tools.py:178-185 | joining the report and the closing parts with newlines puts one empty line before the closing only when the report is not blank |
| AdminTools.JoinLayout | blueprints/admin/routes_tools.py:172-185 | the newline join of all parts is the greeting block, the report, then the closing block, in that order |
| AdminTools.AppendAbertura | blueprints/admin/routes_tools.py:168-177 | the greeting steps leave exactly the greeting followed by one empty part, or nothing |
| AdminTools.AppendFecho | blueprints/admin/routes_tools.py:178-184 | the closing steps append an empty part (non-blank report only) and the chosen closing to the list |
| AdminTools.FormatEmailReport | blueprints/admin/routes_tools.py:164-185 | the formatted report is greeting block + raw report + closing block, and is the raw report itself when neither is present |
| AdminTools.ProcessarJustificativa | blueprints/admin/routes_tools.py:105-145 | no body gives 400 "Dados não fornecidos."; a falsy type or non-object data gives 400 "Dados inválidos."; success exactly for the two known types, each calling its own generator; any other type gives 400 naming it |
| UserAdmin.ApproveIdempotent | blueprints/admin/routes_user.py:37-43 | approval sets only the approved flag, and approving an approved account changes nothing |
| UserAdmin.SelfGuards | blueprints/admin/routes_user.py:52-58 | revoking and both toggles leave the caller's own account unchanged |
| UserAdmin.AdminToggleEffect | blueprints/admin/routes_user.py:67-74 | toggling admin flips the admin flag only, approving a newly promoted account and keeping approval otherwise |
| UserAdmin.SupervisorToggleEffect | blueprints/admin/routes_user.py:96-100 | toggling supervisor flips the supervisor flag only, approving a newly promoted account and keeping approval otherwise |
| UserAdmin.OnlyRevokeClearsApproval | blueprints/admin/routes_user.py:37-106 | on an approved account, approval and both toggles keep it approved; revoking clears it exactly when it is another user's account |
| UserAdmin.ToggleTwice | blueprints/admin/routes_user.py:67-100 | toggling twice restores the flag and leaves the account approved |
| UserAdmin.UserTable.Approve | blueprints/admin/routes_user.py:37-43 | unknown id gives 404 with no change; otherwise 302 with the account approved, flashing success only when it was not approved |
| UserAdmin.UserTable.Revoke | blueprints/admin/routes_user.py:49-58 | unknown id gives 404; one's own account is refused with a danger flash; another approved account is revoked with a success flash |
| UserAdmin.UserTable.ToggleAdmin | blueprints/admin/routes_user.py:64-82 | unknown id gives 404; one's own account is refused with a warning; otherwise the account becomes its admin-toggled value, and the flashes are the "também foi aprovado automaticamente" info exactly when a non-approved account is promoted, followed by the "promovido a" or "rebaixado de administrador" success |
| UserAdmin.UserTable.ToggleSupervisor | blueprints/admin/routes_user.py:88-106 | the same for the supervisor flag, with the self check first: the info flash exactly when a non-approved account is promoted, then the "promovido a" or "rebaixado de supervisor" success |
| UserAdmin.DeleteUser | blueprints/admin/routes_user.py:112-126 | the deletion service is called exactly when the account is not one's own; its message is flashed as success or danger by its outcome |
| Dashboard.LastDayIsDayBeforeNextMonth | blueprints/admin/routes_dashboard.py:49-52 | the first of the next month minus one day is the last day of the month, for every month but December |
| Dashboard.DateRangeFromMonth | blueprints/admin/routes_dashboard.py:43-55 | a range exists exactly for a truthy month in 1..12 of a year `datetime` accepts; it runs from the first to the last day of that month, in ISO form |
| Dashboard.DateRangeFromMonthOrdered | blueprints/admin/routes_dashboard.py:43-55 | both ends read back as the first and last day of the month, and the start string is not after the end string |
| Dashboard.PeriodDescription | blueprints/admin/routes_dashboard.py:58-83 | month and year give "Referente a <month> de <year>"; otherwise two dates give the single-day or the from/to text, or the custom-period text when one does not parse; otherwise the current month |
| Dashboard.UnpaddedIsoDate | blueprints/admin/routes_dashboard.py:73-74 | strptime reads an unpadded and a padded ISO text of the same day as the same date |
| Dashboard.SameDayWrittenTwoWays | blueprints/admin/routes_dashboard.py:73-76 | two different texts of one day describe a single day, because parsed dates are compared |
| Dashboard.MonthsOfYear | blueprints/admin/routes_dashboard.py:86-96 | twelve entries, month i+1 at position i with its name |
| Dashboard.PeriodFilters.ApplyMonth | blueprints/admin/routes_dashboard.py:138-146 | a truthy month fills both dates only when neither date was given; a month without a range flashes the error and, in the dashboard routes, clears the month |
| Dashboard.FilledRangeIsMonth | blueprints/admin/routes_dashboard.py:138-143 | dates filled from a month parse and are in chronological order |
| Dashboard.ParseAll | blueprints/admin/routes_dashboard.py:425 | every part parses exactly when the result exists, and then holds each part's value in order |
| Dashboard.SelectedMonths | blueprints/admin/routes_dashboard.py:416-427 | only months 1..12 are selected: the one month in single mode, the parsed parts in comparison mode (none if a part is not an integer), nothing in any other mode |
| Dashboard.SelectedMonthsKeepsOrder | blueprints/admin/routes_dashboard.py:425 | filtering a concatenation is concatenating the filtered parts, so the order of the parts is kept |
| Dashboard.SelectedMonthsComplete | blueprints/admin/routes_dashboard.py:425 | every parsed value in 1..12 is selected |
| Dashboard.CleanFilters | blueprints/admin/routes_dashboard.py:440 | an entry is kept exactly when its value is neither None nor "" (0 is kept) |
| DbConsolidacao.StatusConsolidacao | blueprints/api/ronda_esporadica_consolidacao_routes.py:136-191 | the 500, its message starting with "Erro ao verificar status: ", exactly for a date strptime refuses; otherwise the day's count, finished and processed counts (never more than the total), the duration sum, whether the day's main ronda exists with its id, and "can consolidate" exactly when some ronda of the day is finished |
| DbConsolidacao.DuracaoSemValorNaoConta | blueprints/api/ronda_esporadica_consolidacao_routes.py:163 | summing `duracao_minutos or 0` equals summing over the rondas that have a duration |
| DbConsolidacao.ValidarPeriodo | blueprints/api/ronda_esporadica_consolidacao_routes.py:63-78 | a missing date gives 400 "obrigatórias", a date strptime refuses gives 400 "Formato de data inválido"; success exactly when both dates parse, holding both parsed dates |
| DbConsolidacao.ProcessoCompleto | blueprints/api/ronda_esporadica_consolidacao_routes.py:96-130 | a bad date gives exactly the 500 (message starting with the route's prefix) and no call; otherwise consolidation is called first, a failed consolidation gives 404, and marking is called exactly when consolidation succeeded and sent the message; the summary carries the consolidation, its total, duration, sent flag and main ronda id, and `rondas_processadas` is whether the message was sent and marking succeeded |
| DbRonda.FindActiveSameDay | blueprints/api/ronda_routes.py:77-81 | the index found holds an in-progress ronda of that condominium and date; none found means there is none |
| DbRonda.FindById | blueprints/api/ronda_routes.py:175 | the index found holds that id; none found means no row has it |
| DbRonda.SameDayConflictIsAnyDayConflict | blueprints/api/ronda_routes.py:127-134 | whenever the table refuses a start because of a ronda in progress that day, the in-memory rule (any day) refuses too |
| DbRonda.AnyDayConflictNotSameDay | blueprints/api/ronda_routes.py:127-134 | the converse fails: a ronda open on the 1st does not stop a start on the 2nd in the table |
| DbRonda.NewRow | blueprints/api/ronda_routes.py:117-148 | the new row is in progress, on the parsed date, with the default shift and user when the body leaves them out |
| DbRonda.RondaTable.VerificarEmAndamento | blueprints/api/ronda_routes.py:66-100 | a missing date gives 400 and an unparsable one the 500 whose message starts with "Erro ao verificar ronda em andamento: "; success exactly for a date strptime accepts, with an in-progress ronda of that condominium and date when one exists, and none exactly when no row matches |
| DbRonda.RondaTable.Iniciar | blueprints/api/ronda_routes.py:106-160 | the 400 and 500 error cases (the 500 message starts with "Erro ao iniciar ronda: ") leave the table unchanged; success exactly when the body is present, has its required fields, a date strptime accepts and no ronda in progress that day; success appends the new row with the next id, keeping ids distinct and at most one ronda in progress per condominium and date |
| DbRonda.RondaTable.Finalizar | blueprints/api/ronda_routes.py:166-199 | no body gives 400, an unknown id 404; success exactly for a body and a known id, and then only that row changes: the log keys present are copied and it is finished with its end time |
| DbRonda.RondaTable.Atualizar | blueprints/api/ronda_routes.py:205-235 | as finishing, with success exactly for a body and a known id, but only the log keys present are copied and the status is kept |
| DbRondaEsporadica.Insert | blueprints/api/ronda_esporadica_routes.py:78 | inserting one row adds exactly that row to the multiset of rows |
| DbRondaEsporadica.InsertSorted | blueprints/api/ronda_esporadica_routes.py:78 | inserting into a list ordered most recent first (date desc, entry time desc) keeps it ordered |
| DbRondaEsporadica.SortDesc | blueprints/api/ronda_esporadica_routes.py:78 | the result is a permutation of the input ordered by `data_plantao DESC, hora_entrada DESC` |
| DbRondaEsporadica.ListarExecutadas | blueprints/api/ronda_esporadica_routes.py:39-121 | each 400 (missing `condominio_id`, non-integer `condominio_id`, bad `data_inicio`, bad `data_fim`) happens exactly when its check is the first to fail, and success exactly when none fails; a success lists a permutation of the condominium's finished rondas within the given bounds, most recent first |
| DbRondaEsporadica.ExecutadasExact | blueprints/api/ronda_esporadica_routes.py:73-78 | a ronda is listed if and only if it is in the table, belongs to the condominium, is finished and lies within the bounds |
| DbRondaEsporadica.KeyIndex | blueprints/api/ronda_esporadica_routes.py:157 | `key in dict`: the index found holds the key, and no index is found only when no entry has the key |
| DbRondaEsporadica.AddToKeys | blueprints/api/ronda_esporadica_routes.py:155-160 | one step of the grouping loop keeps the keys distinct and adds exactly the ronda's key |
| DbRondaEsporadica.AddToSums | blueprints/api/ronda_esporadica_routes.py:159-160 | one step adds one to the sum of the totals and the ronda's duration to the sum of the durations |
| DbRondaEsporadica.GroupedSums | blueprints/api/ronda_esporadica_routes.py:153-169 | the grouping has one entry per distinct key met, its totals add up to the number of rondas and its durations to their total duration |
| DbRondaEsporadica.PairKeysSnoc | blueprints/api/ronda_esporadica_routes.py:155-157 | the keys met in one more ronda are the earlier keys plus that ronda's key |
| DbRondaEsporadica.GroupTotals | blueprints/api/ronda_esporadica_routes.py:154-169 | the loop that creates a missing entry at zero and then adds one ronda builds the grouping that `GroupedSums` describes |
| DbRondaEsporadica.FormatDuracao | blueprints/api/ronda_esporadica_routes.py:183 | the text is `<h>h <m>min` with `0 <= m < 60` and `60*h + m` equal to the minutes, as Python's `//` and `%` by 60 give |
| DbRondaEsporadica.Dias | blueprints/api/ronda_esporadica_routes.py:175 | the day count is at least one exactly when the start is not after the end, and one exactly when both dates are the same |
| DbRondaEsporadica.ObterEstatisticas | blueprints/api/ronda_esporadica_routes.py:127-197 | a missing date gives 400 and a date strptime refuses gives the 500, whose message starts with "Erro ao obter estatísticas: ", each exactly when that check fails first; success exactly when both dates parse, and then the period's statistics are those `Calcular` states |
| DbRondaEsporadica.Calcular | blueprints/api/ronda_esporadica_routes.py:140-188 | the day count; the number of the condominium's rondas in the period; the finished count equal to the number of finished rondas and the in-progress count the rest; the duration sum and its formatting; the by-turno and by-date groupings have exactly the keys met, and each key's total and duration are the count and duration sum of the rondas with that key |
| DbRondaEsporadica.GroupedEntries | blueprints/api/ronda_esporadica_routes.py:153-169 | each entry of a grouping holds exactly the number of rondas with its key and the sum of their durations |
| DbRondaEsporadica.KeyAbsent | blueprints/api/ronda_esporadica_routes.py:155-157 | a key no ronda has counts no ronda and no duration |
| DbRondaEsporadica.PairSums | blueprints/api/ronda_esporadica_routes.py:150-169 | summing `duracao_minutos or 0` through the (key, duration) pairs gives the same total as summing over the rondas |
| DbRondaEsporadica.ValidarIniciar | blueprints/api/ronda_esporadica_routes.py:281-301 | no body gives 400 "Dados não fornecidos.", a falsy required field gives 400 "Todos os campos obrigatórios…", a date or time strptime refuses gives 400 "Formato de data ou hora inválido."; a success carries the parsed date and minute and the body's other fields unchanged |
| DbRondaEsporadica.ValidarHora | blueprints/api/ronda_esporadica_routes.py:207-221 | no body gives 400, a missing time gives the route's "obrigatória" message, a time strptime refuses gives 400 "Formato de hora inválido"; a success is the parsed minute of the day, below 1440 |
| MockRondaEsporadica.FindActive | api/ronda_esporadica_routes.py:118-121 | the index found holds a ronda in progress of that condominium and date; none found means no such ronda is in progress |
| MockRondaEsporadica.FindById | api/ronda_esporadica_routes.py:172 | the index found holds the id; none found means no ronda has it |
| MockRondaEsporadica.FindByIdPositions | api/ronda_esporadica_routes.py:128 | on a store whose ids are `len + 1` at each append, id n is found exactly when 1 <= n <= length, at position n - 1 |
| MockRondaEsporadica.DoDia | api/ronda_esporadica_routes.py:234-236 | every ronda listed is in the store and belongs to the condominium and date |
| MockRondaEsporadica.DoDiaComplete | api/ronda_esporadica_routes.py:234-236 | every ronda of the store for the condominium and date is listed |
| MockRondaEsporadica.ValidarHorarioEntrada | api/ronda_esporadica_routes.py:18-55 | no body gives 400 "Dados não fornecidos.", a missing time 400 "obrigatória", a time strptime refuses 400 "Formato de hora inválido"; success exactly when none of these applies, and then the time is valid exactly when it is within 30 minutes of now, both read as minutes since midnight, and the message is "Horário válido" when valid and "Horário muito diferente do atual" otherwise |
| MockRondaEsporadica.ValidarHorarioNoMidnightWrap | api/ronda_esporadica_routes.py:40-44 | there is no wrap-around at midnight: "23:50" is refused at 00:05 |
| MockRondaEsporadica.BlockInOrder | api/ronda_esporadica_routes.py:286-294 | the report holds the block of the i-th ronda right after the blocks of the rondas before it |
| MockRondaEsporadica.BuildConsolidatedReport | api/ronda_esporadica_routes.py:277-294 | the `+=` loop yields the heading followed by one block per ronda in list order |
| MockRondaEsporadica.RondaEsporadicaStore.EmAndamento | api/ronda_esporadica_routes.py:60-91 | a missing date gives 400 and success exactly otherwise; a ronda answered is in the store, in progress, of that condominium and date; no answer means none of them is in progress |
| MockRondaEsporadica.RondaEsporadicaStore.Iniciar | api/ronda_esporadica_routes.py:96-152 | no body, a falsy required field and a ronda already in progress for the condominium and date each give their 400 and leave the store unchanged; success exactly when none applies, and then exactly one record is appended, in progress, with id = old length + 1; ids stay 1..n and at most one ronda per condominium and date is in progress |
| MockRondaEsporadica.RondaEsporadicaStore.Finalizar | api/ronda_esporadica_routes.py:157-192 | no body or no exit time gives 400, an unknown id 404, a ronda not in progress 400, each with the store unchanged; success exactly when none applies, and then only that ronda changes: exit time, status `finalizada`, observations kept when the body omits them, modification time |
| MockRondaEsporadica.RondaEsporadicaStore.Atualizar | api/ronda_esporadica_routes.py:197-225 | no body gives 400 and an unknown id 404, store unchanged; success exactly when there is a body and the id is known, and then only that ronda's observations (when given) and modification time change |
| MockRondaEsporadica.RondaEsporadicaStore.ListarDoDia | api/ronda_esporadica_routes.py:230-258 | the loop lists exactly the rondas of the condominium and date, in store order |
| MockRondaEsporadica.RondaEsporadicaStore.ConsolidarTurno | api/ronda_esporadica_routes.py:263-305 | 404 exactly when the day has no ronda and success exactly otherwise; the total is the day's number of rondas and the report is the heading and one block per ronda in store order |
| MockRondaEsporadica.RondaEsporadicaStore.Detalhe | api/ronda_esporadica_routes.py:310-328 | found exactly when 1 <= id <= length, and then it is the ronda at position id - 1; otherwise 404 "Ronda não encontrada." |
| MockRondaEsporadica.AppendKeepsInvariants | api/ronda_esporadica_routes.py:118-143 | appending a ronda with id length + 1 when none of its day is in progress keeps ids as positions and at most one active ronda per condominium and date |
| MockRondaEsporadica.UpdateKeepsInvariants | api/ronda_esporadica_routes.py:180-217 | changing a ronda in place without changing its id, condominium or date, and without making it active, keeps both invariants |
| MockRonda.FindActive | api/ronda_routes.py:99 | the index found holds a ronda in progress of the condominium, whatever its date; none found means the condominium has no ronda in progress |
| MockRonda.FindById | api/ronda_routes.py:141 | the index found holds the id; none found means no ronda has it |
| MockRonda.FindByIdPositions | api/ronda_routes.py:106 | on a store whose ids are `len + 1` at each append, id n is found exactly when 1 <= n <= length, at position n - 1 |
| MockRonda.DoDia | api/ronda_routes.py:25 | every ronda selected is in the store and belongs to the condominium and date |
| MockRonda.DoDiaComplete | api/ronda_routes.py:25 | every ronda of the store for the condominium and date is selected |
| MockRonda.DurationMinutes | api/ronda_routes.py:157-160 | `int(seconds / 60)` truncates toward zero: non-negative and within the minute below for a forward clock, non-positive and within the minute above for a clock that went backwards |
| MockRonda.NewRonda | api/ronda_routes.py:104-118 | the new record is in progress with the body's condominium and date, escala "06h às 18h" and supervisor 1 when those keys are absent, a log that starts with "Início de ronda: ", and no end, duration or observations |
| MockRonda.FinishedExtendsLog | api/ronda_routes.py:149-160 | finishing keeps the old log as a prefix of the new one, leaves the ronda not in progress and gives it a duration |
| MockRonda.BlockInOrder | api/ronda_routes.py:230-239 | the report holds the block of the i-th ronda right after the blocks of the rondas before it |
| MockRonda.RondaStore.EmAndamento | api/ronda_routes.py:55-76 | the ronda answered is in progress and of the condominium; none means the condominium has no ronda in progress |
| MockRonda.RondaStore.ListarDoDia | api/ronda_routes.py:18-50 | a date `strptime("%Y-%m-%d")` refuses gives the 500 exactly; otherwise the loop lists the day's rondas in store order |
| MockRonda.RondaStore.Iniciar | api/ronda_routes.py:81-129 | no body, a missing condominium or date, and a ronda already in progress for the condominium (any date) each give their 400 and leave the store unchanged; success exactly when none applies, and then exactly one new record is appended with id = old length + 1; ids stay 1..n and at most one ronda per condominium is in progress |
| MockRonda.RondaStore.Finalizar | api/ronda_routes.py:134-169 | unknown id gives 404 and a ronda not in progress 400, store unchanged; success exactly for a known ronda in progress, and then only that ronda changes: status `finalizada`, end instant, log extended (old log a prefix), duration stored and returned as the truncated minutes since its start |
| MockRonda.RondaStore.Atualizar | api/ronda_routes.py:174-204 | no body gives 400 and an unknown id 404, store unchanged; success exactly when there is a body and the id is known, and then only that ronda's log and observations (when given) and modification time change |
| MockRonda.RondaStore.GerarRelatorio | api/ronda_routes.py:209-248 | 404 exactly when the day has no ronda and success exactly otherwise, with the heading and one block per ronda of the day in store order |
| MockRonda.RondaStore.Detalhe | api/ronda_routes.py:272-290 | found exactly when 1 <= id <= length, and then it is the ronda at position id - 1; otherwise 404 |
| MockConsolidacao.UrlTextIsBlankFree | api/ronda_esporadica_consolidacao_routes.py:48 | after `replace(' ', '%20').replace('\n', '%0A')` the text holds no space and no line break, and every other character of the report survives |
| MockConsolidacao.MarkDay | api/ronda_esporadica_consolidacao_routes.py:79-81 | the loop leaves the store the same length, each ronda marked by the per-ronda rule |
| MockConsolidacao.MarkDayEffect | api/ronda_esporadica_consolidacao_routes.py:79-81 | every ronda of the day gets `processada` and a new modification time and nothing else; every other ronda is unchanged |
| MockConsolidacao.MarkDayIdempotent | api/ronda_esporadica_consolidacao_routes.py:79-81 | marking twice equals marking once with the later time: no flag changes on the second call |
| MockConsolidacao.MarkDayKeepsInvariants | api/ronda_esporadica_consolidacao_routes.py:79-81 | marking keeps ids as positions and at most one ronda in progress per condominium and date |
| MockConsolidacao.MarkDayKeepsDay | api/ronda_esporadica_consolidacao_routes.py:171-182 | after marking, the day has as many rondas as before and every one of them is processed |
| MockConsolidacao.MarcarProcessadas | api/ronda_esporadica_consolidacao_routes.py:65-89 | 404 exactly when the day has no ronda, store unchanged; otherwise the store becomes the marked store |
| MockConsolidacao.ConsolidarEEnviar | api/ronda_esporadica_consolidacao_routes.py:14-60 | 404 exactly when the day has no ronda and success exactly otherwise; the heading and one block per ronda in store order, the day's count, the date and the link made from that report; the store is not modified |
| MockConsolidacao.ProcessoCompleto | api/ronda_esporadica_consolidacao_routes.py:134-186 | 404 exactly when the day has no ronda, store unchanged; otherwise the report is built from the store before marking, every ronda of the day is then processed, and `processadas` equals the day's number of rondas |
| MockConsolidacao.StatusOf | api/ronda_esporadica_consolidacao_routes.py:202-213 | total is the day's count; finished, processed and in-progress counts are the numbers of the day's rondas that are finished, processed and in progress; `pode_consolidar` exactly when some ronda is finished; `pode_processar` exactly when some finished ronda is not processed; the date and condominium are echoed |
| MockConsolidacao.StatusPodeProcessar | api/ronda_esporadica_consolidacao_routes.py:213 | `not all(processada for finished rondas)` holds exactly when some finished ronda is not processed |
| MockConsolidacao.StatusConsolidacao | api/ronda_esporadica_consolidacao_routes.py:191-224 | 404 exactly when the day has no ronda and success exactly otherwise, with the status of the day's rondas |
| MockConsolidacao.ObterEstatisticas | api/ronda_esporadica_consolidacao_routes.py:94-129 | a missing date gives 400 and success exactly otherwise; the total is the number of the condominium's rondas whose date string lies between the bounds, the finished and processed counts are the numbers of those rondas that are finished and processed, and the period reads "<inicio> a <fim>" |
| MockConsolidacao.InPeriodIsoDates | api/ronda_esporadica_consolidacao_routes.py:105-107 | when bounds and date are all written "%Y-%m-%d", the string comparison selects exactly the dates within the calendar range |
| MockConsolidacao.UnpaddedDateOutOfRange | api/ronda_esporadica_consolidacao_routes.py:105-107 | a date written without zero padding ("2024-9-15") does not compare below "2024-09-30" |
| ReportExtraction.ReplaceNbsp | blueprints/ocorrencia/routes.py:384 | same length; each non-breaking space becomes a space and every other character stays |
| ReportExtraction.CleanText | blueprints/ocorrencia/routes.py:384 | the cleaned text is the strip of the report with non-breaking spaces replaced; it holds no non-breaking space, is empty exactly when the report is all whitespace, and otherwise starts and ends with a non-space |
| ReportExtraction.SearchFrom | blueprints/ocorrencia/routes.py:389-390 | `re.search` semantics: the match found is at the leftmost position where the pattern matches, with its capture; none found means no position matches |
| ReportExtraction.SearchFindsFirst | blueprints/ocorrencia/routes.py:389-390 | when the pattern matches at j and nowhere before it, the search answers j and its capture |
| ReportExtraction.SkipSpace | blueprints/ocorrencia/routes.py:389 | a greedy `\s*` consumes only whitespace and stops at a non-space or the end |
| ReportExtraction.MatchData | blueprints/ocorrencia/routes.py:389 | the pattern matches exactly when the label is found and the ten characters after the `\s*` have the shape dd/dd/dddd, and the group is those ten characters |
| ReportExtraction.MatchHora | blueprints/ocorrencia/routes.py:390 | the pattern matches exactly when the label is found and the five characters after the `\s*` have the shape dd:dd, and the group is those five characters |
| ReportExtraction.RunEnd | blueprints/ocorrencia/routes.py:407 | the run `[^\n\r]+` covers only characters outside the stop set and ends at a stop character or the end |
| ReportExtraction.LastOutside | blueprints/ocorrencia/routes.py:407 | the position found is the last one in range holding a character outside the stop set; none found means every one is a stop character |
| ReportExtraction.MatchRun | blueprints/ocorrencia/routes.py:444-446 | `\s*([^stop]+)` matches exactly when some position of the whitespace stretch after the label holds a character outside the stop set; the group starts after whitespace only, is the whole run of non-stop characters from there, and every later position of the stretch is a stop character (the backtracking `\s*` gives back as little as it can) |
| ReportExtraction.ParseDataHora | blueprints/ocorrencia/routes.py:394 | what strptime accepts is a real date and a minute below 1440, and formatting them back writes exactly the two groups read |
| ReportExtraction.FormatDataHora | blueprints/ocorrencia/routes.py:395-397 | `strftime("%Y-%m-%dT%H:%M")` writes sixteen characters with "T" at position 10 |
| ReportExtraction.ExtrairDataHora | blueprints/ocorrencia/routes.py:389-403 | the date and turno are extracted exactly when both patterns match and strptime accepts the pair; then the ISO text is the parsed moment and the turno is "Noturno" exactly from 18h to 05h59 and "Diurno" exactly from 06h to 17h59 |
| ReportExtraction.TurnoSplitsTheDay | blueprints/ocorrencia/routes.py:398-402 | the turno of a minute is "Noturno" exactly before 06h or from 18h, and "Diurno" otherwise |
| ReportExtraction.ExtrairDataHoraRoundTrip | blueprints/ocorrencia/routes.py:389-403 | a report whose lines are "Data: dd/mm/yyyy" and "Hora: HH:MM" yields that date and time rewritten and its turno |
| ReportExtraction.ParseFormatted | blueprints/ocorrencia/routes.py:394 | strptime reads back exactly the date and minute that `%d/%m/%Y %H:%M` wrote |
| ReportExtraction.ExtrairLocal | blueprints/ocorrencia/routes.py:407-409 | an address is extracted exactly when "Local:" matches, and it is the strip of the captured group; it holds no line break |
| ReportExtraction.CondominioDoEndereco | blueprints/ocorrencia/routes.py:411-420 | a condominium is found exactly when some condominium's lower-cased name occurs in the lower-cased address, and the id found belongs to one of them |
| ReportExtraction.ExtrairLocalRoundTrip | blueprints/ocorrencia/routes.py:407-409 | a "Local: <address>" line whose address is stripped and has no line break yields that address |
| ReportExtraction.ExtrairResponsavel | blueprints/ocorrencia/routes.py:444-448 | a name is extracted exactly when the rotulo matches, and it is the strip of the captured group; it holds no line break and no "(" |
| ReportExtraction.ResponsavelSpaceBeforeParenthesis | blueprints/ocorrencia/routes.py:444-448 | "Responsável pelo registro: (…" yields the empty name: `\s*` gives the space back to the group, which strip then empties |
| OcorrenciaRoutes.NomeChaveInjetiva | blueprints/ocorrencia/routes.py:386-451 | distinct keys of the answer are sent under distinct JSON names |
| OcorrenciaRoutes.TipoId | blueprints/ocorrencia/routes.py:422-441 | with a classifier name there is always a type: the existing type of that name, else the new type id (added and flushed, not committed); without one, the default type when it exists |
| OcorrenciaRoutes.CamposDataHora | blueprints/ocorrencia/routes.py:391-403 | step 1 writes only the date-time and turno keys |
| OcorrenciaRoutes.CamposLocal | blueprints/ocorrencia/routes.py:408-420 | step 2 writes only the address and condominium keys |
| OcorrenciaRoutes.CamposTipo | blueprints/ocorrencia/routes.py:422-441 | step 3 writes only the type key |
| OcorrenciaRoutes.CamposResponsavel | blueprints/ocorrencia/routes.py:447-452 | step 4 writes only the collaborators key |
| OcorrenciaRoutes.CamposDeDataHora | blueprints/ocorrencia/routes.py:386-403 | the answer has only the six known keys, and the date-time and turno exactly when the date was extracted, with the extracted values |
| OcorrenciaRoutes.CamposDeLocal | blueprints/ocorrencia/routes.py:407-420 | the address exactly when one was found, and the condominium id exactly when a condominium is named in it |
| OcorrenciaRoutes.CamposDeTipoResponsavel | blueprints/ocorrencia/routes.py:422-452 | the type id exactly when there is a type, and the one-element collaborator list exactly when the name found belongs to a collaborator |
| OcorrenciaRoutes.CamposChaves | blueprints/ocorrencia/routes.py:384-452 | for a report text, each field is present exactly when its own pattern (and lookup) found something in the cleaned text |
| OcorrenciaRoutes.PassoDataHora | blueprints/ocorrencia/routes.py:389-403 | the step adds the date-time fields to the dictionary and keeps the rest |
| OcorrenciaRoutes.PassoLocal | blueprints/ocorrencia/routes.py:407-420 | the step adds the address fields to the dictionary and keeps the rest |
| OcorrenciaRoutes.PassoTipo | blueprints/ocorrencia/routes.py:422-441 | the step adds the type field; a type row is added and flushed exactly when the classifier named one the table lacks, and it carries that name |
| OcorrenciaRoutes.PassoResponsavel | blueprints/ocorrencia/routes.py:443-452 | the step adds the collaborator field to the dictionary and keeps the rest |
| OcorrenciaRoutes.AnalisarRelatorio | blueprints/ocorrencia/routes.py:373-455 | success exactly for a truthy text, an empty one giving 400 and adding nothing; otherwise the answer is the fields extracted from the cleaned text, and a type row is added and flushed exactly when the classifier named one the table lacks |
| OcorrenciaRoutes.TransicoesSoDePendente | blueprints/ocorrencia/routes.py:331-368 | approve and reject change only a pending occurrence, and never leave it pending |
| OcorrenciaRoutes.DecisaoDefinitiva | blueprints/ocorrencia/routes.py:331-368 | once approved or rejected, a later approve or reject changes nothing |
| OcorrenciaRoutes.GuardaEdicao | blueprints/ocorrencia/routes.py:67-81 | 404 exactly when the occurrence is missing; allowed exactly when the user is an administrator or registered it; otherwise the "sem permissão" danger flash |
| OcorrenciaRoutes.SoAutorOuAdmin | blueprints/ocorrencia/routes.py:70-73 | a non-administrator who did not register the occurrence may not edit it; an administrator always may |
| OcorrenciaRoutes.OcorrenciaTable.Aprovar | blueprints/ocorrencia/routes.py:331-347 | a missing id gives 404 with no change; otherwise only that occurrence's status moves from "Pendente" to "Registrada", and the flash says whether it did |
| OcorrenciaRoutes.OcorrenciaTable.Rejeitar | blueprints/ocorrencia/routes.py:352-368 | a missing id gives 404 with no change; otherwise only that occurrence's status moves from "Pendente" to "Rejeitada", and the flash says whether it did |
| OcorrenciaRoutes.OcorrenciaTable.Deletar | blueprints/ocorrencia/routes.py:312-326 | a missing id gives 404; a user who may not edit gets the danger flash and no change; otherwise exactly that occurrence is removed |
| OcorrenciaApi.PassoTipoNome | blueprints/api/ocorrencia_routes.py:56-58 | the step adds the classifier's type name, when it gives one, and keeps the rest |
| OcorrenciaApi.PreencherApi | blueprints/api/ocorrencia_routes.py:31-62 | the steps build the date-time, address, type-name and corrected-report fields of what the patterns found |
| OcorrenciaApi.AnalisarRelatorioApi | blueprints/api/ocorrencia_routes.py:22-63 | an empty text gives 400 and success exactly otherwise; the answer is the fields extracted from the cleaned text, with the corrected report made from the text as sent |
| OcorrenciaApi.AnaliseApiChaves | blueprints/api/ocorrencia_routes.py:56-62 | the answer always carries the corrected report, the type name exactly when the classifier found one, and never a type id or collaborators |
| OcorrenciaApi.ArgInt | blueprints/api/ocorrencia_routes.py:133-137 | `args.get(name, type=int)` gives a number exactly when the parameter is present and `int()` accepts it, and then that number |
| OcorrenciaApi.NomeFiltroInjetivo | blueprints/api/ocorrencia_routes.py:140-151 | distinct filter keys are handed to the filter service under distinct names |
| OcorrenciaApi.ConstruirFiltros | blueprints/api/ocorrencia_routes.py:131-151 | the filters built from the query string are those of its parsed parameters |
| OcorrenciaApi.PreencherFiltros | blueprints/api/ocorrencia_routes.py:139-151 | the six conditional assignments build the filter dictionary of the parsed parameters |
| OcorrenciaApi.FiltrosExatos | blueprints/api/ocorrencia_routes.py:139-151 | the filter dictionary holds exactly the truthy parameters (a zero id is dropped), each with its value |
| OcorrenciaApi.Inserir | blueprints/api/ocorrencia_routes.py:155 | inserting adds exactly that occurrence to the multiset |
| OcorrenciaApi.InserirOrdena | blueprints/api/ocorrencia_routes.py:155 | inserting into a list ordered most recent first keeps it ordered |
| OcorrenciaApi.MaisRecentes | blueprints/api/ocorrencia_routes.py:155 | a permutation of the occurrences ordered by `data_hora_ocorrencia DESC` |
| OcorrenciaApi.Historico | blueprints/api/ocorrencia_routes.py:153-156 | the history holds min(selected, 100) occurrences, all selected ones, most recent first, never more copies than there are |
| OcorrenciaApi.TopoDaLista | blueprints/api/ocorrencia_routes.py:156 | the first n of an ordered list are ordered, are part of it, and nothing after them is more recent |
| OcorrenciaApi.HistoricoMaisRecentes | blueprints/api/ocorrencia_routes.py:155-156 | a selected occurrence left out by the limit is never more recent than one shown |
| OcorrenciaApi.SalvarOcorrencia | blueprints/api/ocorrencia_routes.py:204-243 | no body gives 400 "Dados não fornecidos." and no report 400 "Relatório final é obrigatório.", each exactly, and success exactly otherwise; the new occurrence is "Pendente", stamped now, turno "Diurno" and address "" when absent, and the ids as sent |
| OcorrenciaApi.SalvaAguardaRevisao | blueprints/api/ocorrencia_routes.py:221 | a saved occurrence is pending, so approving it registers it and rejecting it rejects it |
| RondaUpload.ShiftWindow | blueprints/ronda/routes.py:129-134 | the day shift runs 06:00:00–17:59:59 of the date; any other escala runs from 18:00:00 of the date to 05:59:59 of the next day; both windows start on the date and last 11h59m59s; only the night window of 9999-12-31 does not exist |
| RondaUpload.NightWindowCrossesMonth | blueprints/ronda/routes.py:132-134 | the night window of a month's last day ends on the first day of the next month, and after 31 December on 1 January of the next year |
| RondaUpload.KeepIff | blueprints/ronda/routes.py:457-463 | a shift is kept exactly when each given, non-zero month and year filter agrees with its date |
| RondaUpload.FilterPlantoes | blueprints/ronda/routes.py:455-466 | the loop keeps exactly the shifts the filters accept, in file order |
| RondaUpload.EscalaForTipo | blueprints/ronda/routes.py:484 | the escala is "06h às 18h" exactly for tipo "diurno", and "18h às 06h" for any other tipo |
| RondaUpload.EscalaForTipoWindow | blueprints/ronda/routes.py:129-134 | a daytime shift's escala gives a window ending the same day; any other tipo gives a window ending the next day |
| RondaUpload.DadosDeRoundTrip | blueprints/ronda/routes.py:487-489 | the date sent to the ronda service, `strftime("%Y-%m-%d")`, reads back with strptime as the shift's own date |
| RondaUpload.SalvarTodos | blueprints/ronda/routes.py:479-506 | one call of the ronda service per kept shift, in order, with that shift's data; the count is the number of calls that succeeded |
| RondaUpload.UploadProcessRonda | blueprints/ronda/routes.py:412-531 | no file, an empty file name and a name not ending in ".txt" (any case) each give their 400 exactly; an accepted file without an identified condominium gives exactly the 400 naming the file; a 400 saves nothing; once accepted and identified, the count of saved rondas is the number of service calls that succeeded over the kept shifts, 404 exactly when no shift is kept, 200 exactly when the count is positive and 500 otherwise |
| RondaUpload.ProcessarPlantoes | blueprints/ronda/routes.py:448-526 | 404 exactly when no shift survives the filters; otherwise the count of saved rondas is the number of service calls that succeeded, one call per kept shift with its data; 200 exactly when that count is positive (message "Processamento concluído! n ronda(s) salva(s).") and 500 "⚠️ Nenhuma ronda foi salva…" otherwise |
| RondaUpload.ValidarAjax | blueprints/ronda/routes.py:260-320 | no file and no kept file gives 400 "Nenhum arquivo fornecido" exactly; a named kept file that does not exist, with date and escala given, gives 400 "Arquivo fixo não encontrado" exactly; a missing date or escala 400 "Data e escala são obrigatórios" exactly; a date or window that cannot be built gives exactly the 500 with the route's message prefix; success exactly otherwise, with the window of that date and escala |
| RondasService.GerarRelatorioWhatsApp | src/services/rondas.ts:2-21 | the text accumulated with `+=` is exactly the report: the header, one line per ronda in the list's order, then the total (the same function appears at src/services/domains/rondasEsporadicas.ts:2-21) |
| RondasService.LinhasSemQuebra | src/services/rondas.ts:15-17 | each ronda adds its own line followed by one line break, and that line holds no other break when the times it quotes hold none |
| RondasService.SplitLinhas | src/services/rondas.ts:15-17 | the rondas' part of the report, read line by line, is one line per ronda in the list's order |
| RondasService.RelatorioLinhas | src/services/rondas.ts:12-19 | read line by line, the report is the date line, the residential line, a blank line, exactly one line per ronda in order, a blank line and the total carrying the number of rondas |
| RondasService.CabecalhoLinhas | src/services/rondas.ts:12-13 | the header is the date line, the residential line and a blank line |
| RondasService.RodapeLinhas | src/services/rondas.ts:19 | the footer is a blank line and the total line |
| RondasService.RelatorioVazio | src/services/rondas.ts:12-19 | with no rondas the report is the header, a blank line and a total of zero |
| RondasService.RelatorioMaisUma | src/services/rondas.ts:15-19 | appending a ronda to the list inserts exactly its line before the footer and bumps the total; the rest of the text is kept |
| RondasService.TrimJs | src/services/domains/rondasEsporadicas.ts:168 | `trim()`: the result is a slice of the input with only JavaScript white space before and after it, and it neither starts nor ends with white space |
| RondasService.TrimJsBlank | src/services/domains/rondasEsporadicas.ts:168 | text made only of JavaScript white space trims to the empty text |
| RondasService.JsNumber | src/services/domains/rondasEsporadicas.ts:168 | blank or all-white-space text reads as 0; a run of decimal digits as its value; a minus or plus sign followed by digits as the negated or plain value |
| RondasService.Mensagem | src/services/domains/rondasEsporadicas.ts:174-176 | the valid message is "Horário válido. Hora atual: <now>, Hora informada: <entry>"; the refused one is "Horário inválido. Hora atual: <now>, Hora informada: <entry>. Tolerância: ±30 minutos"; each starts with its own verdict only |
| RondasService.VereditosDistintos | src/services/domains/rondasEsporadicas.ts:174-176 | neither verdict is a prefix of a message that starts with the other |
| RondasService.ValidarHorarioEntrada | src/services/domains/rondasEsporadicas.ts:163-184 | always `sucesso`, echoing the informed time and the current time as "HH:MM"; valid exactly when both pieces of the informed time are numbers and the informed minute is within ±30 of now, with no wrap at midnight (a NaN piece makes it invalid); the message is the full `Mensagem` text for that verdict and both times |
| RondasService.MinutosDeHHMM | src/services/domains/rondasEsporadicas.ts:168-170 | two runs of digits joined by ':' read back as hours × 60 + minutes |
| RondasService.HoraAtualRoundTrip | src/services/domains/rondasEsporadicas.ts:167-171 | the current time written with `padStart(2, '0')` reads back with `split(':').map(Number)` as the same minute of the day |
| RondasService.ValidarFormatado | src/services/domains/rondasEsporadicas.ts:168-173 | a zero-padded "HH:MM" entry time is valid exactly when it is at most 30 minutes from now |
| RondasService.ConcordaComServidor | src/services/domains/rondasEsporadicas.ts:163-184 | on a zero-padded "HH:MM" entry time the local check and the server's `validar-horario` route (api/ronda_esporadica_routes.py:18-55) accept the request and give the same verdict |
| RondasService.SalvarRondaCompleta | src/services/domains/rondasEsporadicas.ts:65-110 | the start request always goes first and carries the current time instead of the informed entry time; the finish request, with the informed exit time, is sent exactly when the start answered success with a non-zero ronda id, and its answer is returned; otherwise the answer is "Erro ao iniciar ronda" |
| RondasService.InicioPassaValidacao | src/services/domains/rondasEsporadicas.ts:78-105 | the start request always passes the ±30-minute entry check, and a finish request is only ever sent right after a start |

## Left out

- Flask and ORM plumbing: sessions, `flash`/`render_template` pages, CSRF, `get_or_404` beyond its 404, commit/rollback and the flashes of a failed transaction. Tables are sequences of rows; queries are filters.
- Exception handlers that turn an unexpected error into a 500 with the exception's text: the model has no such error, except where a parse failure raises one (unparsable dates).
- Floating point: average durations, `round`, `taxa_finalizacao`/`taxa_processamento` percentages and `total_seconds() / 60`. Durations are whole seconds and minutes.
- Microseconds of timestamps, and the single `datetime.now()` a route reads once: the current time is one parameter per call.
- The order of `.first()` on an unordered query: the model takes the first matching row in table order.
- `ronda_esporadica_em_andamento` (blueprints/api/ronda_esporadica_routes.py:240-271) and `atualizar_ronda_esporadica` (blueprints/api/ronda_esporadica_routes.py:378-405): pure pass-through to a service that is not part of this model.
- The database-backed list, report, WhatsApp and detail routes, which do their own querying and build their own JSON or report text: `listar_rondas_do_dia` (blueprints/api/ronda_routes.py:14-61), `gerar_relatorio_ronda` (blueprints/api/ronda_routes.py:238-280) and `enviar_ronda_whatsapp` (blueprints/api/ronda_routes.py:282-327) query `Ronda` directly; `detalhe_ronda` (blueprints/api/ronda_routes.py:329-367) reads one row through `get_ronda_by_id`; `detalhe_ronda_esporadica` (blueprints/api/ronda_esporadica_routes.py:471-507) reads one row with `get_or_404`. Their queries with joined loads and the serialization of rows into JSON or text are not modelled. `listar_rondas_esporadicas_do_dia` and `consolidar_turno_rondas_esporadicas` (blueprints/api/ronda_esporadica_routes.py:408-469) forward to a service that is not part of this model.
- The mock `enviar_ronda_whatsapp` (api/ronda_routes.py:253-267): it only builds a fixed URL with no rule to state.
- The f-string with a backslash at api/ronda_esporadica_consolidacao_routes.py:48 is a syntax error before Python 3.12; the model follows the 3.12 meaning.
- JSON `null` or non-string values inside a present key: a payload field is either absent or a string (or an integer where the route casts one).
- The WhatsApp log processor, the ronda and consolidation services, the AI report corrector, the occurrence classifier and `infer_condominio`: their outcomes are parameters. The ronda service's save is a pure function of the data sent (`salvar: RondaData -> bool`), so a service whose answer depends on earlier calls or on their order, or differs for repeated identical data, is not represented.
- The per-shift detail messages of the upload and the temporary file save and removal.
- `toLocaleDateString('pt-BR')`, `%B` and other locale month names: the formatted date and the month-name function are parameters.
- `str.lower()` beyond Basic Latin and Latin-1, `int()` on numerals with underscores, and regex `\d` on non-ASCII digits.
- `strftime("%Y")` for years below 1000, which CPython writes without zero padding on some platforms: FormatIso is defined on dates that fit its four-digit field.
- Ordering of occurrences whose `data_hora_ocorrencia` is NULL, and the serialization of history entries.
- Dictionaries such as `dados_extraidos` and `filters` are maps keyed by a datatype of their known keys (`Chave`, `CampoFiltro`), not maps from arbitrary strings; the JSON name of each key is a separate injective function.
- JavaScript `Number()` on exponents, hexadecimal, `Infinity` and fractional text: those inputs are NaN in the model. Fractional durations and the `catch` branches of the services are not modelled.
- The form body of `editar_ocorrencia`, and the registrar, listar and detalhes pages of the occurrence blueprint.
- OcorrenciaRoutes.TipoId: a type the classifier names and the table lacks is added and flushed to obtain its id, and the route never commits it; the model records the new id and the added row, not whether a later commit or rollback keeps it.
- SalvarOcorrencia: the 500 of a failed commit ("Erro ao salvar ocorrência: " and the exception text) is not modelled, because the model's insert cannot fail.
- SalvarOcorrencia: the success answer's 201 status, its message "Ocorrência salva com sucesso. Aguardando revisão." and the database-assigned `ocorrencia_id` are not part of the result, which is the occurrence to insert.
- `GET /rondas-esporadicas/estatisticas/<int:condominio_id>` is registered on the same `api_bp` blueprint twice, by blueprints/api/ronda_esporadica_routes.py:124 and blueprints/api/ronda_esporadica_consolidacao_routes.py:60. Flask dispatches to whichever rule is registered first, which depends on the import order in blueprints/api/__init__.py, and that file is not part of this model; both handlers are modelled on their own (`DbRondaEsporadica.ObterEstatisticas`, `DbConsolidacao.ValidarPeriodo`).

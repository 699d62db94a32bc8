# MPS Café Altura: the production plan engine and its ISO week helpers

This project models the Master Production Schedule (MPS) engine of MPS Café Altura in Dafny and proves properties of the model. MPS Café Altura plans weekly production of roasted coffee for each SKU. For every SKU in the demand forecast, the engine walks the sorted ISO weeks of the forecast and does the following each week:

- It sets a safety stock from the service level.
- It turns the net requirement into a production quantity with the "60 kg batch" rule.
- It carries the closing inventory into the next week.
- It attaches alerts.

The model also covers the helpers that build and read the `"YYYY-SWW"` week keys the plan is indexed by. Two files hold them: the server's `iso_weeks.py` and the client's `helpers.py`. The client file also holds the clamped scrap ratio.

Modules:

- `Outcomes`: a Python call either returns a value (`Ok`) or raises one of `ValueError`, `OverflowError`, `ZeroDivisionError` or `IndexError` (`Raise`). Every error path of the core is an outcome, not a precondition.
- `Mps`, for `mps.py`:
  - `calcular_stock_seguridad` (`StockSeguridad`);
  - `calcular_produccion_con_regla_60kg` (`ProduccionConRegla60kg`);
  - the pure part of `calcular_inventario_inicial` (`InventarioInicial`, over the list of recorded production units);
  - one week of the `generar_mps` loop (`Semana`).
- `MpsPlan`: the specification of `generar_mps`.
  - `Filas` is the week recurrence with its carry.
  - `PlanDe`/`PlanSkuDe` give the per-SKU dictionaries.
  - `SemanasDe` is the union of week keys.
  - `PlanesDe` gives the plans of all SKUs.
- `MpsEngine`: `generar_mps` as the code runs it. The loops grow the week set, sort it, write every week's values into the SKU's maps, and read the previous week's closing stock back from the map. `GenerarMps`, `UnirSemanas` and `GenerarMpsSku` are proved equal to the `MpsPlan` functions they implement. `CalcularSemana`, the loop body, is proved equal to `Mps.Semana`.
- `Calendar`: Python's proleptic Gregorian date ordinals (`date(1,1,1)` is 1, `date(9999,12,31)` is 3652059). It provides weekday, the ISO 8601 week-numbering year (section 2.2.10 and section 4.1.4 of ISO 8601:2004) and `date.isocalendar()`.
- `IsoWeeks` for `iso_weeks.py`, and `Helpers` for `client/utils/helpers.py`.
- `PyStr`: the Python built-ins the helpers rely on, namely `str()` of an int, `format(n, "02d")`, `str.split` and `int()` of a string.
- `StrOrder`: Python's `<` on `str` and `sorted()` of a set of strings.

The database reads of `mps.py` are inputs:

- `Mps.Parametros` holds the service level and the capacity, each `None` when the parameter row is missing.
- `Mps.EntradaSku` holds, per SKU, its forecast (name, pack weight, week keys, demand map) and what the database holds for it:
  - the SKU's stored gram weight, `None` when `db.get(SKU)` finds nothing;
  - `get_scrap_promedio`;
  - the units of its recorded production runs.

Floats are exact reals, and `int()` of a float is truncation toward zero (`Mps.Trunc`).

Properties proved, in the system's terms:

- The safety factor follows the threshold table, and the safety stock never falls below 10.
- The batch rule's defensive "Error en cálculo de tandas" branch can never fire. A SKU found in the database with a non-zero weight therefore gets exactly its gross requirement `int(net / (1 - scrap))`. A zero weight raises ZeroDivisionError, and a missing SKU gets the bare net requirement.
- For a SKU found in the database with a non-zero weight and `0 <= scrap < 1`, production is never below the net requirement. Truncation loses at most one good unit: a week with a net requirement closes at the safety stock or one unit below it. In the second case the "below safety stock" alert fires from rounding alone. A missing SKU gets no scrap allowance and can close far below its safety stock (`Mps.SkuAusenteEjemplo`).
- Closing stock is never clamped.
- Week i's opening stock is week i - 1's closing stock.
- Alerts come in a fixed order, and each alert appears exactly when its condition holds.
- Every SKU gets an entry for every week, with missing demand read as 0.
- The plan raises exactly when one of the following holds. When there are SKUs but no week, the exception is IndexError, whatever the weights and scraps are. Otherwise it is ZeroDivisionError.
  - there are SKUs but no week (`IndexError`, `mps.py:201`); or
  - some SKU has a stored weight of 0 (`ZeroDivisionError`, `mps.py:126`); or
  - some SKU has a scrap of exactly 1 (`ZeroDivisionError`, `mps.py:253`).
- Week keys round-trip through format and parse, and they sort chronologically for four-digit years.
- The Monday of week 1 is the Monday on or before 4 January.
- `semana_iso_a_fecha` and `fecha_a_semana_iso` are inverse on valid weeks.
- The client's helpers agree with the server's.
- The scrap ratio is clamped to [0, 1].

The batch rule's truncations might be expected to under-produce relative to the net requirement. For a SKU found in the database with a non-zero weight, the code does not: the production quantity is the gross requirement, which is at least the net requirement (`Mps.BrutaCubreNeta`, `Mps.ProduccionCubreNeta`). What truncation does lose is one good unit after scrap (`Mps.CierreJuntoAlStockSeguridad`). The model follows the code.

## Model

| member | source | states |
|---|---|---|
| Mps.Trunc | server/app/services/mps.py:91 | `int()` of a float truncates toward zero: it is the floor for a non-negative argument and the ceiling for a negative one. |
| Mps.NivelServicio | server/app/services/mps.py:73-74 | The service level is the stored parameter, and 0.95 when the parameter row is missing. `Mps.StockSeguridadEjemplos` and `MpsPlan.DosSemanasEjemplo` use the default. |
| Mps.FactorSeguridad | server/app/services/mps.py:78-87 | The factor is 2.33, 2.05, 1.65, 1.28 or 1.0. Each value holds exactly on its band of service levels (>= 0.99, [0.98, 0.99), [0.95, 0.98), [0.90, 0.95), below 0.90). |
| Mps.FactorMonotone | server/app/services/mps.py:78-87 | A higher service level never gives a lower factor. |
| Mps.StockSeguridad | server/app/services/mps.py:91-93 | The safety stock is at least 10 units for every demand and service level. |
| Mps.StockSeguridadEs | server/app/services/mps.py:89-93 | The safety stock is either the floor of 10 or `demand * 0.2 * factor` rounded down, and it is the rounded value whenever that value is at least 10. A demand of 0 or less gets 10. |
| Mps.StockSeguridadMonotone | server/app/services/mps.py:78-93 | More demand or a higher service level never lowers the safety stock. |
| Mps.StockSeguridadEjemplos | server/app/services/mps.py:91-93 | At a 0.95 service level, demands of 200, 180 and 30 give 66, 59 and 10. |
| Mps.MensajesDistintos | server/app/services/mps.py:116-147 | `Mps.Mensaje` gives each alert its text from the source (mps.py:116, 129, 147, 246, 250, 257). Distinct alerts have distinct texts, so the alert values stand for the source's string lists one to one. |
| Mps.ProduccionConRegla60kg | server/app/services/mps.py:113-126 | The rule raises exactly when the stored weight is 0, and then with ZeroDivisionError. An SKU missing from the database gets the net requirement and "SKU no encontrado". |
| Mps.RestoBajoSesenta | server/app/services/mps.py:132-143 | When a batch yields units, the remainder's green coffee is below 60 kg for every sign of weight and scrap, and the scrap is not 1. |
| Mps.ReglaDaLaBruta | server/app/services/mps.py:118-150 | For a found SKU with a non-zero weight, the result is the gross requirement. The only possible alert is "Error en cálculo de unidades por tanda", present exactly when a batch yields no unit. "Error en cálculo de tandas" never appears. |
| Mps.BrutaCubreNeta | server/app/services/mps.py:118-122 | For `0 <= scrap < 1`, the gross requirement is at least the net requirement, and its good units are the net requirement or one less. |
| Mps.ProduccionCubreNeta | server/app/services/mps.py:113-150 | For `0 <= scrap < 1` and a weight other than 0, the rule does not raise, and its production is at least the net requirement. |
| Mps.ErrorDeUnidades | server/app/services/mps.py:126-129 | For a positive weight and `0 <= scrap < 1`, "units per batch <= 0" holds exactly when the pack weighs more than `60000 * (1 - scrap)` grams. |
| Mps.ReglaEjemplo | server/app/services/mps.py:118-150 | 200 units net, 250 g packs and 5% scrap give 210 units and no alert. |
| Mps.InventarioInicial | server/app/services/mps.py:35-54 | The estimate is at least 100, and exactly 100 when there is no production history. |
| Mps.InventarioInicialAcotado | server/app/services/mps.py:49-54 | With every run between lo and hi, the estimate lies between `max(100, 2*lo)` and `max(100, 2*hi)`. |
| Mps.DemandaDe | server/app/services/mps.py:206 | A week missing from the forecast's demand reads as 0. This is stated in `Mps.FilaDeLaSemana` and `MpsPlan.PlanSkuSemanas`. |
| Mps.NecesidadNeta | server/app/services/mps.py:215-220 | The net requirement is never negative. It lifts the opening stock to at least demand + safety stock, and to exactly that whenever it is positive. |
| Mps.NecesidadBruta | server/app/services/mps.py:118-122 | Its contract is `Mps.BrutaCubreNeta`: for `0 <= scrap < 1` the gross requirement is at least the net requirement, and its good units after scrap are the net requirement or one less. |
| Mps.UnidadesPorTanda | server/app/services/mps.py:124-126 | Its contract is `Mps.ErrorDeUnidades` (a batch yields no unit exactly when the pack is heavier than `60000 * (1 - scrap)` grams) and `Mps.RestoBajoSesenta`. |
| Mps.UnidadesBuenas | server/app/services/mps.py:229-231 | Its contract is `Mps.BrutaCubreNeta` and `Mps.CierreJuntoAlStockSeguridad`: the good units of the gross requirement are the net requirement or one less. |
| Mps.KgVerde | server/app/services/mps.py:252-253 | The divisor `1 - scrap` is 0 only for a scrap of 1, and then the week raises ZeroDivisionError (`Mps.Semana`). The capacity alert compares this value with the capacity (`Mps.AlertasUmbral`). |
| Mps.Capacidad | server/app/services/mps.py:169-170 | The weekly capacity is the stored parameter, and 300 when the row is missing. `MpsEngine.GenerarMps` returns it, and `Mps.AlertasUmbral` compares the green kg with it. |
| Mps.AlertasUmbral | server/app/services/mps.py:242-257 | "Stock de seguridad elevado" is present exactly when ss > 1.2 * demand and demand > 0. "Below safety stock" is present exactly when closing < ss. "Exceeds capacity" is present exactly when the green kg exceed the capacity. |
| Mps.Semana | server/app/services/mps.py:204-262 | A week raises exactly when the stored weight is 0 or the scrap is 1, whatever the week and the opening stock, and then with ZeroDivisionError. Its successful rows have the facts of `Mps.FilaDeLaSemana`, `Mps.ProduccionDeLaSemana`, `Mps.AlertasDeLaSemana`, `Mps.OrdenDeLasAlertas` and `Mps.CierreJuntoAlStockSeguridad`. |
| Mps.FilaDeLaSemana | server/app/services/mps.py:206-239 | A week's row has the demand (0 when the forecast has none), the opening stock it was given, the safety stock for that demand, and closing = opening + int(production * (1 - scrap)) - demand, with no clamp. |
| Mps.ProduccionDeLaSemana | server/app/services/mps.py:214-238 | A week's stored production is the production the 60 kg rule returns for the week's net requirement `max(0, demand + ss - opening)`, with the SKU's weight and scrap. |
| Mps.AlertasUmbralEnOrden | server/app/services/mps.py:242-257 | The threshold alerts come in the order they are checked, and each ranks ahead of any batch-rule alert. |
| Mps.AlertasDelLote | server/app/services/mps.py:113-147 | The batch rule reports at most one alert. "SKU no encontrado" appears exactly when the SKU is missing, "unidades por tanda" exactly when a batch yields no unit, and "Error en cálculo de tandas" never. |
| Mps.AlertasDeLaSemana | server/app/services/mps.py:242-262 | Each of a week's five possible alerts is present exactly when its condition holds, and "Error en cálculo de tandas" never is. |
| Mps.OrdenDeLasAlertas | server/app/services/mps.py:241-260 | A week's alerts are strictly ordered: the three threshold alerts in checking order, then the batch rule's alert. |
| Mps.CierreJuntoAlStockSeguridad | server/app/services/mps.py:215-231 | For a found SKU with `0 <= scrap < 1`, production is at least the net requirement and the week closes at the safety stock minus one or above. With a net requirement it closes at the safety stock or one below it. |
| Mps.SkuAusenteEjemplo | server/app/services/mps.py:206-262 | A missing SKU with 50% scrap produces the bare net requirement of 1230 and closes at -285, unclamped. Its alerts are "below safety stock", "exceeds capacity" and "SKU no encontrado". |
| Mps.PrimeraSemanaEjemplo | server/app/services/mps.py:206-262 | From an opening of 100, a demand of 200 gives safety stock 66, production 174 and closing 65, with the below-safety-stock alert. |
| Mps.SegundaSemanaEjemplo | server/app/services/mps.py:206-262 | From an opening of 65, a demand of 180 gives safety stock 59, production 183 and closing 58. |
| MpsPlan.Filas | server/app/services/mps.py:201-264 | The week loop yields one row per week. |
| MpsPlan.Arrastre | server/app/services/mps.py:212-235 | Row i is the week's row for its opening stock. That opening is the initial estimate for week 0 and the closing stock of week i - 1 afterwards, and it is the stored opening stock. |
| MpsPlan.FilasFalla | server/app/services/mps.py:206-253 | The week loop raises exactly when there is a week and the weight is 0 or the scrap is 1, and then with ZeroDivisionError. |
| MpsPlan.CierresAcotados | server/app/services/mps.py:215-231 | With the SKU found and `0 <= scrap < 1`, every week produces at least its net requirement and closes no lower than its safety stock minus one. |
| MpsPlan.DosSemanasEjemplo | server/app/services/mps.py:201-264 | In the two-week scenario, the second week opens with the first week's closing stock of 65, and both weeks close one unit under their safety stock. |
| MpsPlan.PlanVacio | server/app/services/mps.py:187-198 | Its contract is `MpsPlan.PlanVacioSinSemanas`. |
| MpsPlan.PlanVacioSinSemanas | server/app/services/mps.py:187-198 | A fresh SKU entry has the forecast's id, name and pack weight, and all seven maps are empty. |
| MpsPlan.Anotar | server/app/services/mps.py:234-239 | Its contract is `MpsPlan.AnotarGuarda` and `MpsPlan.AnotarClaves`. |
| MpsPlan.AnotarGuarda | server/app/services/mps.py:234-239 | Storing a week's row puts each of its seven values under the week's key. Every other week's stored row is unchanged. |
| MpsPlan.AnotarClaves | server/app/services/mps.py:234-262 | After a store, every map has exactly the previous keys plus the week. |
| MpsPlan.PlanDe | server/app/services/mps.py:187-239 | Storing rows never changes the SKU's id, name or pack weight. Its keys and values are stated by `MpsPlan.PlanCubre`. |
| MpsPlan.PlanCubre | server/app/services/mps.py:234-262 | Each of the seven maps has exactly the weeks as keys. For distinct weeks, the entry of week i in each map is row i's value. |
| MpsPlan.PlanSkuDe | server/app/services/mps.py:182-264 | Its contract is `MpsPlan.PlanSkuFalla` (when and with what it raises) and `MpsPlan.PlanSkuSemanas` (its keys, demands and carried opening stocks). |
| MpsPlan.PlanSkuFalla | server/app/services/mps.py:199-253 | A SKU's plan raises exactly when there is no week (IndexError) or when the weight is 0 or the scrap is 1 (ZeroDivisionError). |
| MpsPlan.PlanSkuSemanas | server/app/services/mps.py:199-262 | In a SKU's plan, every week has a key. Missing demand reads as 0. The first opening stock is the history estimate, and every later one equals the previous week's stored closing stock. |
| MpsPlan.SemanasDe | server/app/services/mps.py:173-175 | A key is in the union exactly when some SKU of the forecast lists it. |
| MpsPlan.PlanesDe | server/app/services/mps.py:179-264 | A successful plan has one entry per SKU of the forecast. |
| MpsPlan.PlanesCubren | server/app/services/mps.py:179-264 | Entry k of the plan is the plan of the forecast's SKU k. |
| MpsPlan.PlanesFalla | server/app/services/mps.py:179-253 | The plan raises exactly when there is a SKU and either no week or a SKU that divides by zero. The exception is IndexError without weeks and ZeroDivisionError otherwise. |
| MpsPlan.OrdenadasSonDistintas | server/app/services/mps.py:177 | Sorted week keys are distinct. |
| MpsPlan.PlanCompleto | server/app/services/mps.py:173-264 | Over the sorted weeks, every forecast SKU keeps its id and name and has an entry for every week and no other. Missing demand reads as 0, and each opening stock equals the previous closing stock. |
| MpsEngine.GenerarMps | server/app/services/mps.py:154-270 | The returned weeks are sorted and are exactly the union of the forecast's keys, the capacity is the parameter (default 300), and the data is `PlanesDe` over those weeks. The method raises exactly under `PlanesFalla`'s condition, with the same exception. |
| MpsEngine.UnirSemanas | server/app/services/mps.py:172-175 | The set loop builds exactly `SemanasDe`. |
| MpsEngine.GenerarMpsSku | server/app/services/mps.py:185-264 | The loop writes into seven maps and reads the previous week's closing stock back from the map. It returns exactly `PlanSkuDe`, including the IndexError without weeks and the ZeroDivisionError of a week. |
| MpsEngine.CalcularSemana | server/app/services/mps.py:204-262 | Appending the alerts one by one yields exactly the week's row `Semana`. |
| StrOrder.Less | server/app/services/mps.py:177 | Python's `<` on `str`: code point by code point, with a proper prefix first. It is irreflexive, transitive and total (`StrOrder.LessIrreflexive`, `StrOrder.LessTransitive`, `StrOrder.LessTotal`). |
| StrOrder.LessTransitive | server/app/services/mps.py:177 | String order is transitive. |
| StrOrder.LessTotal | server/app/services/mps.py:177 | Of two distinct strings, one is less than the other. |
| StrOrder.LessConcat | server/app/services/mps.py:177 | Strings whose first parts have equal length compare by those parts first, then by the rest. |
| StrOrder.Sorted | server/app/services/mps.py:177 | `sorted()` of the key set is strictly increasing in Python's string order and has exactly the set's elements. |
| StrOrder.SortedUnique | server/app/services/mps.py:177 | Only one sequence is strictly sorted with a given set of elements, so the order of the plan's weeks is determined. |
| Calendar.IsoWeek1Monday | server/app/utils/iso_weeks.py:14 | Its contract is `Calendar.IsoWeek1MondayIsMondayNearJan1`: the Monday of ISO week 1 is a Monday at most three days from 1 January, so the Thursday of that week is the year's first Thursday. |
| Calendar.IsoWeek1MondayIsMondayNearJan1 | server/app/utils/iso_weeks.py:14 | The Monday of week 1 is a Monday within three days of 1 January. |
| Calendar.Weekday | server/app/utils/iso_weeks.py:32 | `date.weekday()` lies in 0..6, with Monday as 0. `Calendar.WeekdayFromMonday` adds that k weeks and d days after a Monday fall on weekday d. |
| Calendar.WeekdayFromMonday | client/utils/helpers.py:19-25 | For a Monday m and 0 <= d < 7, `m + 7k + d` is weekday d. |
| Calendar.IsoCalendar | server/app/utils/iso_weeks.py:14-15 | `isocalendar()` puts the date in its ISO year. The week is 1 plus the whole weeks since that year's week-1 Monday, and it lies within the year's 52 or 53 weeks. The weekday runs from 1 = Monday. |
| Calendar.FirstThursdayRule | server/app/utils/iso_weeks.py:29-32 | The Monday on or before 4 January is the Monday of the week that holds the first Thursday. |
| Calendar.MondayOnOrBeforeJan4 | server/app/utils/iso_weeks.py:30-32 | The first Monday is a Monday, 0 to 6 days before 4 January. |
| IsoWeeks.FechaASemanaIso | server/app/utils/iso_weeks.py:4-15 | The date lies in the returned ISO year. The week is 1 plus the whole weeks since that year's week-1 Monday, within the year's 52 or 53 weeks. |
| IsoWeeks.SemanaIsoAFecha | server/app/utils/iso_weeks.py:17-35 | It raises ValueError exactly when the year is outside 1..9999, and otherwise only OverflowError. `dia` defaults to 1, as in the source. The date itself is stated by `IsoWeeks.DesdeElPrimerLunes`, `IsoWeeks.DiaDeLaSemana` and `IsoWeeks.SemanaSiguiente`. |
| IsoWeeks.PrimerLunes | server/app/utils/iso_weeks.py:30-32 | For years 1..9999, week 1 day 1 exists. It is a Monday, 0 to 6 days before 4 January, and it is ISO week 1's Monday. |
| IsoWeeks.DiaDeLaSemana | server/app/utils/iso_weeks.py:32-34 | `semana_iso_a_fecha(a, s, d)` falls on weekday d - 1 (Monday = 0) for d in 1..7. |
| IsoWeeks.SemanaSiguiente | server/app/utils/iso_weeks.py:34 | Within the date range, the same day of the next week is 7 days later. |
| IsoWeeks.DesdeElPrimerLunes | server/app/utils/iso_weeks.py:29-34 | The result counts from the Monday of ISO week 1. It raises OverflowError when it leaves the date range. |
| IsoWeeks.SemanaAFechaAFecha | server/app/utils/iso_weeks.py:4-35 | For a week of ISO year a, every day is a date except the last two days of 9999. `fecha_a_semana_iso` of that day gives back (a, s). |
| IsoWeeks.FechaASemanaAFecha | server/app/utils/iso_weeks.py:4-35 | A date's ISO year is in 1..9999 and its week within that year. The year, week and weekday give the date back. |
| IsoWeeks.FormatoSemanaIso | server/app/utils/iso_weeks.py:37-48 | Its contract is `IsoWeeks.ParsearFormato` (the key parses back to the pair), `IsoWeeks.FormatoEjemplo` and `IsoWeeks.ClavesOrdenCronologico`. |
| IsoWeeks.ParsearSemanaIso | server/app/utils/iso_weeks.py:60-67 | If splitting on "-S" does not give exactly two pieces, the parse raises ValueError. It raises only ValueError. On success the two pieces are `int()` of the year and the week, and they rebuild the key. |
| IsoWeeks.ParsearFormato | server/app/utils/iso_weeks.py:48-67 | Parsing a formatted key gives back (year, week) for every pair of integers. |
| IsoWeeks.FormatoEjemplo | server/app/utils/iso_weeks.py:48 | (2024, 5) formats as "2024-S05", and (2024, 12) as "2024-S12". |
| IsoWeeks.ClavesOrdenCronologico | server/app/utils/iso_weeks.py:48 | For four-digit years and weeks 0..99, string order on keys is year-then-week order, which is what `sorted()` relies on. |
| IsoWeeks.LunesOrdenCronologico | server/app/utils/iso_weeks.py:34 | The Mondays of valid weeks are ordered like their (year, week) pairs. |
| PyStr.IntToStr | server/app/utils/iso_weeks.py:48 | `str(n)` is non-empty and ends in a digit. It is all digits for n >= 0, and a minus sign followed by digits for n < 0. The first digit is not a leading zero unless n is 0. `int()` reads it back (`PyStr.ParseIntToStr`). |
| PyStr.ZeroPad2 | server/app/utils/iso_weeks.py:48 | `format(n, "02d")` has at least two characters and ends in a digit. It is digits and minus signs only, and digits only for n >= 0. `int()` reads it back (`PyStr.ParseIntZeroPad2`). |
| PyStr.Split | server/app/utils/iso_weeks.py:60 | `split` always returns at least one piece, and joining the pieces gives the string back (`PyStr.JoinSplit`). |
| PyStr.ParseInt | server/app/utils/iso_weeks.py:64-65 | `int()` of a string raises only ValueError. |
| PyStr.ParseIntSpaces | server/app/utils/iso_weeks.py:64-65 | `int()` strips a tab and a no-break space around the digits, and rejects the ASCII separators 0x1C and 0x1F there with ValueError. |
| PyStr.ParseIntToStr | server/app/utils/iso_weeks.py:64-65 | `int(str(n)) == n` for every integer. |
| PyStr.ParseIntZeroPad2 | server/app/utils/iso_weeks.py:48-65 | `int(format(n, "02d")) == n` for every integer. |
| PyStr.JoinSplit | server/app/utils/iso_weeks.py:60 | Joining the pieces of `split` with the separator gives the string back. |
| Helpers.IsoWeekDates | client/utils/helpers.py:17-27 | The function raises only ValueError (years outside 1..9999) or OverflowError. On success the Sunday is the Monday plus 6 days. |
| Helpers.IsoWeekDatesAgree | client/utils/helpers.py:17-25 | `get_iso_week_dates(y, w)` is `(semana_iso_a_fecha(y, w, 1), semana_iso_a_fecha(y, w, 7))`, error cases included. |
| Helpers.IsoWeekDatesSpanTheWeek | client/utils/helpers.py:17-27 | For a week of the ISO year, the call fails only for 9999's week 52. Otherwise the dates are a Monday and a Sunday, and both are in ISO week (y, w). |
| Helpers.FormatIsoWeek | client/utils/helpers.py:40 | `format_iso_week` is `formato_semana_iso`. |
| Helpers.ParseIsoWeek | client/utils/helpers.py:52-59 | `parse_iso_week` is `parsear_semana_iso`, error cases included. |
| Helpers.ParseFormatIsoWeek | client/utils/helpers.py:40-59 | `parse_iso_week(format_iso_week(y, w)) == (y, w)` for all integers. |
| Helpers.CalculateScrap | client/utils/helpers.py:74-84 | The scrap is always in [0, 1], and 0 when no positive weight of green coffee was used. It equals `1 - units * g / (kg * 1000)` when that value is in [0, 1]. |
| Helpers.ScrapExtremes | client/utils/helpers.py:80-82 | For positive kg, the scrap is 1 exactly when no grams came out, and 0 exactly when at least the green weight came out. |
| Helpers.ScrapRecoversProductGrams | client/utils/helpers.py:74-82 | Inside the clamp, `kg * 1000 * (1 - scrap)` is the product's grams. |
| Helpers.ScrapExample | client/utils/helpers.py:74-82 | 60 kg and 228 units of 250 g give 0.05. |

## Left out

- Database access: `get_parametro`, `db.get(SKU)`, the `Produccion` query and `get_scrap_promedio` are inputs (`Mps.Parametros`, `Mps.EntradaSku`). The forecast (`obtener_pronostico_futuro`, Prophet and pandas) is an input sequence of `EntradaSku` in the dictionary's order.
- `float(param.valor)` for the service level and the capacity: parsing a float from the stored text, and the ValueError it can raise, are not modelled. The parameters are reals or missing.
- `calcular_inventario_inicial`: the `semana_actual` argument and the `semana_clave` column are unused by the code and are not modelled. The pandas mean is the exact mean of the units.
- Floating point: service level, scrap, the 0.2, 1.2 and 60000 factors and the kilograms are exact reals, with no IEEE rounding. The golden values in the examples are the exact-real ones.
- Mps.Trunc: `int()` of a NaN or an infinity (ValueError, OverflowError) does not arise with reals and is not modelled.
- The alerts are the datatype `Mps.Alerta`. `Mps.Mensaje` gives each alert's Spanish message, and the lists in the plan hold the alert values instead of the strings.
- Python dictionaries keep insertion order. `MpsPlan.PlanSku` holds maps, whose key order is the order of the plan's `semanas` list.
- StrOrder.Sorted: `sorted()` uses Timsort. The model sorts by repeated minimum, which gives the same result by `StrOrder.SortedUnique`.
- PyStr.ParseInt: `int()` also accepts non-ASCII Unicode digits. The model accepts ASCII digits, underscores between digits, a sign and surrounding whitespace.
- Helpers.IsoWeekDates: the client uses `datetime` values. A datetime at midnight is modelled by its date ordinal, and `timedelta`'s own range limit (far outside the date range) is not modelled.
- IsoWeeks.SemanaIsoAFecha: its arguments are integers. Type errors for other argument types are not modelled.
- Helpers.IsoWeekDates: its arguments are integers. The TypeError that `datetime(year, 1, 4)` raises for a year that is not an integer is not modelled, and neither is a `week` of another numeric type.
- PyStr.IntToStr, PyStr.ZeroPad2, PyStr.ParseInt, IsoWeeks.ParsearFormato: from Python 3.11 on, `str(n)`, `format(n, "02d")` and `int(s)` raise ValueError for numbers of more than 4300 digits (a limit set by `sys.set_int_max_str_digits`). This configurable guard is not modelled. Years and week numbers never come near it.
- `guardar_ajustes_mps`: a stub that returns `True` and stores nothing. There is nothing to model.
- KPIs, CRUD modules, HTTP routes, application setup, the Streamlit client pages and the HTTP client are outside the engine and are not part of this model.

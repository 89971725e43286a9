# Reisekostenabrechnung Österreich — allowance calculation in Dafny

This project models the calculation core of a small Austrian travel-expense
app (`reisekosten_app.py`), and proves properties of that model. The app's
calculation has three parts:

- **Rate tables** ("Regelsätze"). These are constants:
  - domestic: 30.00 EUR per calendar day, 17.00 EUR per night;
  - mileage: 0.50 EUR per km, for every trip;
  - fixed domestic meal deductions: 4.50 EUR for breakfast, 7.50 EUR for lunch;
  - a per-country table of full-day (`voll`) and partial-day (`teil`) rates, with an `Andere` fallback entry;
  - foreign meal deductions: 20 % and 40 % of `teil`.
- **`berechne_verpflegung`**, the meal-allowance engine. It turns the trip kind,
  country, start and end date and time, and the two meal flags into the net
  allowance.
- **The save handler's arithmetic**. It computes mileage cost, overnight cost
  (domestic only) and the trip total, and stores the calendar-day count with the trip.

Modelling choices:

- Money is held in integer euro cents. Every rate is a whole number of cents.
  Every `teil` is a multiple of 5 cents, so its 20 % and 40 % are whole cents
  too. Rounding to two decimals is therefore the identity, and the model has
  no rounding step.
- A date is a day number. A time of day is minutes since midnight, from 0 to 1439.
  Durations are in minutes, so the 8 h and 24 h thresholds are 480 and 1440.
- The trip kind is a datatype `Inland | Ausland`. The source compares a
  string with `"Inland"` and treats everything else as foreign. Its input
  widget offers only those two values.

Modules, one per part of the calculation:

- `Regelsaetze` (`regelsaetze.dfy`): the constants, the country table and the fallback lookup.
- `Zeit` (`zeit.dfy`): instants, duration in minutes, calendar-day count.
- `Verpflegung` (`verpflegung.dfy`): the meal-allowance engine, and a
  reference per-day apportionment that the multi-day formula is proved against.
- `Reise` (`reise.dfy`): the figures stored for a saved trip.

The model follows the code as written, also where it departs from a fuller reading of the travel-expense rules:

- An end time earlier than the start time on the same date is not rolled
  over to the next day. The duration is negative. A foreign trip then earns
  nothing, and a domestic trip is paid by calendar days as usual.
- An end date before the start date is not rejected as an error. Domestic
  trips then earn 0 through the floor at zero. Foreign trips earn 0 because
  the duration is under 8 hours.
- Domestic trips ignore the duration entirely. The domestic deductions are
  fixed amounts, subtracted once per trip and not once per day.
- A foreign trip of 8 to 24 hours that spans midnight pays one partial-day
  rate, not two.
- Foreign deductions are fractions of `teil`, not of the full-day rate.
- There is no flag telling the caller that the fallback country was used.
- There is no passenger surcharge on mileage. There are no receipt-based
  overnight amounts and no dinner deduction.

## Model

| member | source | states |
|---|---|---|
| `Regelsaetze.SatzFuer` | reisekosten_app.py:16-45 | every country lookup resolves to an entry of the table, and that entry has 0 < teil <= voll and teil a multiple of 5 cents |
| `Regelsaetze.BekanntesLand` | reisekosten_app.py:45 | a country in the table gets its own entry |
| `Regelsaetze.UnbekanntesLand` | reisekosten_app.py:24 | a country outside the table gets the "Andere" rates, voll 50.00 and teil 33.00 EUR |
| `Regelsaetze.Anteil` | reisekosten_app.py:55-57 | a percentage of an amount, in whole cents, equal to the exact product when that product is whole |
| `Regelsaetze.KuerzungenCentgenau` | reisekosten_app.py:26 | 20 % and 40 % of the teil rate of every entry the lookup returns are whole cents, so round(betrag, 2) never changes the allowance |
| `Zeit.AbsoluteMinuteInjektiv` | reisekosten_app.py:32-33 | combining date and time gives distinct instants for distinct inputs, ordered by date first and time of day second |
| `Zeit.KalenderTage` | reisekosten_app.py:35 | the day count is the number of calendar days from start date to end date, both included |
| `Zeit.DauerMinuten` | reisekosten_app.py:32-34 | the duration lies strictly between (tage-2) and tage whole days, and it is non-negative exactly when the end is not before the start |
| `Zeit.MindestensEinTagHeisstZweiKalendertage` | reisekosten_app.py:34-35 | a duration of 24 hours or more means at least two calendar days |
| `Zeit.DreiKalendertageHeisstMehrAlsEinTag` | reisekosten_app.py:34-35 | three or more calendar days mean a duration of more than 24 hours |
| `Zeit.Plus` | reisekosten_app.py:32-34 | adding n minutes to an instant moves its absolute minute by n, carrying over midnight |
| `Zeit.DauerNachPlus` | reisekosten_app.py:34 | the duration from an instant to n minutes later is n, also across midnight |
| `Zeit.PlusNachDauer` | reisekosten_app.py:34 | going the duration forward from the start reaches exactly the end |
| `Verpflegung.NichtNegativ` | reisekosten_app.py:43 | the floor at zero: the result is never below the amount, and it is either the amount or 0 |
| `Verpflegung.KuerzungInland` | reisekosten_app.py:39-42 | the domestic deductions total at most 12.00 EUR, and they are zero exactly when no meal was provided |
| `Verpflegung.KuerzungAusland` | reisekosten_app.py:54-57 | the foreign deductions are exactly 1/5 of teil for breakfast plus 2/5 of teil for lunch, and together stay below teil |
| `Verpflegung.TagessatzSummeVorRueckreise` | reisekosten_app.py:52 | the per-day rates up to the day before return sum to one teil plus voll for each further day |
| `Verpflegung.TagessatzSummeGanz` | reisekosten_app.py:52 | over a trip of two or more calendar days the per-day rates (partial on departure and return, full in between) sum to 2·teil + (tage-2)·voll |
| `Verpflegung.AuslandVorKuerzung` | reisekosten_app.py:47-52 | the foreign amount before deductions is at least teil; it is teil under 24 hours, and from 24 hours on it is the per-day apportionment of the trip |
| `Verpflegung.BerechneVerpflegung` | reisekosten_app.py:31-58 | the allowance is never negative; a foreign trip earns 0 exactly when it lasts under 8 hours; a domestic trip earns 0 exactly when it ends on a date before its start date |
| `Verpflegung.InlandFormel` | reisekosten_app.py:37-43 | a domestic trip earns max(0, tage·30.00 − 4.50·[breakfast] − 7.50·[lunch]) |
| `Verpflegung.InlandUnabhaengigVonUhrzeitUndLand` | reisekosten_app.py:37-43 | the domestic allowance does not depend on the times of day, the duration or the country |
| `Verpflegung.AuslandTeiltag` | reisekosten_app.py:49-57 | a foreign trip of 8 to 24 hours earns teil less 20 % of teil for breakfast and 40 % of teil for lunch |
| `Verpflegung.AuslandMehrtaegig` | reisekosten_app.py:51-57 | a foreign trip of 24 hours or more earns 2·teil + (tage-2)·voll if tage > 2, else 2·teil, less the same fractions of teil |
| `Verpflegung.MahlzeitMindertNie` | reisekosten_app.py:37-58 | a provided breakfast or lunch never raises the allowance, for domestic and foreign trips |
| `Verpflegung.SpaetereRueckkehrNichtWeniger` | reisekosten_app.py:31-58 | with everything else fixed, a later end never lowers the allowance |
| `Reise.Fahrtkosten` | reisekosten_app.py:96 | mileage cost is 0.50 EUR per km |
| `Reise.FahrtkostenLinear` | reisekosten_app.py:96 | mileage cost is additive in the distance and doubles with it |
| `Reise.Uebernachtungskosten` | reisekosten_app.py:97 | overnight cost is 17.00 EUR per night on domestic trips and 0 on foreign trips |
| `Reise.Abrechnen` | reisekosten_app.py:95-111 | the stored figures: the calendar-day count, the engine's allowance, the mileage cost, and a total of allowance + mileage + tolls + parking + other costs + domestic overnight cost |
| `Reise.AuslandNaechteOhneWirkung` | reisekosten_app.py:97 | on a foreign trip the number of nights changes none of the stored figures |
| `Reise.GesamtWaechstMitKosten` | reisekosten_app.py:96-98 | more km, nights, tolls, parking or other costs raise the total by exactly their cost; extra nights add 17.00 EUR each on domestic trips and nothing on foreign trips |
| `Reise.Beispiele` | reisekosten_app.py:31-98 | worked trips: domestic 08:00-17:00 gives 30.00, or 18.00 with both meals; three days in Germany give 126.00; 10 h in an unlisted country with lunch gives 19.80; a domestic two-day trip totals 146.00 |

## Left out

- Page setup, layout, input widgets, buttons and the legend text
  (reisekosten_app.py:8, 61-94, 114, 130-149): user interface only. The
  legend's "24h: full day rate" line does not describe what the code computes.
- The session list of saved trips, and the record appended to it
  (reisekosten_app.py:28-29, 100-113). The model keeps only the computed
  figures (`Reise.Abrechnung`). The employee, project and place names pass
  through unchanged and are not modelled.
- The month label from `strftime("%B")`, the month filter over the table of
  saved trips, and the Excel export (reisekosten_app.py:101, 107, 116-128).
  These are locale-dependent formatting and library I/O. pandas and xlsxwriter
  are not part of this model.
- Floating-point amounts and `round(betrag, 2)`. Amounts are exact cents.
  This agrees with the source for every entry of its tables. The toll, parking
  and other-cost inputs are taken as whole cents.
- Times of day are whole minutes, which is what the time input widget delivers. Seconds are not modelled.
- The bounds of Python's dates (years 1 to 9999). Day numbers are unbounded integers.

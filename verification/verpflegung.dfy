/**
 * The meal-allowance engine ("Verpflegung"): from the kind of trip, the
 * destination country, the start and end instants and the two flags for
 * meals provided, the net allowance in cents.
 */
module Verpflegung {
  import opened Regelsaetze
  import opened Zeit

  /** Domestic or foreign trip. */
  datatype Reiseart = Inland | Ausland

  /** Zero for a negative amount, the amount otherwise. */
  function NichtNegativ(betrag: int): (r: nat)
    ensures r >= betrag && (r == betrag || r == 0)
  {
    if betrag < 0 then 0 else betrag
  }

  /** The domestic deductions: fixed amounts, applied once per trip. */
  function KuerzungInland(frueh: bool, mittag: bool): (k: nat)
    ensures k <= KuerzungInlandFruehstueck + KuerzungInlandMittagessen
    ensures k == 0 <==> !frueh && !mittag
  {
    (if frueh then KuerzungInlandFruehstueck else 0)
    + (if mittag then KuerzungInlandMittagessen else 0)
  }

  /**
   * The foreign deductions: 20 % of the partial-day rate for breakfast and
   * 40 % of it for lunch, added up. They are fractions of `teil` whatever
   * the amount they are subtracted from, and together stay below `teil`.
   */
  function KuerzungAusland(s: Satz, frueh: bool, mittag: bool): (k: nat)
    requires Wohlgeformt(s)
    ensures 5 * k == (if frueh then s.teil else 0) + (if mittag then 2 * s.teil else 0)
    ensures k < s.teil
  {
    (if frueh then Anteil(s.teil, KuerzungAuslandFruehstueckProzent) else 0)
    + (if mittag then Anteil(s.teil, KuerzungAuslandMittagessenProzent) else 0)
  }

  /**
   * The reference apportionment over calendar days: on a trip of `tage`
   * calendar days, the day of departure and the day of return earn the
   * partial-day rate and every day in between the full-day rate.
   */
  function Tagessatz(s: Satz, tag: nat, tage: nat): nat {
    if tag == 0 || tag + 1 == tage then s.teil else s.voll
  }

  /** The sum of the day rates of the first `k` calendar days of a trip of `tage` days. */
  function TagessatzSumme(s: Satz, tage: nat, k: nat): nat {
    if k == 0 then 0 else TagessatzSumme(s, tage, k - 1) + Tagessatz(s, k - 1, tage)
  }

  /** Up to (but not including) the day of return, the departure day is partial and the rest full. */
  lemma {:induction false} TagessatzSummeVorRueckreise(s: Satz, tage: nat, k: nat)
    requires 1 <= k < tage
    ensures TagessatzSumme(s, tage, k) == s.teil + (k - 1) * s.voll
  {
    if k > 1 {
      TagessatzSummeVorRueckreise(s, tage, k - 1);
    }
  }

  /** Over a whole trip of two or more calendar days the day rates sum to `2·teil + (tage−2)·voll`. */
  lemma TagessatzSummeGanz(s: Satz, tage: nat)
    requires tage >= 2
    ensures TagessatzSumme(s, tage, tage) == 2 * s.teil + (tage - 2) * s.voll
  {
    TagessatzSummeVorRueckreise(s, tage, tage - 1);
  }

  /**
   * The foreign amount before deductions, for a trip of at least 8 hours:
   * the partial-day rate below 24 hours; from 24 hours on, two partial days
   * and, from three calendar days on, a full day for each day in between.
   * `dauer` and `tage` are related as the duration calculation relates them.
   * From 24 hours on the amount is the per-day apportionment of the trip.
   */
  function AuslandVorKuerzung(s: Satz, dauer: int, tage: int): (b: nat)
    requires dauer >= AchtStunden
    requires (tage - 2) * MinutenProTag < dauer < tage * MinutenProTag
    ensures tage >= 1 && b >= s.teil
    ensures dauer < VierundzwanzigStunden ==> b == s.teil
    ensures dauer >= VierundzwanzigStunden ==> tage >= 2 && b == TagessatzSumme(s, tage, tage)
  {
    if dauer < VierundzwanzigStunden then
      s.teil
    else
      TagessatzSummeGanz(s, tage);
      if tage > 2 then 2 * s.teil + (tage - 2) * s.voll else 2 * s.teil
  }

  /**
   * The net meal allowance of one trip, in cents.
   *
   * Domestic trips earn the daily rate for every calendar day, less the
   * fixed deductions, whatever the duration and the country. Foreign trips
   * earn nothing below 8 hours; otherwise the amount before deductions, less
   * the foreign deductions. The result is floored at zero; amounts are exact
   * cents, so rounding to two decimals changes nothing.
   */
  function BerechneVerpflegung(
    art: Reiseart, land: string,
    startdatum: int, startzeit: Minute,
    enddatum: int, endzeit: Minute,
    frueh: bool, mittag: bool): (r: nat)
    ensures var dauer := DauerMinuten(Zeitpunkt(startdatum, startzeit), Zeitpunkt(enddatum, endzeit));
      art == Ausland ==> (r == 0 <==> dauer < AchtStunden)
    ensures art == Inland ==> (r == 0 <==> enddatum < startdatum)
  {
    var dauer := DauerMinuten(Zeitpunkt(startdatum, startzeit), Zeitpunkt(enddatum, endzeit));
    var tage := KalenderTage(startdatum, enddatum);
    if art == Inland then
      NichtNegativ(tage * InlandPauschale - KuerzungInland(frueh, mittag))
    else
      var satz := SatzFuer(land);
      if dauer < AchtStunden then
        0
      else
        NichtNegativ(AuslandVorKuerzung(satz, dauer, tage) - KuerzungAusland(satz, frueh, mittag))
  }

  /**
   * Domestic trips: the calendar-day count times 30.00 EUR, less 4.50 EUR
   * for breakfast and 7.50 EUR for lunch, once each, floored at zero; the
   * times of day, the duration and the country play no part.
   */
  lemma InlandFormel(land: string, startdatum: int, startzeit: Minute, enddatum: int, endzeit: Minute, frueh: bool, mittag: bool)
    ensures var betrag := (enddatum - startdatum + 1) * 3000 - (if frueh then 450 else 0) - (if mittag then 750 else 0);
      BerechneVerpflegung(Inland, land, startdatum, startzeit, enddatum, endzeit, frueh, mittag)
      == if betrag < 0 then 0 else betrag
  {
  }

  /** Domestic trips: changing the times of day or the country does not change the allowance. */
  lemma InlandUnabhaengigVonUhrzeitUndLand(
    land: string, land': string, startdatum: int, startzeit: Minute, startzeit': Minute,
    enddatum: int, endzeit: Minute, endzeit': Minute, frueh: bool, mittag: bool)
    ensures BerechneVerpflegung(Inland, land, startdatum, startzeit, enddatum, endzeit, frueh, mittag)
         == BerechneVerpflegung(Inland, land', startdatum, startzeit', enddatum, endzeit', frueh, mittag)
  {
  }

  /**
   * Foreign trips of at least 8 and under 24 hours: the partial-day rate less
   * 20 % of it for breakfast and 40 % of it for lunch (stated times 5, so
   * exactly).
   */
  lemma AuslandTeiltag(land: string, startdatum: int, startzeit: Minute, enddatum: int, endzeit: Minute, frueh: bool, mittag: bool)
    requires var dauer := DauerMinuten(Zeitpunkt(startdatum, startzeit), Zeitpunkt(enddatum, endzeit));
      480 <= dauer < 1440
    ensures var r := BerechneVerpflegung(Ausland, land, startdatum, startzeit, enddatum, endzeit, frueh, mittag);
      var teil := SatzFuer(land).teil;
      5 * r == 5 * teil - (if frueh then teil else 0) - (if mittag then 2 * teil else 0)
  {
  }

  /**
   * Foreign trips of 24 hours or more: `2·teil + (tage−2)·voll` when the trip
   * touches more than two calendar days and `2·teil` otherwise, less the same
   * fractions of `teil` for the meals provided (stated times 5, so exactly).
   */
  lemma AuslandMehrtaegig(land: string, startdatum: int, startzeit: Minute, enddatum: int, endzeit: Minute, frueh: bool, mittag: bool)
    requires DauerMinuten(Zeitpunkt(startdatum, startzeit), Zeitpunkt(enddatum, endzeit)) >= 1440
    ensures var r := BerechneVerpflegung(Ausland, land, startdatum, startzeit, enddatum, endzeit, frueh, mittag);
      var s := SatzFuer(land);
      var tage := enddatum - startdatum + 1;
      var vor := if tage > 2 then 2 * s.teil + (tage - 2) * s.voll else 2 * s.teil;
      5 * r == 5 * vor - (if frueh then s.teil else 0) - (if mittag then 2 * s.teil else 0)
  {
  }

  /** Each meal provided lowers the allowance or leaves it unchanged, for domestic and foreign trips. */
  lemma MahlzeitMindertNie(art: Reiseart, land: string, startdatum: int, startzeit: Minute, enddatum: int, endzeit: Minute, frueh: bool, mittag: bool)
    ensures BerechneVerpflegung(art, land, startdatum, startzeit, enddatum, endzeit, true, mittag)
         <= BerechneVerpflegung(art, land, startdatum, startzeit, enddatum, endzeit, false, mittag)
    ensures BerechneVerpflegung(art, land, startdatum, startzeit, enddatum, endzeit, frueh, true)
         <= BerechneVerpflegung(art, land, startdatum, startzeit, enddatum, endzeit, frueh, false)
  {
  }

  /**
   * Returning later never lowers the allowance: for the same start, kind,
   * country and meals, an end instant no earlier than another one earns at
   * least as much.
   */
  lemma SpaetereRueckkehrNichtWeniger(
    art: Reiseart, land: string, startdatum: int, startzeit: Minute,
    enddatum: int, endzeit: Minute, enddatum': int, endzeit': Minute, frueh: bool, mittag: bool)
    requires AbsoluteMinute(Zeitpunkt(enddatum, endzeit)) <= AbsoluteMinute(Zeitpunkt(enddatum', endzeit'))
    ensures BerechneVerpflegung(art, land, startdatum, startzeit, enddatum, endzeit, frueh, mittag)
         <= BerechneVerpflegung(art, land, startdatum, startzeit, enddatum', endzeit', frueh, mittag)
  {
  }
}

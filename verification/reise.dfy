/**
 * The figures computed for one trip when it is saved: the calendar-day count,
 * the meal allowance, the mileage cost, the overnight cost and the total.
 */
module Reise {
  import opened Regelsaetze
  import opened Zeit
  import opened Verpflegung

  /** A trip as entered: kind, country, start and end, meals provided, and the cost inputs (cents, nights, km). */
  datatype Reise = Reise(
    art: Reiseart, land: string,
    startdatum: int, startzeit: Minute,
    enddatum: int, endzeit: Minute,
    frueh: bool, mittag: bool,
    km: nat, uebernachtungen: nat,
    maut: nat, parken: nat, sonstiges: nat)

  /** The figures stored with a saved trip. */
  datatype Abrechnung = Abrechnung(tage: int, verpflegung: nat, fahrtkosten: nat, gesamt: nat)

  /** Mileage cost: 0.50 EUR per kilometre, so one euro for every two kilometres. */
  function Fahrtkosten(km: nat): (c: nat)
    ensures 2 * c == 100 * km
  {
    km * Kilometergeld
  }

  /** Mileage cost is additive in the distance driven. */
  lemma FahrtkostenLinear(a: nat, b: nat)
    ensures Fahrtkosten(a + b) == Fahrtkosten(a) + Fahrtkosten(b)
    ensures Fahrtkosten(2 * a) == 2 * Fahrtkosten(a)
  {
  }

  /** Overnight cost: 17.00 EUR per night on domestic trips, nothing on foreign trips. */
  function Uebernachtungskosten(art: Reiseart, naechte: nat): (c: nat)
    ensures art == Ausland ==> c == 0
    ensures art == Inland ==> c == 1700 * naechte
  {
    if art == Inland then naechte * InlandNacht else 0
  }

  /**
   * The figures of a trip: the meal allowance of the engine, the mileage
   * cost, and a total that adds to them tolls, parking, other costs and the
   * overnight cost.
   */
  function Abrechnen(r: Reise): (a: Abrechnung)
    ensures a.tage == r.enddatum - r.startdatum + 1
    ensures a.verpflegung == BerechneVerpflegung(r.art, r.land, r.startdatum, r.startzeit, r.enddatum, r.endzeit, r.frueh, r.mittag)
    ensures 2 * a.fahrtkosten == 100 * r.km
    ensures a.gesamt == a.verpflegung + a.fahrtkosten + r.maut + r.parken + r.sonstiges
                        + (if r.art == Inland then 1700 * r.uebernachtungen else 0)
  {
    var verpflegung := BerechneVerpflegung(r.art, r.land, r.startdatum, r.startzeit, r.enddatum, r.endzeit, r.frueh, r.mittag);
    var fahrtkosten := Fahrtkosten(r.km);
    var uebernachtungskosten := Uebernachtungskosten(r.art, r.uebernachtungen);
    var gesamt := verpflegung + fahrtkosten + r.maut + r.parken + r.sonstiges + uebernachtungskosten;
    Abrechnung(KalenderTage(r.startdatum, r.enddatum), verpflegung, fahrtkosten, gesamt)
  }

  /** On a foreign trip the number of nights entered does not change any figure. */
  lemma AuslandNaechteOhneWirkung(r: Reise, naechte: nat)
    requires r.art == Ausland
    ensures Abrechnen(r.(uebernachtungen := naechte)) == Abrechnen(r)
  {
  }

  /**
   * Raising the kilometres, the nights or any receipt amount raises the total
   * by exactly its cost; extra nights cost 17.00 EUR each on a domestic trip
   * and nothing on a foreign one.
   */
  lemma GesamtWaechstMitKosten(r: Reise, mehrKm: nat, mehrNaechte: nat, mehrMaut: nat, mehrParken: nat, mehrSonstiges: nat)
    ensures Abrechnen(r.(km := r.km + mehrKm, uebernachtungen := r.uebernachtungen + mehrNaechte,
                         maut := r.maut + mehrMaut, parken := r.parken + mehrParken,
                         sonstiges := r.sonstiges + mehrSonstiges)).gesamt
         == Abrechnen(r).gesamt + Fahrtkosten(mehrKm) + Uebernachtungskosten(r.art, mehrNaechte)
            + mehrMaut + mehrParken + mehrSonstiges
  {
    FahrtkostenLinear(r.km, mehrKm);
  }

  /**
   * Worked trips: a domestic day trip 08:00-17:00, without and with both
   * meals; a three-day trip to Germany; a day trip to a country outside the
   * table; and the total of a domestic two-day trip with mileage, tolls,
   * parking and one night.
   */
  lemma Beispiele()
    ensures BerechneVerpflegung(Inland, "Österreich", 0, 480, 0, 1020, false, false) == 3000
    ensures BerechneVerpflegung(Inland, "Österreich", 0, 480, 0, 1020, true, true) == 1800
    ensures BerechneVerpflegung(Ausland, "Deutschland", 0, 480, 2, 1020, false, false) == 12600
    ensures BerechneVerpflegung(Ausland, "Spanien", 0, 480, 0, 1080, false, true) == 1980
    ensures Abrechnen(Reise(Inland, "Österreich", 0, 480, 1, 1020, true, false, 120, 1, 950, 400, 0))
         == Abrechnung(2, 5550, 6000, 14600)
  {
  }
}

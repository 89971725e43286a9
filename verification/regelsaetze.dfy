/**
 * The rate tables ("Regelsätze") of the Austrian travel-expense calculator.
 *
 * Every amount is held in euro cents, so that the table values, and the
 * percentages of them that the meal deductions take, are exact integers.
 */
module Regelsaetze {

  /** Domestic meal allowance per calendar day: 30.00 EUR. */
  const InlandPauschale: nat := 3000
  /** Domestic overnight allowance per night: 17.00 EUR. */
  const InlandNacht: nat := 1700
  /** Mileage allowance per kilometre driven: 0.50 EUR. */
  const Kilometergeld: nat := 50

  /** Domestic meal deductions, fixed amounts: breakfast 4.50 EUR, lunch 7.50 EUR. */
  const KuerzungInlandFruehstueck: nat := 450
  const KuerzungInlandMittagessen: nat := 750

  /** Foreign meal deductions, as percentages of the partial-day rate. */
  const KuerzungAuslandFruehstueckProzent: nat := 20
  const KuerzungAuslandMittagessenProzent: nat := 40

  /** One country's entry: the full-day rate `voll` and the partial-day rate `teil`. */
  datatype Satz = Satz(voll: nat, teil: nat)

  /** The key of the fallback entry used for countries not in the table. */
  const Andere: string := "Andere"

  const AuslandPauschalen: map<string, Satz> := map[
    "Deutschland" := Satz(5800, 3400),
    "Schweiz" := Satz(8100, 4800),
    "Liechtenstein" := Satz(8100, 4800),
    "Italien" := Satz(5800, 3400),
    "Tschechien" := Satz(4900, 3000),
    "Slowakei" := Satz(4900, 3000),
    "Frankreich" := Satz(5800, 3400),
    Andere := Satz(5000, 3300)
  ]

  /**
   * An entry the calculation can rely on: a positive partial-day rate that
   * does not exceed the full-day rate and is a whole multiple of 5 cents,
   * so that 20 % and 40 % of it are whole cents.
   */
  predicate Wohlgeformt(s: Satz) {
    0 < s.teil <= s.voll && s.teil % 5 == 0
  }

  /**
   * The table lookup with fallback: a country that is not a key of the table
   * gets the "Andere" entry. Every lookup resolves to an entry of the table,
   * and that entry is well-formed.
   */
  function SatzFuer(land: string): (s: Satz)
    ensures s in AuslandPauschalen.Values
    ensures Wohlgeformt(s)
  {
    assert Andere in AuslandPauschalen;
    var s := if land in AuslandPauschalen then AuslandPauschalen[land] else AuslandPauschalen[Andere];
    assert s in AuslandPauschalen.Values;
    s
  }

  /** A country in the table gets its own entry. */
  lemma BekanntesLand(land: string)
    requires land in AuslandPauschalen
    ensures SatzFuer(land) == AuslandPauschalen[land]
  {
  }

  /** A country outside the table gets the fallback rates: 50.00 EUR full day, 33.00 EUR partial day. */
  lemma UnbekanntesLand(land: string)
    requires land !in AuslandPauschalen
    ensures SatzFuer(land) == SatzFuer(Andere) == Satz(5000, 3300)
  {
  }

  /**
   * `prozent` percent of `betrag`, in whole cents. The requires says that the
   * product is exact, which is what lets the model do without rounding.
   */
  function Anteil(betrag: nat, prozent: nat): (r: nat)
    requires (betrag * prozent) % 100 == 0
    ensures r * 100 == betrag * prozent
  {
    betrag * prozent / 100
  }

  /**
   * Both foreign meal deductions of every entry the lookup can return are
   * whole cents, so rounding the allowance to two decimals never changes it.
   */
  lemma KuerzungenCentgenau(land: string)
    ensures var s := SatzFuer(land);
      (s.teil * KuerzungAuslandFruehstueckProzent) % 100 == 0
      && (s.teil * KuerzungAuslandMittagessenProzent) % 100 == 0
  {
  }
}

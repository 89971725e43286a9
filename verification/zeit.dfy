/**
 * Dates and times of a trip, and the two quantities the meal allowance is
 * computed from: the elapsed duration and the count of calendar days.
 *
 * A date is a day number (consecutive dates differ by one), a time of day is
 * the number of minutes since midnight. Durations are in minutes, so the
 * thresholds of 8 and 24 hours become 480 and 1440 minutes.
 */
module Zeit {

  const MinutenProTag: nat := 1440
  const AchtStunden: nat := 480
  const VierundzwanzigStunden: nat := 1440

  /** A time of day, in minutes since midnight. */
  type Minute = m: int | 0 <= m < 1440

  /** A date combined with a time of day. */
  datatype Zeitpunkt = Zeitpunkt(datum: int, zeit: Minute)

  /** The instant as minutes since day number 0, 00:00. */
  function AbsoluteMinute(t: Zeitpunkt): int {
    t.datum * MinutenProTag + t.zeit
  }

  /** Zeitpunkte are ordered as the instants they stand for. */
  lemma AbsoluteMinuteInjektiv(s: Zeitpunkt, t: Zeitpunkt)
    ensures AbsoluteMinute(s) == AbsoluteMinute(t) <==> s == t
    ensures AbsoluteMinute(s) < AbsoluteMinute(t) <==> s.datum < t.datum || (s.datum == t.datum && s.zeit < t.zeit)
  {
  }

  /**
   * The count of calendar days from the start date to the end date, both
   * included. It is 1 for a same-day trip and 0 or less when the end date
   * lies before the start date.
   */
  function KalenderTage(startdatum: int, enddatum: int): (tage: int)
    ensures startdatum + tage - 1 == enddatum
  {
    enddatum - startdatum + 1
  }

  /**
   * The elapsed duration from the start instant to the end instant, in
   * minutes; negative when the end lies before the start (no day is added
   * for an end time earlier than the start time). It lies strictly between
   * `tage - 2` and `tage` whole days, where `tage` counts the calendar days.
   */
  function DauerMinuten(start: Zeitpunkt, ende: Zeitpunkt): (d: int)
    ensures var tage := KalenderTage(start.datum, ende.datum);
      (tage - 2) * MinutenProTag < d < tage * MinutenProTag
    ensures d >= 0 <==> AbsoluteMinute(start) <= AbsoluteMinute(ende)
  {
    AbsoluteMinute(ende) - AbsoluteMinute(start)
  }

  /** A trip of at least 24 hours touches at least two calendar days. */
  lemma MindestensEinTagHeisstZweiKalendertage(start: Zeitpunkt, ende: Zeitpunkt)
    requires DauerMinuten(start, ende) >= VierundzwanzigStunden
    ensures KalenderTage(start.datum, ende.datum) >= 2
  {
  }

  /** A trip over three or more calendar days lasts more than 24 hours. */
  lemma DreiKalendertageHeisstMehrAlsEinTag(start: Zeitpunkt, ende: Zeitpunkt)
    requires KalenderTage(start.datum, ende.datum) >= 3
    ensures DauerMinuten(start, ende) > VierundzwanzigStunden
  {
  }

  /** The instant `n` minutes after `t`, carrying over into the following days. */
  function Plus(t: Zeitpunkt, n: nat): (u: Zeitpunkt)
    ensures AbsoluteMinute(u) == AbsoluteMinute(t) + n
  {
    var m := t.zeit + n;
    Zeitpunkt(t.datum + m / MinutenProTag, m % MinutenProTag)
  }

  /** The duration from `t` to `n` minutes after `t` is `n`, also across midnight. */
  lemma DauerNachPlus(t: Zeitpunkt, n: nat)
    ensures DauerMinuten(t, Plus(t, n)) == n
  {
  }

  /** Going the elapsed duration forward from the start reaches the end again. */
  lemma PlusNachDauer(start: Zeitpunkt, ende: Zeitpunkt)
    requires AbsoluteMinute(start) <= AbsoluteMinute(ende)
    ensures Plus(start, DauerMinuten(start, ende)) == ende
  {
  }
}

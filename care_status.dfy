/** The care-status badge of a pet: how fresh its newest care entry is. */
module CareStatus {
  import opened Common

  const MillisPerDay: int := 1000 * 60 * 60 * 24

  datatype Status = Current | Attention | Outdated

  /** The tooltip either says there are no entries or names the date of the
      last one (its rendering, a date-fns format, is not modelled). */
  datatype Tooltip = NoEntries | LastEntry(at: int)

  datatype CareStatusView = CareStatusView(status: Status, emoji: string, text: string, tooltip: Tooltip)

  /** Whole days from `last` to `now`, rounded down (negative for a future
      entry): `Math.floor((now - last) / 86400000)` on integer milliseconds.
      Dafny's division by a positive number rounds down as `Math.floor` does. */
  function DaysSince(now: int, last: int): (d: int)
    ensures d * MillisPerDay <= now - last < (d + 1) * MillisPerDay
  {
    (now - last) / MillisPerDay
  }

  /** Freshness bucket for an age in days: up to 30 current, up to 90
      attention, beyond that outdated. */
  function Bucket(days: int): Status {
    if days <= 30 then Current else if days <= 90 then Attention else Outdated
  }

  /** `calculateCareStatus(lastEntryDate)` with the clock passed as `now`. */
  function CalculateCareStatus(lastEntry: Option<int>, now: int): (v: CareStatusView)
    ensures lastEntry.None? ==> v == CareStatusView(Outdated, "\U{1F534}", "Nieaktualne", NoEntries)
    ensures lastEntry.Some? ==>
      v.status == Bucket(DaysSince(now, lastEntry.value)) && v.tooltip == LastEntry(lastEntry.value)
    ensures v.status == Current ==> v.emoji == "\U{1F7E2}" && v.text == "Aktualne"
    ensures v.status == Attention ==> v.emoji == "\U{1F7E1}" && v.text == "Wymaga uwagi"
    ensures v.status == Outdated ==> v.emoji == "\U{1F534}" && v.text == "Nieaktualne"
  {
    match lastEntry
    case None => CareStatusView(Outdated, "\U{1F534}", "Nieaktualne", NoEntries)
    case Some(last) =>
      var days := DaysSince(now, last);
      if days <= 30 then CareStatusView(Current, "\U{1F7E2}", "Aktualne", LastEntry(last))
      else if days <= 90 then CareStatusView(Attention, "\U{1F7E1}", "Wymaga uwagi", LastEntry(last))
      else CareStatusView(Outdated, "\U{1F534}", "Nieaktualne", LastEntry(last))
  }

  /** Freshness order: current before attention before outdated. */
  function Rank(s: Status): nat {
    match s
    case Current => 0
    case Attention => 1
    case Outdated => 2
  }

  /** The bucket boundaries in milliseconds: an entry is current exactly when
      it is less than 31 whole days old, and outdated exactly when it is at
      least 91 whole days old; a future entry is current. */
  lemma {:induction false} StatusBoundaries(now: int, last: int)
    ensures CalculateCareStatus(Some(last), now).status == Current <==> now - last < 31 * MillisPerDay
    ensures CalculateCareStatus(Some(last), now).status == Outdated <==> now - last >= 91 * MillisPerDay
    ensures last >= now ==> CalculateCareStatus(Some(last), now).status == Current
  {
    var d := DaysSince(now, last);
    if d <= 30 {
      assert (d + 1) * MillisPerDay <= 31 * MillisPerDay;
    } else {
      assert d * MillisPerDay >= 31 * MillisPerDay;
    }
    if d <= 90 {
      assert (d + 1) * MillisPerDay <= 91 * MillisPerDay;
    } else {
      assert d * MillisPerDay >= 91 * MillisPerDay;
    }
  }

  /** An older last entry never yields a fresher status. */
  lemma {:induction false} StatusMonotone(now: int, older: int, newer: int)
    requires older <= newer
    ensures Rank(CalculateCareStatus(Some(newer), now).status)
         <= Rank(CalculateCareStatus(Some(older), now).status)
  {
    StatusBoundaries(now, older);
    StatusBoundaries(now, newer);
  }

  /** The edges the badge's tests pin down: exactly 30 days is still current,
      31 days needs attention, exactly 90 days still needs attention, 91 days
      is outdated. */
  lemma DayEdges(now: int)
    ensures CalculateCareStatus(Some(now - 30 * MillisPerDay), now).status == Current
    ensures CalculateCareStatus(Some(now - 31 * MillisPerDay), now).status == Attention
    ensures CalculateCareStatus(Some(now - 90 * MillisPerDay), now).status == Attention
    ensures CalculateCareStatus(Some(now - 91 * MillisPerDay), now).status == Outdated
  {
  }
}

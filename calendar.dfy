/** Calendar dates as java.time counts them. A date is its epoch-day number
    (days since 1970-01-01, the value of LocalDate.toEpochDay), so the
    days between two dates (ChronoUnit.DAYS.between) are a subtraction and
    the weekday is a fixed function of the number. */
module Calendar {

  /** java.time.DayOfWeek, in ISO order: Monday first, Sunday last. */
  datatype DayOfWeek = Monday | Tuesday | Wednesday | Thursday | Friday | Saturday | Sunday

  /** The weekday at zero-based ISO position `i` (DayOfWeek.of(i + 1)). */
  function FromOrdinal(i: nat): DayOfWeek
    requires i < 7
  {
    if i == 0 then Monday
    else if i == 1 then Tuesday
    else if i == 2 then Wednesday
    else if i == 3 then Thursday
    else if i == 4 then Friday
    else if i == 5 then Saturday
    else Sunday
  }

  /** Zero-based ISO position of a weekday; FromOrdinal undoes it. */
  function Ordinal(w: DayOfWeek): (i: nat)
    ensures i < 7
    ensures FromOrdinal(i) == w
  {
    match w
    case Monday => 0
    case Tuesday => 1
    case Wednesday => 2
    case Thursday => 3
    case Friday => 4
    case Saturday => 5
    case Sunday => 6
  }

  /** LocalDate.getDayOfWeek: floorMod(epochDay + 3, 7) is the ISO position,
      because 1970-01-01 was a Thursday. Dafny's `%` is the floor modulus
      for a positive divisor, so negative day numbers are handled as Java does. */
  function DayOfWeekOf(day: int): (w: DayOfWeek)
    ensures Ordinal(w) == (day + 3) % 7
    ensures day % 7 == 0 ==> w == Thursday
  {
    FromOrdinal((day + 3) % 7)
  }

  /** Moving `k` days on moves the weekday `k` places round the week. */
  lemma DayOfWeekAfter(day: int, k: nat)
    ensures Ordinal(DayOfWeekOf(day + k)) == (Ordinal(DayOfWeekOf(day)) + k) % 7
  {
  }

  /** The first day on or after `from` that falls on weekday `w`: it is less
      than a week away, and no earlier day in between falls on `w`. */
  function NextOccurrence(from: int, w: DayOfWeek): (n: int)
    ensures from <= n < from + 7
    ensures DayOfWeekOf(n) == w
    ensures forall k :: from <= k < n ==> DayOfWeekOf(k) != w
  {
    var s := Ordinal(DayOfWeekOf(from));
    var t := Ordinal(w);
    var delta := if s <= t then t - s else t - s + 7;
    DayOfWeekAfter(from, delta);
    assert Ordinal(DayOfWeekOf(from + delta)) == t;
    assert forall k :: from <= k < from + delta ==> DayOfWeekOf(k) != w by {
      forall k | from <= k < from + delta
        ensures DayOfWeekOf(k) != w
      {
        DayOfWeekAfter(from, k - from);
      }
    }
    from + delta
  }
}

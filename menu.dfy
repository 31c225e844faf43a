/** How a numbered menu choice becomes a spending mode or a reset day. The
    menus list the options in a fixed order; a number outside the list falls
    back to a default instead of being refused. */
module Menu {
  import opened Calendar
  import opened Records

  /** The modes in the order the mode menus list them, numbered from 1. */
  const ModeMenu: seq<Mode> := [Conservative, Balanced, Relaxed]

  /** The weekdays in the order the reset-day menu lists them, numbered from 1. */
  const ResetDayMenu: seq<DayOfWeek> := [Sunday, Monday, Tuesday, Wednesday, Thursday, Friday, Saturday]

  /** A mode menu's answer: the listed mode, or `fallback` for any other
      number (Balanced when setting the account's mode, the account's own
      mode when choosing a simulation mode). */
  function ModeChoice(choice: int, fallback: Mode): (m: Mode)
    ensures 1 <= choice <= |ModeMenu| ==> m == ModeMenu[choice - 1]
    ensures !(1 <= choice <= |ModeMenu|) ==> m == fallback
  {
    if choice == 1 then Conservative
    else if choice == 2 then Balanced
    else if choice == 3 then Relaxed
    else fallback
  }

  /** The number that selects mode `m`, whatever the fallback. */
  function ModeMenuNumber(m: Mode): (n: int)
    ensures 1 <= n <= |ModeMenu|
    ensures forall fallback :: ModeChoice(n, fallback) == m
  {
    match m
    case Conservative => 1
    case Balanced => 2
    case Relaxed => 3
  }

  /** The reset-day menu's answer: the listed weekday, or Monday for any
      other number. */
  function ResetDayChoice(choice: int): (d: DayOfWeek)
    ensures 1 <= choice <= |ResetDayMenu| ==> d == ResetDayMenu[choice - 1]
    ensures !(1 <= choice <= |ResetDayMenu|) ==> d == Monday
  {
    if choice == 1 then Sunday
    else if choice == 2 then Monday
    else if choice == 3 then Tuesday
    else if choice == 4 then Wednesday
    else if choice == 5 then Thursday
    else if choice == 6 then Friday
    else if choice == 7 then Saturday
    else Monday
  }

  /** The number that selects weekday `d`: every weekday can be chosen. */
  function ResetDayMenuNumber(d: DayOfWeek): (n: int)
    ensures 1 <= n <= |ResetDayMenu|
    ensures ResetDayChoice(n) == d
  {
    if d == Sunday then 1 else Ordinal(d) + 2
  }
}

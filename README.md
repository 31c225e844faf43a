# Smart Piggy Bank: budget accounting and weekly reset

A model of the budget engine of the Smart Piggy Bank console app
(`SmartPiggyBankApp.java`). The app tracks a weekly allowance. It logs
income and expense transactions, keeps savings goals ("events") with a
funded amount, and lets money be stored away from the week's budget. On a
chosen weekday it resets the week. The Java program keeps this state in
static fields; here it is one object, `PiggyBankApp.PiggyBank`, whose
methods update its fields.

- Money is `real`, not `double`.
- A date is its epoch-day number, as `LocalDate.toEpochDay` gives it. The
  weekday is `floorMod(day + 3, 7)` in ISO order (1970-01-01 was a
  Thursday). The number of days between two dates is their difference.
- Every call of `LocalDate.now()` becomes a `today` parameter.
- Menu answers arrive as the numbers and amounts already read.

Modules:

- `Calendar` (calendar.dfy): weekdays, day arithmetic, the next occurrence
  of a weekday.
- `Records` (records.dfy): the spending `Mode`, the immutable `Transaction`,
  and the `Event` class whose `funded` field changes.
- `Ledger` (ledger.dfy): the stream folds. These are sums, the
  filter/map/sum of a day's expenses, and the list of funded amounts.
- `Projector` (projector.dfy): the savings simulation for one goal.
- `Menu` (menu.dfy): from a menu number to a mode or a reset day.
- `PiggyBankApp` (piggybank.dfy): the state object and its operations, plus
  verified worked examples (`DailyBudgetExample`, `StoreMoneyExample`,
  `SimulationExample`, `WeeklyResetExample`).

`WeeklyRemaining` and `RemainingDailyBudget` are plain functions of the
state (weekly allowance minus spent, stored and reserved money; daily budget
minus today's spending). They carry no contract of their own. The contract
of every mutator says exactly how it moves them, and none of them is kept
non-negative except by `StoreMoney`.

The code checks less than its prompts suggest; the model follows the code:

- Transaction amounts and goal targets are never checked for sign.
- `Event.addFunds` accepts any amount. Only the funding menu tests
  `amount > 0`.
- An answer other than 1 to "1 = Expense, 2 = Income" records income.

## Model

| member | source | states |
|---|---|---|
| Calendar.DayOfWeekOf | SmartPiggyBankApp.java:151-152 | the weekday of a date is its ISO position `floorMod(day + 3, 7)`; every day divisible by seven is a Thursday |
| Calendar.Ordinal | SmartPiggyBankApp.java:152 | a weekday's ISO position is below seven and maps back to the same weekday |
| Calendar.DayOfWeekAfter | SmartPiggyBankApp.java:152 | moving k days on moves the weekday k places round the week |
| Calendar.NextOccurrence | SmartPiggyBankApp.java:152 | the first day on or after a date with a given weekday is less than a week away, and no day in between has that weekday |
| Records.Event.constructor | SmartPiggyBankApp.java:57-60 | a new goal keeps its name, target and date and starts with nothing funded |
| Records.Event.AddFunds | SmartPiggyBankApp.java:64 | the funded amount grows by the given amount, whatever its sign |
| Records.Event.Remaining | SmartPiggyBankApp.java:65 | remainder plus funded is the target; the remainder is negative exactly when the goal is overfunded |
| Records.Event.DaysLeft | SmartPiggyBankApp.java:68-70 | at least 1 and at least the day count to the goal date; it is that count or 1; for a future date it is exactly the count |
| Records.Event.DailyRecommendation | SmartPiggyBankApp.java:72-74 | the recommendation times the days left is exactly the remainder; it is non-negative exactly when the remainder is |
| Ledger.Sum | SmartPiggyBankApp.java:135-139 | the sum of a list of amounts (`DoubleStream.sum` on reals); what it means is stated by the four lemmas below |
| Ledger.SumAppend | SmartPiggyBankApp.java:132-139 | the sum of two concatenated amount lists is the sum of their sums |
| Ledger.SumUpdate | SmartPiggyBankApp.java:139 | replacing one amount changes the sum by exactly the difference |
| Ledger.SumOfZeros | SmartPiggyBankApp.java:139 | a list of zero amounts sums to zero |
| Ledger.SumNonnegative | SmartPiggyBankApp.java:139 | a list of non-negative amounts has a non-negative sum |
| Ledger.ExpensesOn | SmartPiggyBankApp.java:133 | the filtered list holds exactly the expenses dated today, and no more records than the input |
| Ledger.ExpensesOnCounts | SmartPiggyBankApp.java:133 | each expense dated today occurs in the filtered list exactly as often as in the input, and nothing else occurs, so equal records are not merged |
| Ledger.Amounts | SmartPiggyBankApp.java:134 | position by position, each transaction's amount |
| Ledger.Contributions | SmartPiggyBankApp.java:130-136 | position by position, the amount of an expense dated today and zero for anything else |
| Ledger.FilteredSumIsMaskedSum | SmartPiggyBankApp.java:130-136 | filter, map and sum give the same total as summing all records with income and other days' expenses counted as zero |
| Ledger.ContributionsAppend | SmartPiggyBankApp.java:299-300 | appending a transaction adds its own contribution to the day's total and nothing else |
| Ledger.Fundings | SmartPiggyBankApp.java:139 | position by position, each goal's funded amount |
| Ledger.FundingsAppend | SmartPiggyBankApp.java:139 | appending a goal appends its funded amount |
| Projector.Project | SmartPiggyBankApp.java:396-415 | the projection is the remainder times 1.2, 1.0 or 0.8 by mode, and so is the daily saving times the days left; the goal is reached exactly when the projection covers the remainder (for Conservative exactly when the remainder is non-negative, always for Balanced, for Relaxed exactly when it is at most zero); a shortfall is positive and tops the projection up to the remainder |
| Menu.ModeChoice | SmartPiggyBankApp.java:229-238 | numbers 1 to 3 pick the listed mode in menu order; any other number gives the fallback (Balanced in settings, the account's mode in the simulation) |
| Menu.ModeMenuNumber | SmartPiggyBankApp.java:387-395 | every mode has a menu number in range that selects it whatever the fallback |
| Menu.ResetDayChoice | SmartPiggyBankApp.java:244-266 | numbers 1 to 7 pick Sunday to Saturday in menu order; any other number gives Monday |
| Menu.ResetDayMenuNumber | SmartPiggyBankApp.java:244-261 | every weekday has a menu number in range that selects it |
| PiggyBankApp.ResetDue | SmartPiggyBankApp.java:152 | the reset condition: today's weekday is the reset day and today is not the last reset; it never holds on another weekday, and never on the day of the last reset |
| PiggyBankApp.NextResetDay | SmartPiggyBankApp.java:150-160 | with the last reset in the past and a check every day, the reset first becomes due on the next occurrence of the reset weekday, less than a week away, and on no day before it |
| PiggyBankApp.PiggyBank.constructor | SmartPiggyBankApp.java:88-99 | the initial state: all amounts zero, Balanced, Monday, last reset one week before today, no transactions or goals |
| PiggyBankApp.PiggyBank.DailyBudget | SmartPiggyBankApp.java:122-128 | ten, seven or five daily budgets (Conservative, Balanced, Relaxed) make the weekly allowance; for a non-negative allowance it lies between zero and the allowance |
| PiggyBankApp.PiggyBank.TodaySpent | SmartPiggyBankApp.java:130-136 | the day's spending is the sum over all transactions in which only expenses dated today count |
| PiggyBankApp.PiggyBank.ReservedForEvents | SmartPiggyBankApp.java:138-140 | zero when no goal holds money; non-negative when no goal has a negative funded amount |
| PiggyBankApp.PiggyBank.WeeklyRemaining | SmartPiggyBankApp.java:142-144 | the allowance less weekly spending, stored money and reserved goal money, with no lower bound; its meaning is carried by the mutators' contracts, which state how each operation moves it |
| PiggyBankApp.PiggyBank.RemainingDailyBudget | SmartPiggyBankApp.java:146-148 | the daily budget less today's spending, with no lower bound; its meaning is carried by `AddTransaction`'s contract and the worked examples |
| PiggyBankApp.PiggyBank.SetAllowance | SmartPiggyBankApp.java:220-225 | the allowance becomes the entered amount; nothing else changes |
| PiggyBankApp.PiggyBank.SetSpendingMode | SmartPiggyBankApp.java:227-240 | the mode becomes the menu's answer with Balanced as fallback; nothing else changes |
| PiggyBankApp.PiggyBank.SetResetDay | SmartPiggyBankApp.java:242-268 | the reset day becomes the menu's answer with Monday as fallback; nothing else changes |
| PiggyBankApp.PiggyBank.AddTransaction | SmartPiggyBankApp.java:291-302 | exactly one record, dated today, is appended; weekly spending, today's spending and the weekly remainder move by the amount when it is an expense and not at all for income; no other field changes |
| PiggyBankApp.PiggyBank.AddEvent | SmartPiggyBankApp.java:336-346 | a fresh unfunded goal is appended; the goals stay distinct objects; reserved money and the weekly remainder are unchanged |
| PiggyBankApp.PiggyBank.FundEvent | SmartPiggyBankApp.java:348-379 | no goals, back, an invalid number and a non-positive amount change nothing; otherwise only the chosen goal gains the amount; no goal's funding decreases; reserved money rises and the weekly remainder falls by what was added |
| PiggyBankApp.PiggyBank.StoreMoney | SmartPiggyBankApp.java:418-428 | accepted exactly when 0 < amount <= the weekly remainder; an accepted amount is added to stored money and leaves the remainder non-negative; a refused one changes nothing |
| PiggyBankApp.PiggyBank.CheckWeeklyReset | SmartPiggyBankApp.java:150-160 | fires exactly when today is the reset weekday and differs from the last reset; then spending, stored money and every goal's funding become zero, the last reset becomes today and the remainder is the whole allowance, while the allowance, mode, reset day, goal list and transactions are kept; otherwise nothing changes; afterwards the reset is no longer due today |
| PiggyBankApp.PiggyBank.SimulateSavings | SmartPiggyBankApp.java:381-416 | one report per goal, in list order, each the projection of that goal's remainder and days left under the mode picked from the menu (the account's mode for an unlisted number); nothing changes |
| PiggyBankApp.StartUp | SmartPiggyBankApp.java:176-179 | the check at start-up followed by the check before the first redraw act as one check: the second never fires |

## Left out

- Console I/O is not modelled. This covers the menu loops, `header`,
  `printCentered`, `printLeft`, `listTransactions`, `summary`, `Scanner`
  input and the re-prompt loops of `readInt` and `readDouble`. Operations
  take the values already read.
- `FundEvent` models one pass of the funding menu's loop. Repeated passes
  are repeated calls.
- `saveData` and `loadData` (the data file) are not modelled. That includes
  the write after every mutating menu action and after a reset. This is
  file I/O built on `Double.toString`, `LocalDate.parse` and `String.split`.
  `loadData` assigns the fields as it parses. Its catch keeps whatever was
  read before the error, so a malformed file leaves a partly loaded state.
  For example, a bad mode line keeps the file's amounts with the default
  mode, reset day and last reset. A bad transaction line keeps the earlier
  transactions and no goals.
- A malformed goal date is not modelled. `addEvent` parses it with
  `LocalDate.parse`, which throws, and nothing catches the exception, so
  the program ends. `AddEvent` takes an already-parsed date.
- The first-run setup in `main` is not modelled as one step. It is the
  sequence `SetAllowance`, `SetSpendingMode`, `SetResetDay`.
- Display strings are not modelled: `String.format`, `getType`,
  `getDisplayInfo`. The `FinancialItem` base class is only shared
  presentation, so `Transaction` is a datatype and `Event` a class, with no
  common supertype.
- IEEE-754 `double` rounding is not modelled. With reals, a Balanced
  projection always equals the remainder exactly. In Java, rounding of
  `remaining / daysLeft * daysLeft` can make it fall just short.
- `NaN` and infinite amounts do not exist in the model.
- The wall clock is not modelled. `today` is a parameter, and the range of
  `LocalDate` is not bounded.
- Menu numbers are unbounded integers rather than Java `int`. The only
  arithmetic on them is `readInt() - 1` in the funding menu. That wraps at
  `Integer.MIN_VALUE` in Java but still names no goal, so the outcome is the
  same.

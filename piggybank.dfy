/** The piggy bank's state and the operations the menus perform on it: the
    budget figures, recording transactions, funding goals, storing money,
    the weekly reset and the savings simulation. The Java program keeps
    this state in static fields of one class; here it is one object. Every
    operation that asked the clock for the current date takes `today`. */
module PiggyBankApp {
  import opened Calendar
  import opened Records
  import opened Ledger
  import opened Projector
  import opened Menu

  /** The reset rule: due on the configured weekday, unless it already ran
      that very day. */
  function ResetDue(resetDay: DayOfWeek, lastReset: int, today: int): (due: bool)
    ensures DayOfWeekOf(today) != resetDay ==> !due
    ensures lastReset == today ==> !due
  {
    DayOfWeekOf(today) == resetDay && lastReset != today
  }

  /** There is no catch-up for missed reset days. If the check runs every day
      from `from` on, the first day the reset is due is the next occurrence
      of the reset weekday, less than a week away; no earlier day is due. */
  function NextResetDay(resetDay: DayOfWeek, lastReset: int, from: int): (n: int)
    requires lastReset < from
    ensures from <= n < from + 7
    ensures ResetDue(resetDay, lastReset, n)
    ensures forall k :: from <= k < n ==> !ResetDue(resetDay, lastReset, k)
  {
    NextOccurrence(from, resetDay)
  }

  /** What one pass of the goal-funding menu did. */
  datatype FundOutcome =
    | NoEvents          // there is no goal to fund
    | Back              // choice 0 leaves the menu
    | InvalidSelection  // a number that names no goal
    | NotPositive       // a goal was chosen but the amount was not positive
    | Funded            // the amount was added to the chosen goal

  class PiggyBank {
    var weeklyAllowance: real
    var weeklySpent: real
    var storedMoney: real
    var mode: Mode
    var resetDay: DayOfWeek
    var lastReset: int
    var tx: seq<Transaction>
    var events: seq<Event>

    /** Every goal in the list is its own object: a goal is only ever added
        freshly created, so funding one goal never changes another. */
    ghost predicate Valid()
      reads this
    {
      forall i, j :: 0 <= i < j < |events| ==> events[i] != events[j]
    }

    /** The state before any setup: nothing allowed, spent or stored,
        Balanced mode, Monday resets, last reset a week ago. */
    constructor (today: int)
      ensures Valid()
      ensures weeklyAllowance == 0.0 && weeklySpent == 0.0 && storedMoney == 0.0
      ensures mode == Balanced && resetDay == Monday && lastReset == today - 7
      ensures tx == [] && events == []
    {
      weeklyAllowance, weeklySpent, storedMoney := 0.0, 0.0, 0.0;
      mode := Balanced;
      resetDay := Monday;
      lastReset := today - 7;
      tx, events := [], [];
    }

    /** The daily budget spreads the weekly allowance over ten, seven or five
        days by mode; for a non-negative allowance it is between zero and the
        allowance. */
    function DailyBudget(): (r: real)
      reads this
      ensures mode == Conservative ==> r * 10.0 == weeklyAllowance
      ensures mode == Balanced ==> r * 7.0 == weeklyAllowance
      ensures mode == Relaxed ==> r * 5.0 == weeklyAllowance
      ensures weeklyAllowance >= 0.0 ==> 0.0 <= r <= weeklyAllowance
    {
      match mode
      case Conservative => weeklyAllowance / 10.0
      case Balanced => weeklyAllowance / 7.0
      case Relaxed => weeklyAllowance / 5.0
    }

    /** The spending of `today`: the expenses dated `today`, summed. Income
        and expenses of any other day contribute nothing. */
    function TodaySpent(today: int): (r: real)
      reads this
      ensures r == Sum(Contributions(tx, today))
    {
      FilteredSumIsMaskedSum(tx, today);
      Sum(Amounts(ExpensesOn(tx, today)))
    }

    /** All money put into goals; zero when no goal holds any. */
    function ReservedForEvents(): (r: real)
      reads this, events
      ensures (forall i :: 0 <= i < |events| ==> events[i].funded == 0.0) ==> r == 0.0
      ensures (forall i :: 0 <= i < |events| ==> events[i].funded >= 0.0) ==> r >= 0.0
    {
      var fs := Fundings(events);
      assert (forall i :: 0 <= i < |events| ==> events[i].funded == 0.0) ==> Sum(fs) == 0.0 by {
        if forall i :: 0 <= i < |events| ==> events[i].funded == 0.0 {
          SumOfZeros(fs);
        }
      }
      assert (forall i :: 0 <= i < |events| ==> events[i].funded >= 0.0) ==> Sum(fs) >= 0.0 by {
        if forall i :: 0 <= i < |events| ==> events[i].funded >= 0.0 {
          SumNonnegative(fs);
        }
      }
      Sum(fs)
    }

    /** What is left of the allowance this week: the allowance less what was
        spent, stored and put into goals. It is not stored but derived, and
        nothing stops it from going negative. */
    function WeeklyRemaining(): (r: real)
      reads this, events
    {
      weeklyAllowance - weeklySpent - storedMoney - ReservedForEvents()
    }

    /** What is left of today's budget once today's expenses are taken off;
        negative after overspending. */
    function RemainingDailyBudget(today: int): (r: real)
      reads this
    {
      DailyBudget() - TodaySpent(today)
    }

    /** Sets the weekly allowance to the amount entered, unchecked. */
    method SetAllowance(amount: real)
      modifies this
      ensures weeklyAllowance == amount
      ensures weeklySpent == old(weeklySpent) && storedMoney == old(storedMoney)
      ensures mode == old(mode) && resetDay == old(resetDay) && lastReset == old(lastReset)
      ensures tx == old(tx) && events == old(events)
    {
      weeklyAllowance := amount;
    }

    /** Sets the mode from the menu number; an unlisted number means Balanced. */
    method SetSpendingMode(choice: int)
      modifies this
      ensures mode == ModeChoice(choice, Balanced)
      ensures weeklyAllowance == old(weeklyAllowance) && weeklySpent == old(weeklySpent)
      ensures storedMoney == old(storedMoney)
      ensures resetDay == old(resetDay) && lastReset == old(lastReset)
      ensures tx == old(tx) && events == old(events)
    {
      mode := ModeChoice(choice, Balanced);
    }

    /** Sets the reset day from the menu number; an unlisted number means Monday. */
    method SetResetDay(choice: int)
      modifies this
      ensures resetDay == ResetDayChoice(choice)
      ensures weeklyAllowance == old(weeklyAllowance) && weeklySpent == old(weeklySpent)
      ensures storedMoney == old(storedMoney)
      ensures mode == old(mode) && lastReset == old(lastReset)
      ensures tx == old(tx) && events == old(events)
    {
      resetDay := ResetDayChoice(choice);
    }

    /** Records a transaction dated `today`. Kind 1 is an expense, any other
        kind income. Exactly one record is appended; only an expense adds to
        the week's and the day's spending. */
    method AddTransaction(name: string, amount: real, kindChoice: int, today: int)
      modifies this
      ensures tx == old(tx) + [Transaction(name, amount, kindChoice == 1, today)]
      ensures weeklySpent == old(weeklySpent) + (if kindChoice == 1 then amount else 0.0)
      ensures weeklyAllowance == old(weeklyAllowance) && storedMoney == old(storedMoney)
      ensures mode == old(mode) && resetDay == old(resetDay) && lastReset == old(lastReset)
      ensures events == old(events)
      ensures TodaySpent(today) == old(TodaySpent(today)) + (if kindChoice == 1 then amount else 0.0)
      ensures RemainingDailyBudget(today) == old(RemainingDailyBudget(today)) - (if kindChoice == 1 then amount else 0.0)
      ensures WeeklyRemaining() == old(WeeklyRemaining()) - (if kindChoice == 1 then amount else 0.0)
    {
      var isExpense := kindChoice == 1;
      var t := Transaction(name, amount, isExpense, today);
      ContributionsAppend(tx, t, today);
      tx := tx + [t];
      if isExpense {
        weeklySpent := weeklySpent + amount;
      }
    }

    /** Adds a new, unfunded goal at the end of the list. */
    method AddEvent(name: string, needed: real, date: int) returns (e: Event)
      requires Valid()
      modifies this
      ensures Valid() && fresh(e)
      ensures events == old(events) + [e]
      ensures e.name == name && e.needed == needed && e.date == date && e.funded == 0.0
      ensures weeklyAllowance == old(weeklyAllowance) && weeklySpent == old(weeklySpent)
      ensures storedMoney == old(storedMoney)
      ensures mode == old(mode) && resetDay == old(resetDay) && lastReset == old(lastReset)
      ensures tx == old(tx)
      ensures ReservedForEvents() == old(ReservedForEvents())
      ensures WeeklyRemaining() == old(WeeklyRemaining())
    {
      e := new Event(name, needed, date);
      FundingsAppend(events, e);
      SumAppend(Fundings(events), [0.0]);
      events := events + [e];
    }

    /** One pass of the goal-funding menu: goal number `selection` (0 to go
        back) receives `amount` when the amount is positive. Funding through
        the menu therefore never lowers a goal's funded amount. */
    method FundEvent(selection: int, amount: real) returns (outcome: FundOutcome)
      requires Valid()
      modifies events
      ensures Valid()
      ensures events == [] ==> outcome == NoEvents
      ensures events != [] && selection == 0 ==> outcome == Back
      ensures events != [] && selection != 0 && !(1 <= selection <= |events|) ==> outcome == InvalidSelection
      ensures events != [] && 1 <= selection <= |events| && amount <= 0.0 ==> outcome == NotPositive
      ensures events != [] && 1 <= selection <= |events| && amount > 0.0 ==> outcome == Funded
      ensures outcome == Funded ==> events[selection - 1].funded == old(events[selection - 1].funded) + amount
      ensures forall j :: 0 <= j < |events| && !(outcome == Funded && j == selection - 1) ==>
                events[j].funded == old(events[j].funded)
      ensures forall j :: 0 <= j < |events| ==> events[j].funded >= old(events[j].funded)
      ensures ReservedForEvents() == old(ReservedForEvents()) + (if outcome == Funded then amount else 0.0)
      ensures WeeklyRemaining() == old(WeeklyRemaining()) - (if outcome == Funded then amount else 0.0)
    {
      if events == [] {
        return NoEvents;
      }
      var idx := selection - 1;
      if idx == -1 {
        return Back;
      }
      if idx < 0 || idx >= |events| {
        return InvalidSelection;
      }
      if amount <= 0.0 {
        return NotPositive;
      }
      ghost var before := Fundings(events);
      var e := events[idx];
      e.AddFunds(amount);
      ghost var after := Fundings(events);
      forall j | 0 <= j < |events|
        ensures after[j] == before[idx := before[idx] + amount][j]
      {
        if j != idx {
          assert events[j] != events[idx];
        }
      }
      assert after == before[idx := before[idx] + amount];
      SumUpdate(before, idx, before[idx] + amount);
      outcome := Funded;
    }

    /** Moves `amt` of this week's remaining allowance into stored money. It
        is accepted only when it is positive and no more than what remains,
        so an accepted amount leaves the week with a non-negative remainder;
        a refused amount changes nothing. */
    method StoreMoney(amt: real) returns (ok: bool)
      modifies this
      ensures ok <==> 0.0 < amt <= old(WeeklyRemaining())
      ensures storedMoney == old(storedMoney) + (if ok then amt else 0.0)
      ensures WeeklyRemaining() == old(WeeklyRemaining()) - (if ok then amt else 0.0)
      ensures ok ==> WeeklyRemaining() >= 0.0
      ensures weeklyAllowance == old(weeklyAllowance) && weeklySpent == old(weeklySpent)
      ensures mode == old(mode) && resetDay == old(resetDay) && lastReset == old(lastReset)
      ensures tx == old(tx) && events == old(events)
    {
      ok := amt > 0.0 && amt <= WeeklyRemaining();
      if ok {
        storedMoney := storedMoney + amt;
      }
    }

    /** The weekly reset. On the reset weekday, once per date, it zeroes the
        week's spending, the stored money and every goal's funding (the goals
        themselves, their targets and dates, and all transactions are kept)
        and records `today` as the last reset. On any other call it changes
        nothing. Afterwards the reset is not due again on the same date, so a
        second call that day is a no-op. */
    method CheckWeeklyReset(today: int) returns (fired: bool)
      requires Valid()
      modifies this, events
      ensures Valid()
      ensures fired == old(ResetDue(resetDay, lastReset, today))
      ensures !ResetDue(resetDay, lastReset, today)
      ensures weeklyAllowance == old(weeklyAllowance) && mode == old(mode) && resetDay == old(resetDay)
      ensures tx == old(tx) && events == old(events)
      ensures fired ==> weeklySpent == 0.0 && storedMoney == 0.0 && lastReset == today
      ensures fired ==> forall j :: 0 <= j < |events| ==> events[j].funded == 0.0
      ensures fired ==> ReservedForEvents() == 0.0 && WeeklyRemaining() == weeklyAllowance
      ensures !fired ==> weeklySpent == old(weeklySpent) && storedMoney == old(storedMoney)
      ensures !fired ==> lastReset == old(lastReset)
      ensures !fired ==> forall j :: 0 <= j < |events| ==> events[j].funded == old(events[j].funded)
    {
      fired := DayOfWeekOf(today) == resetDay && lastReset != today;
      if fired {
        weeklySpent := 0.0;
        storedMoney := 0.0;
        var i := 0;
        while i < |events|
          invariant 0 <= i <= |events|
          invariant events == old(events) && tx == old(tx)
          invariant weeklyAllowance == old(weeklyAllowance) && mode == old(mode)
          invariant resetDay == old(resetDay) && lastReset == old(lastReset)
          invariant weeklySpent == 0.0 && storedMoney == 0.0
          invariant forall j :: 0 <= j < i ==> events[j].funded == 0.0
          invariant forall j :: i <= j < |events| ==> events[j].funded == old(events[j].funded)
        {
          events[i].funded := 0.0;
          i := i + 1;
        }
        lastReset := today;
      }
    }

    /** The simulation: one report per goal, in list order, all under the
        simulation mode picked from the menu (an unlisted number keeps the
        account's own mode). Nothing is changed. */
    method SimulateSavings(choice: int, today: int) returns (reports: seq<Projection>)
      ensures |reports| == |events|
      ensures forall i :: 0 <= i < |events| ==>
                reports[i] == Project(events[i].Remaining(), events[i].DaysLeft(today), ModeChoice(choice, mode))
    {
      reports := [];
      if events == [] {
        return;
      }
      var simMode := ModeChoice(choice, mode);
      for i := 0 to |events|
        invariant |reports| == i
        invariant forall k :: 0 <= k < i ==>
                    reports[k] == Project(events[k].Remaining(), events[k].DaysLeft(today), simMode)
      {
        var e := events[i];
        reports := reports + [Project(e.Remaining(), e.DaysLeft(today), simMode)];
      }
    }
  }

  /** Start-up checks for the reset and the first redraw of the main menu
      checks again, both on the same date: together they act as one check. */
  method StartUp(bank: PiggyBank, today: int) returns (first: bool, second: bool)
    requires bank.Valid()
    modifies bank, bank.events
    ensures first == old(ResetDue(bank.resetDay, bank.lastReset, today)) && !second
    ensures bank.weeklyAllowance == old(bank.weeklyAllowance) && bank.mode == old(bank.mode)
    ensures bank.resetDay == old(bank.resetDay) && bank.tx == old(bank.tx) && bank.events == old(bank.events)
    ensures first ==> bank.weeklySpent == 0.0 && bank.storedMoney == 0.0 && bank.lastReset == today
    ensures first ==> forall j :: 0 <= j < |bank.events| ==> bank.events[j].funded == 0.0
    ensures !first ==> bank.weeklySpent == old(bank.weeklySpent) && bank.storedMoney == old(bank.storedMoney)
    ensures !first ==> bank.lastReset == old(bank.lastReset)
    ensures !first ==> forall j :: 0 <= j < |bank.events| ==> bank.events[j].funded == old(bank.events[j].funded)
  {
    first := bank.CheckWeeklyReset(today);
    second := bank.CheckWeeklyReset(today);
  }

  /** Allowance 140 in Balanced mode gives 20 a day; after an expense of 5
      entered today, 15 of it is left. */
  method DailyBudgetExample(today: int)
  {
    var bank := new PiggyBank(today);
    bank.SetAllowance(140.0);
    assert bank.DailyBudget() == 20.0;
    bank.AddTransaction("Lunch", 5.0, 1, today);
    assert bank.TodaySpent(today) == 5.0;
    assert bank.RemainingDailyBudget(today) == 15.0;
    assert bank.weeklySpent == 5.0;
    // No operation checks the weekly remainder: overspending drives it below zero.
    bank.AddTransaction("Rent", 200.0, 1, today);
    assert bank.WeeklyRemaining() == -65.0;
    assert bank.RemainingDailyBudget(today) == -185.0;
  }

  /** Allowance 100 with 20 spent, 10 stored and 15 in a goal leaves 55:
      storing 60 is refused, storing 50 brings the stored money to 60. */
  method StoreMoneyExample(today: int)
  {
    var bank := new PiggyBank(today);
    bank.SetAllowance(100.0);
    bank.AddTransaction("Groceries", 20.0, 1, today);
    var ok := bank.StoreMoney(10.0);
    assert ok;
    var trip := bank.AddEvent("Trip", 200.0, today + 10);
    var outcome := bank.FundEvent(1, 15.0);
    assert outcome == Funded;
    assert bank.WeeklyRemaining() == 55.0;
    ok := bank.StoreMoney(60.0);
    assert !ok && bank.storedMoney == 10.0;
    ok := bank.StoreMoney(50.0);
    assert ok && bank.storedMoney == 60.0;
  }

  /** A goal of 200 with 50 funded and ten days to go needs 15 a day; the
      Conservative simulation saves 18 a day, 180 in all, and gets there. */
  method SimulationExample(today: int)
  {
    var goal := new Event("Concert", 200.0, today + 10);
    goal.AddFunds(50.0);
    assert goal.Remaining() == 150.0;
    assert goal.DaysLeft(today) == 10;
    assert goal.DailyRecommendation(today) == 15.0;
    var p := Project(goal.Remaining(), goal.DaysLeft(today), Conservative);
    assert p.recommendedDaily == 18.0 && p.projected == 180.0 && p.verdict == WillReach;
  }

  /** Day 4 (1970-01-05) is a Monday, the default reset day: the reset wipes
      the goal's funding but keeps the goal; a second check on the same day
      changes nothing. */
  method WeeklyResetExample()
  {
    var bank := new PiggyBank(4);
    var goal := bank.AddEvent("Bike", 120.0, 40);
    var outcome := bank.FundEvent(1, 25.0);
    assert DayOfWeekOf(4) == Monday;
    assert ResetDue(bank.resetDay, bank.lastReset, 4);
    var fired := bank.CheckWeeklyReset(4);
    assert fired && goal.funded == 0.0;
    assert bank.events == [goal];
    fired := bank.CheckWeeklyReset(4);
    assert !fired;
  }
}

/** The two record kinds of the piggy bank and the spending mode. */
module Records {
  import opened Calendar

  /** How strictly the weekly allowance is spread over the days. */
  datatype Mode = Conservative | Balanced | Relaxed

  /** One logged income or expense, dated the day it was entered; a
      transaction is never changed after it is created. */
  datatype Transaction = Transaction(name: string, amount: real, isExpense: bool, date: int)

  /** A savings goal ("event"): a target amount wanted by a date. Only the
      funded amount ever changes; the name, target and date are fixed when
      the goal is created. */
  class Event {
    const name: string
    const needed: real
    const date: int
    var funded: real

    /** A new goal starts with nothing funded. */
    constructor (name: string, needed: real, date: int)
      ensures this.name == name && this.needed == needed && this.date == date
      ensures funded == 0.0
    {
      this.name := name;
      this.needed := needed;
      this.date := date;
      funded := 0.0;
    }

    /** Adds `funds` to the goal with no check of its sign: callers that want
        only deposits must test the amount themselves. */
    method AddFunds(funds: real)
      modifies this
      ensures funded == old(funded) + funds
    {
      funded := funded + funds;
    }

    /** What is still missing; there is no cap on funding, so an overfunded
        goal has a negative remainder. */
    function Remaining(): (r: real)
      reads this
      ensures r + funded == needed
      ensures r < 0.0 <==> funded > needed
    {
      needed - funded
    }

    /** Whole days from `today` to the goal's date, but never less than one,
        so that a past-due or same-day goal still has a day to save in. */
    function DaysLeft(today: int): (d: int)
      ensures 1 <= d
      ensures date - today <= d
      ensures d == 1 || d == date - today
      ensures date > today ==> d == date - today
    {
      var between := date - today;
      if between < 1 then 1 else between
    }

    /** The amount to put aside each remaining day so that exactly the
        remainder is covered; negative once the goal is overfunded. */
    function DailyRecommendation(today: int): (r: real)
      reads this
      ensures r * (DaysLeft(today) as real) == Remaining()
      ensures r >= 0.0 <==> Remaining() >= 0.0
    {
      Remaining() / (DaysLeft(today) as real)
    }
  }
}

/**
 * Rollover of recurring transactions: a date is advanced by whole periods until
 * it is no longer before today.
 */
module Recurring {
  import opened Options
  import opened Transactions

  /** The date the rollover loop stops at, for a positive period. */
  function RollDate(date: int, period: int, today: int): (d: int)
    requires period > 0
    ensures d >= today && d >= date
    ensures date >= today ==> d == date
    ensures date < today ==> d < today + period
    decreases today - date
  {
    if date >= today then date else RollDate(date + period, period, today)
  }

  /** How many times the rollover loop adds the period. */
  function RollSteps(date: int, period: int, today: int): nat
    requires period > 0
    decreases today - date
  {
    if date >= today then 0 else 1 + RollSteps(date + period, period, today)
  }

  /** The rolled date is the old one plus a whole, non-negative number of periods. */
  lemma {:induction false} RollDateWholePeriods(date: int, period: int, today: int)
    requires period > 0
    ensures RollDate(date, period, today) == date + RollSteps(date, period, today) * period
    decreases today - date
  {
    if date < today {
      RollDateWholePeriods(date + period, period, today);
      var k := RollSteps(date + period, period, today);
      assert (1 + k) * period == period + k * period;
    }
  }

  /** No date of the progression date, date + period, ... that is not before today comes earlier. */
  lemma {:induction false} RollDateLeast(date: int, period: int, today: int, k: nat)
    requires period > 0 && date + k * period >= today
    ensures RollDate(date, period, today) <= date + k * period
    decreases k
  {
    if date < today {
      assert k != 0;
      assert (date + period) + (k - 1) * period == date + k * period;
      RollDateLeast(date + period, period, today, k - 1);
    }
  }

  /** Rolling a rolled date again leaves it where it is. */
  lemma RollDateIdempotent(date: int, period: int, today: int)
    requires period > 0
    ensures RollDate(RollDate(date, period, today), period, today) == RollDate(date, period, today)
  {
  }

  /** The entry with its date rolled, when it is recurring and dated; otherwise the entry itself. */
  function Roll(t: Transaction, today: int): (r: Transaction)
    ensures r.date.Some? <==> t.date.Some?
    ensures r == t.(date := r.date)
  {
    if t.recurringPeriod > 0 && t.date.Some?
    then t.(date := Some(RollDate(t.date.value, t.recurringPeriod, today)))
    else t
  }

  lemma RollIdempotent(t: Transaction, today: int)
    ensures Roll(Roll(t, today), today) == Roll(t, today)
  {
    if t.recurringPeriod > 0 && t.date.Some? {
      RollDateIdempotent(t.date.value, t.recurringPeriod, today);
    }
  }

  /** The rollover loop of sortRecurringTransactions for one entry. */
  method AdvanceDate(date: int, period: int, today: int) returns (d: int)
    requires period > 0
    ensures d == RollDate(date, period, today)
  {
    d := date;
    while d < today
      invariant RollDate(d, period, today) == RollDate(date, period, today)
      decreases today - d
    {
      d := d + period;
    }
  }

  /**
   * How far the rollover loop over `list` gets: the index in `list` of the first entry
   * with a null date (where the loop throws), or |list| when there is none.
   */
  function FirstUndated(s: seq<Transaction>, list: seq<nat>): (k: nat)
    requires forall j :: 0 <= j < |list| ==> list[j] < |s|
    ensures k <= |list|
    ensures forall j :: 0 <= j < k ==> s[list[j]].date.Some?
    ensures k < |list| ==> s[list[k]].date.None?
  {
    if list == [] then 0
    else if s[list[0]].date.None? then 0
    else 1 + FirstUndated(s, list[1..])
  }

  /** At an index the loop reaches, a null date is where it throws and a date lets it go on. */
  lemma FirstUndatedAt(s: seq<Transaction>, list: seq<nat>, j: nat)
    requires forall i :: 0 <= i < |list| ==> list[i] < |s|
    requires j < |list| && j <= FirstUndated(s, list)
    ensures s[list[j]].date.None? ==> j == FirstUndated(s, list)
    ensures s[list[j]].date.Some? ==> j < FirstUndated(s, list)
  {
  }
}

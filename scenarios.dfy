/**
 * Concrete runs of the ledger, each driven through the methods of
 * TransactionManager on a fresh instance.
 */
module Scenarios {
  import opened Options
  import opened Transactions
  import opened JavaLang
  import opened Views
  import opened Amounts
  import opened Recurring
  import opened Manager

  /**
   * Budget 100 over an existing total of 90: adding 20 is rejected and leaves the
   * total at 90, adding 5 then succeeds and the total becomes 95. The rejected add
   * used up id 2, so the accepted entry gets id 3.
   */
  method BudgetGate(today: int, food: Category)
    returns (rejected: bool, accepted: bool, totalAfterRejection: real, total: real, lastId: int)
    ensures rejected && accepted
    ensures totalAfterRejection == 90.0
    ensures total == 95.0 && lastId == 3
  {
    var m := new TransactionManager();
    var first := m.AddTransaction("rent", 90.0, food, today);
    assert m.transactions == [NewPending(1, "rent", 90.0, SGD, food, today)];
    FlatTotalSnoc([], m.transactions[0]);
    assert [] + [m.transactions[0]] == m.transactions;
    var overage := m.CheckBudgetLimit(100.0);
    var ok := m.AddTransaction("dinner", 20.0, food, today);
    rejected := !ok;
    totalAfterRejection := m.GetTotalTransactionAmount();
    accepted := m.AddTransaction("coffee", 5.0, food, today);
    FlatTotalSnoc(m.transactions[..1], m.transactions[1]);
    assert m.transactions[..1] + [m.transactions[1]] == m.transactions;
    total := m.GetTotalTransactionAmount();
    lastId := m.transactions[1].id;
  }

  /** Editing the amount to "-5" raises the negative-amount error and keeps the amount. */
  method EditNegativeAmount(today: int, food: Category, categories: set<string>, currencies: set<string>)
    returns (outcome: Outcome, amount: real)
    ensures outcome == Fail(NegativeAmount) && amount == 10.0
  {
    var m := new TransactionManager();
    var added := m.AddTransaction("lunch", 10.0, food, today);
    assert "-5"[1..] == "5" && "5"[..0] == [];
    assert DigitsValue("5") == 5;
    assert ParseInt("-5") == Some(-5);
    outcome := m.EditInfo(1, "-5", 2, categories, currencies);
    amount := m.transactions[0].amount;
  }

  /**
   * An entry dated ten days ago with period 3 is rolled to two days from now by a
   * reminder pass (within period - 1 days of today, not in the past).
   */
  method RolloverTenDaysAgo(today: int, food: Category) returns (date: Option<int>)
    ensures date == Some(today + 2)
  {
    var m := new TransactionManager();
    var t := Transaction(1, "gym", 10.0, SGD, food, Some(today - 10), Pending, 3, false);
    m.RestoreTransaction(t);
    assert m.transactions == [t];
    TenDaysAgo(t, today);
    var reminded := m.RemindRecurringTransactions(today);
    RolledSingle(t, m.transactions, today);
    date := m.transactions[0].date;
  }

  /** The reminder pass over a ledger holding only `t`, ten days old with period 3. */
  lemma TenDaysAgo(t: Transaction, today: int)
    requires t.recurringPeriod == 3 && t.date == Some(today - 10) && !t.deleted
    ensures Positions([t], VisibleRecurring) == [0]
    ensures FirstUndated([t], [0]) == 1
    ensures Roll(t, today).date == Some(today + 2)
  {
    assert [t][..0] == [];
    assert RollDate(today - 1, 3, today) == today + 2;
    assert RollDate(today - 4, 3, today) == today + 2;
    assert RollDate(today - 7, 3, today) == today + 2;
  }

  lemma RolledSingle(t: Transaction, after: seq<Transaction>, today: int)
    requires FirstUndated([t], [0]) == 1
    requires RolledUpTo([t], after, [0], 1, today)
    ensures after == [Roll(t, today)]
  {
    assert [0][..1] == [0];
    assert after[0] == Roll(t, today);
  }

  /**
   * An entry of 10 recurring every 5 days, dated twelve days ago, accrues
   * 10 * (12 / 5 + 1) = 30.
   */
  method RecurringTwelveDays(today: int, food: Category) returns (sum: Result<real>)
    ensures sum == Ok(30.0)
  {
    var m := new TransactionManager();
    var added := m.AddTransaction("gym", 10.0, food, today - 12);
    m.SetRecur(1, 5);
    var t := m.transactions[0];
    assert [] + [t] == m.transactions;
    FilterSnoc([], t, VisibleRecurring);
    ChargesSnoc([], t, today, 0.0);
    ChargeAfterTwelveDays(t, today);
    sum := m.GetRecurringAmount(today);
  }
}

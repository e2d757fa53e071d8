/**
 * The in-memory ledger: the list of transactions, the optional budget ceiling and
 * the permanent ID counter, with the operations that read and change them.
 */
module Manager {
  import opened Options
  import opened Transactions
  import opened JavaLang
  import opened Views
  import opened Amounts
  import opened Recurring

  /** No entry is removed and none is undeleted; every entry keeps its id. */
  ghost predicate Grows(before: seq<Transaction>, after: seq<Transaction>)
  {
    |before| <= |after| &&
    forall i :: 0 <= i < |before| ==>
      after[i].id == before[i].id && (before[i].deleted ==> after[i].deleted)
  }

  /** The id lookup of searchTransactionList: the entry searchTransaction finds, if any. */
  function Lookup(s: seq<Transaction>, id: int): (r: seq<Transaction>)
    ensures |r| <= 1
    ensures r != [] ==> IsVisibleWithId(r[0], id) && r[0] in s
    ensures r != [] ==> exists i :: 0 <= i < |s| && r[0] == s[i] && IsVisibleWithId(s[i], id) &&
                          forall j :: 0 <= j < i ==> !IsVisibleWithId(s[j], id)
    ensures r == [] <==> forall j :: 0 <= j < |s| ==> !IsVisibleWithId(s[j], id)
  {
    match FindVisible(s, id)
    case None => []
    case Some(i) => [s[i]]
  }

  /**
   * The change editInfo makes to the entry its id resolved to: `field` 0 sets the
   * description, 1 the category, 2 the amount (parsed as a non-negative int), 3 the
   * currency; any other field changes nothing.
   */
  function Edited(t: Transaction, value: string, field: int,
                  categories: set<string>, currencies: set<string>): (r: Result<Transaction>)
    ensures r.Ok? ==> r.value.id == t.id && r.value.date == t.date && r.value.status == t.status
    ensures r.Ok? ==> r.value.recurringPeriod == t.recurringPeriod && r.value.deleted == t.deleted
    ensures field == 0 ==> r == Ok(t.(description := value))
    ensures field == 1 ==> (r.Ok? <==> value in categories)
    ensures field == 1 && r.Ok? ==> r.value == t.(category := Category(value))
    ensures field == 1 && r.Err? ==> r.error == UnknownConstant
    ensures field == 2 ==> (r.Ok? <==> ParseInt(value).Some? && ParseInt(value).value >= 0)
    ensures field == 2 && r.Ok? ==> r.value == t.(amount := ParseInt(value).value as real)
    ensures field == 2 && r.Ok? ==> r.value.amount >= 0.0
    ensures field == 2 && ParseInt(value).None? ==> r == Err(NumberFormat)
    ensures field == 2 && ParseInt(value).Some? && ParseInt(value).value < 0 ==> r == Err(NegativeAmount)
    ensures field == 3 ==> (r.Ok? <==> value in currencies)
    ensures field == 3 && r.Ok? ==> r.value == t.(currency := Currency(value))
    ensures field == 3 && r.Err? ==> r.error == UnknownConstant
    ensures !(0 <= field <= 3) ==> r == Ok(t)
  {
    if field == 0 then Ok(t.(description := value))
    else if field == 1 then
      match CategoryOf(categories, value)
      case Err(e) => Err(e)
      case Ok(cat) => Ok(t.(category := cat))
    else if field == 2 then
      match ParseInt(value)
      case None => Err(NumberFormat)
      case Some(v) => if v < 0 then Err(NegativeAmount) else Ok(t.(amount := v as real))
    else if field == 3 then
      match CurrencyOf(currencies, value)
      case Err(e) => Err(e)
      case Ok(cur) => Ok(t.(currency := cur))
    else Ok(t)
  }

  /** What notify does to one entry: a matching description and category moves its date to `due`. */
  function Rescheduled(t: Transaction, desc: string, category: Category, due: int): (r: Transaction)
    ensures r == t.(date := r.date)
    ensures r.date == if t.description == desc && t.category == category then Some(due) else t.date
  {
    if t.description == desc && t.category == category then t.(date := Some(due)) else t
  }

  /**
   * What getTransactions returns: exactly the non-deleted entries, as a permutation,
   * in date order with null dates last, entries with equal dates in stored order.
   */
  lemma TransactionsView(s: seq<Transaction>)
    ensures SortedByDate(SortByDate(Filter(s, Visible)))
    ensures multiset(SortByDate(Filter(s, Visible))) == multiset(Filter(s, Visible))
    ensures forall t :: t in SortByDate(Filter(s, Visible)) <==> t in s && !t.deleted
    ensures forall day :: Filter(SortByDate(Filter(s, Visible)), DatedAs(day)) ==
                          Filter(Filter(s, Visible), DatedAs(day))
  {
    var active := Filter(s, Visible);
    SortByDateSorted(active);
    FilterMembers(s, Visible);
    assert forall t :: t in SortByDate(active) <==> t in multiset(SortByDate(active));
    forall day
      ensures Filter(SortByDate(active), DatedAs(day)) == Filter(active, DatedAs(day))
    {
      SortByDateStable(active, day);
    }
  }

  /**
   * Soft-deleting the entry at `i` takes it out of the visible entries: their count
   * drops by one, the flat total loses its amount, and searchTransaction no longer
   * resolves to that position.
   */
  lemma DeleteHides(s: seq<Transaction>, i: nat)
    requires i < |s| && !s[i].deleted
    ensures |Filter(s[i := s[i].(deleted := true)], Visible)| == |Filter(s, Visible)| - 1
    ensures FlatTotal(s[i := s[i].(deleted := true)]) == FlatTotal(s) - s[i].amount
    ensures FindVisible(s[i := s[i].(deleted := true)], s[i].id) != Some(i)
  {
    var gone := s[i].(deleted := true);
    var after := s[i := gone];
    var front, back := Filter(s[..i], Visible), Filter(s[i + 1..], Visible);
    assert Filter(after, Visible) == front + back by {
      FilterAround(s, i, gone, Visible);
    }
    assert Filter(s, Visible) == front + [s[i]] + back by {
      FilterAround(s, i, s[i], Visible);
      assert s[i := s[i]] == s;
    }
    assert SumAmounts(front + [s[i]] + back) == SumAmounts(front + back) + s[i].amount by {
      SumAmountsConcat(front + [s[i]], back);
      SumAmountsSnoc(front, s[i]);
      SumAmountsConcat(front, back);
    }
  }

  /** A deleted entry is never among the entries getTransactions lists. */
  lemma DeletedNotListed(s: seq<Transaction>, t: Transaction)
    requires t.deleted
    ensures t !in SortByDate(Filter(s, Visible))
  {
    var active := Filter(s, Visible);
    FilterAllMatch(s, Visible);
    assert t !in active;
    assert multiset(active)[t] == 0;
    assert multiset(SortByDate(active))[t] == 0;
  }

  /**
   * The entries at the first `k` positions of `list` are rolled forward to `today`;
   * every other entry is as it was.
   */
  ghost predicate RolledUpTo(before: seq<Transaction>, after: seq<Transaction>, list: seq<nat>, k: nat, today: int)
    requires k <= |list|
  {
    |after| == |before| &&
    forall i :: 0 <= i < |after| ==>
      after[i] == if i in list[..k] then Roll(before[i], today) else before[i]
  }

  /**
   * One step of the rollover loop over `list`, at the entry `list[j]`: it is seen
   * with the period and the (null or not) date it had before the pass, and rolling
   * it extends the rolled prefix by one, even when an earlier step rolled it already.
   */
  lemma RolledUpToStep(before: seq<Transaction>, cur: seq<Transaction>, list: seq<nat>, j: nat, today: int)
    requires j < |list| && list[j] < |before|
    requires RolledUpTo(before, cur, list, j, today)
    ensures cur[list[j]].recurringPeriod == before[list[j]].recurringPeriod
    ensures cur[list[j]].date.Some? <==> before[list[j]].date.Some?
    ensures cur[list[j]].recurringPeriod > 0 && cur[list[j]].date.Some? ==>
      var t := cur[list[j]];
      RolledUpTo(before, cur[list[j] := t.(date := Some(RollDate(t.date.value, t.recurringPeriod, today)))],
                 list, j + 1, today)
  {
    var p := list[j];
    var t := cur[p];
    assert list[..j + 1] == list[..j] + [p];
    if t.recurringPeriod > 0 && t.date.Some? {
      var rolled := t.(date := Some(RollDate(t.date.value, t.recurringPeriod, today)));
      RollIdempotent(before[p], today);
      assert rolled == Roll(before[p], today);
    }
  }

  /** A partial rollover keeps every entry's id and deleted flag. */
  lemma RolledUpToKeeps(before: seq<Transaction>, after: seq<Transaction>, list: seq<nat>, k: nat, today: int)
    requires k <= |list|
    requires RolledUpTo(before, after, list, k, today)
    ensures Grows(before, after)
    ensures forall i :: 0 <= i < |after| ==> after[i].id == before[i].id
  {
  }

  /** Exactly the entries that match `c` are rolled forward to `today`. */
  ghost predicate RolledWhere(before: seq<Transaction>, after: seq<Transaction>, c: Criterion, today: int)
  {
    |after| == |before| &&
    forall i :: 0 <= i < |after| ==>
      after[i] == if Matches(c, before[i]) then Roll(before[i], today) else before[i]
  }

  /**
   * A rollover that got through every position of the visible recurring entries
   * rolled exactly those entries, and each of them was dated.
   */
  lemma RolledAll(before: seq<Transaction>, after: seq<Transaction>, list: seq<nat>, today: int)
    requires list == Positions(before, VisibleRecurring)
    requires FirstUndated(before, list) == |list|
    requires RolledUpTo(before, after, list, |list|, today)
    ensures RolledWhere(before, after, VisibleRecurring, today)
    ensures forall i :: 0 <= i < |before| && Matches(VisibleRecurring, before[i]) ==> before[i].date.Some?
  {
    assert list[..|list|] == list;
    forall i | 0 <= i < |before|
      ensures i in list <==> Matches(VisibleRecurring, before[i])
    {
      if i in list {
        var j :| 0 <= j < |list| && list[j] == i;
      }
    }
  }

  /**
   * Rolling the dated visible recurring entries keeps which entries are visible and
   * recurring, and leaves each of them dated today or later.
   */
  lemma RolledForward(before: seq<Transaction>, after: seq<Transaction>, today: int)
    requires RolledWhere(before, after, VisibleRecurring, today)
    requires forall i :: 0 <= i < |before| && Matches(VisibleRecurring, before[i]) ==> before[i].date.Some?
    ensures forall i :: 0 <= i < |after| ==> Matches(VisibleRecurring, after[i]) == Matches(VisibleRecurring, before[i])
    ensures forall i :: 0 <= i < |after| && Matches(VisibleRecurring, after[i]) ==>
      after[i].date.Some? && after[i].date.value >= today
  {
  }

  /**
   * After a rollover that got through every position of the visible recurring
   * entries, exactly those entries are rolled, each is dated today or later, and
   * reading them back at those positions lists the visible recurring entries.
   */
  lemma RemindedEntries(before: seq<Transaction>, after: seq<Transaction>, list: seq<nat>, today: int)
    requires list == Positions(before, VisibleRecurring)
    requires FirstUndated(before, list) == |list|
    requires RolledUpTo(before, after, list, |list|, today)
    ensures RolledWhere(before, after, VisibleRecurring, today)
    ensures At(after, list) == Filter(after, VisibleRecurring)
    ensures forall i :: 0 <= i < |after| && Matches(VisibleRecurring, after[i]) ==>
      after[i].date.Some? && after[i].date.value >= today
    ensures SortedByDate(SortByDate(Filter(after, VisibleRecurring)))
  {
    RolledAll(before, after, list, today);
    RolledForward(before, after, today);
    PositionsAgree(before, after, VisibleRecurring);
    PositionsAt(after, VisibleRecurring);
    SortByDateSorted(Filter(after, VisibleRecurring));
  }

  /**
   * A rollover applied to every visible recurring entry, each dated before the end of
   * its first period from today, leaves the ledger current: getTotalAmount then equals
   * the flat total.
   */
  lemma RolledIsCurrent(before: seq<Transaction>, after: seq<Transaction>, today: int)
    requires RolledWhere(before, after, VisibleRecurring, today)
    requires forall i :: 0 <= i < |before| && Matches(VisibleRecurring, before[i]) ==>
      before[i].date.Some? && before[i].date.value < today + before[i].recurringPeriod
    ensures Current(after, today)
    ensures TotalAmount(after, today) == Ok(FlatTotal(after))
  {
    forall i | 0 <= i < |after| && Matches(VisibleRecurring, after[i])
      ensures InFirstPeriod(after[i], today)
    {
      assert Matches(VisibleRecurring, before[i]);
    }
    TotalWhenCurrent(after, today);
  }

  class TransactionManager {
    var transactions: seq<Transaction>
    var defaultCurrency: Currency
    var budgetLimit: real
    var isBudgetSet: bool
    var currentMaxId: int

    /** The counter is at least every stored id, so the next allocated id is new. */
    ghost predicate Valid()
      reads this
    {
      currentMaxId >= 0 &&
      forall i :: 0 <= i < |transactions| ==> transactions[i].id <= currentMaxId
    }

    constructor ()
      ensures Valid()
      ensures transactions == [] && defaultCurrency == SGD
      ensures budgetLimit == -1.0 && !isBudgetSet && currentMaxId == 0
    {
      transactions := [];
      defaultCurrency := SGD;
      budgetLimit := -1.0;
      isBudgetSet := false;
      currentMaxId := 0;
    }

    /** Allocates an id: the counter goes up by one and the new value is returned. */
    method GetNextAvailableId() returns (id: int)
      requires Valid()
      modifies this`currentMaxId
      ensures Valid()
      ensures currentMaxId == old(currentMaxId) + 1 && id == currentMaxId
    {
      currentMaxId := currentMaxId + 1;
      id := currentMaxId;
    }

    /** The number of stored entries, deleted ones included. */
    method GetNum() returns (n: nat)
      ensures n == |transactions|
      ensures n >= |Filter(transactions, Visible)|
    {
      n := |transactions|;
    }

    /** The number of entries that are not deleted. */
    method GetSize() returns (count: nat)
      ensures count == |Filter(transactions, Visible)|
      ensures count <= |transactions|
    {
      count := 0;
      for i := 0 to |transactions|
        invariant count == |Filter(transactions[..i], Visible)|
      {
        FilterPrefix(transactions, i, Visible);
        if !transactions[i].deleted {
          count := count + 1;
        }
      }
      assert transactions[..|transactions|] == transactions;
    }

    /** The flat total the budget gate compares against. */
    method GetTotalTransactionAmount() returns (sum: real)
      ensures sum == FlatTotal(transactions)
    {
      sum := 0.0;
      for i := 0 to |transactions|
        invariant sum == SumAmounts(Filter(transactions[..i], Visible))
      {
        var t := transactions[i];
        FilterPrefix(transactions, i, Visible);
        if !t.deleted {
          SumAmountsSnoc(Filter(transactions[..i], Visible), t);
          sum := sum + t.amount;
        } else {
          assert Filter(transactions[..i + 1], Visible) == Filter(transactions[..i], Visible);
        }
      }
      assert transactions[..|transactions|] == transactions;
    }

    /** addTransaction(Transaction): stores an entry as it is, bypassing the budget gate. */
    method RestoreTransaction(t: Transaction)
      requires Valid()
      modifies this`transactions, this`currentMaxId
      ensures Valid()
      ensures transactions == old(transactions) + [t]
      ensures currentMaxId == if t.id > old(currentMaxId) then t.id else old(currentMaxId)
    {
      transactions := transactions + [t];
      var id := t.id;
      if id > currentMaxId {
        currentMaxId := id;
      }
    }

    /**
     * addTransaction(description, amount, category): allocates an id first, then
     * appends a PENDING entry dated today unless the projected total exceeds an
     * active budget. A rejected call still uses up its id.
     */
    method AddTransaction(description: string, amount: real, category: Category, today: int)
      returns (success: bool)
      requires Valid()
      modifies this`transactions, this`currentMaxId
      ensures Valid()
      ensures currentMaxId == old(currentMaxId) + 1
      ensures success <==> !(isBudgetSet && FlatTotal(old(transactions)) + amount > budgetLimit)
      ensures transactions == if success
        then old(transactions) + [NewPending(currentMaxId, description, amount, defaultCurrency, category, today)]
        else old(transactions)
      ensures forall i :: 0 <= i < |old(transactions)| ==> old(transactions)[i].id < currentMaxId
    {
      var id := GetNextAvailableId();
      var t := NewPending(id, description, amount, defaultCurrency, category, today);
      if isBudgetSet {
        var total := GetTotalTransactionAmount();
        var projected := total + amount;
        if projected > budgetLimit {
          return false;
        }
      }
      transactions := transactions + [t];
      success := true;
    }

    /**
     * addTransaction(id, description, amount, category): the same budget gate with
     * a supplied id; only a successful call raises the counter to that id.
     */
    method AddTransactionWithId(id: int, description: string, amount: real, category: Category, today: int)
      returns (success: bool)
      requires Valid()
      modifies this`transactions, this`currentMaxId
      ensures Valid()
      ensures success <==> !(isBudgetSet && FlatTotal(old(transactions)) + amount > budgetLimit)
      ensures transactions == if success
        then old(transactions) + [NewPending(id, description, amount, defaultCurrency, category, today)]
        else old(transactions)
      ensures currentMaxId == if success && id > old(currentMaxId) then id else old(currentMaxId)
    {
      var t := NewPending(id, description, amount, defaultCurrency, category, today);
      if isBudgetSet {
        var total := GetTotalTransactionAmount();
        if total + amount > budgetLimit {
          return false;
        }
      }
      transactions := transactions + [t];
      if id > currentMaxId {
        currentMaxId := id;
      }
      success := true;
    }

    /**
     * checkBudgetLimit: activates the ceiling `limit` unless the flat total already
     * exceeds it, in which case nothing changes and the overage is reported.
     */
    method CheckBudgetLimit(limit: real) returns (overage: Option<real>)
      modifies this`budgetLimit, this`isBudgetSet
      ensures FlatTotal(transactions) > limit ==>
        overage == Some(FlatTotal(transactions) - limit) &&
        budgetLimit == old(budgetLimit) && isBudgetSet == old(isBudgetSet)
      ensures FlatTotal(transactions) <= limit ==>
        overage == None && budgetLimit == limit && isBudgetSet
    {
      var total := GetTotalTransactionAmount();
      if total > limit {
        overage := Some(total - limit);
      } else {
        budgetLimit := limit;
        isBudgetSet := true;
        overage := None;
      }
    }

    /** clear, as far as the transaction list goes: every entry is dropped. */
    method Clear()
      requires Valid()
      modifies this`transactions
      ensures Valid()
      ensures transactions == []
    {
      transactions := [];
    }

    /**
     * searchTransaction: the position of the first entry with this id that is not
     * deleted (the reference the source returns), or None for null.
     */
    method SearchTransaction(id: int) returns (pos: Option<nat>)
      ensures pos == FindVisible(transactions, id)
    {
      for i := 0 to |transactions|
        invariant forall j :: 0 <= j < i ==> !IsVisibleWithId(transactions[j], id)
      {
        if IsVisibleWithId(transactions[i], id) {
          return Some(i);
        }
      }
      return None;
    }

    /** checkIdEmpty: true exactly when no entry with this id is visible. */
    method CheckIdEmpty(id: int) returns (empty: bool)
      ensures empty <==> forall j :: 0 <= j < |transactions| ==> !IsVisibleWithId(transactions[j], id)
    {
      var pos := SearchTransaction(id);
      empty := pos.None?;
    }

    /** deleteExpense: sets the flag on the entry searchTransaction finds, if any. */
    method DeleteExpense(id: int)
      requires Valid()
      modifies this`transactions
      ensures Valid() && Grows(old(transactions), transactions)
      ensures |transactions| == |old(transactions)|
      ensures transactions == match FindVisible(old(transactions), id)
        case None => old(transactions)
        case Some(i) => old(transactions)[i := old(transactions)[i].(deleted := true)]
    {
      var pos := SearchTransaction(id);
      if pos.Some? {
        var t := transactions[pos.value];
        transactions := transactions[pos.value := t.(deleted := true)];
      }
    }

    /** tickTransaction: marks the entry searchTransaction finds as COMPLETED. */
    method TickTransaction(id: int)
      requires Valid()
      modifies this`transactions
      ensures Valid() && Grows(old(transactions), transactions)
      ensures transactions == match FindVisible(old(transactions), id)
        case None => old(transactions)
        case Some(i) => old(transactions)[i := old(transactions)[i].(status := Completed)]
    {
      var pos := SearchTransaction(id);
      if pos.Some? {
        var t := transactions[pos.value];
        transactions := transactions[pos.value := t.(status := Completed)];
      }
    }

    /** unTickTransaction: marks the entry searchTransaction finds as PENDING again. */
    method UnTickTransaction(id: int)
      requires Valid()
      modifies this`transactions
      ensures Valid() && Grows(old(transactions), transactions)
      ensures transactions == match FindVisible(old(transactions), id)
        case None => old(transactions)
        case Some(i) => old(transactions)[i := old(transactions)[i].(status := Pending)]
    {
      var pos := SearchTransaction(id);
      if pos.Some? {
        var t := transactions[pos.value];
        transactions := transactions[pos.value := t.(status := Pending)];
      }
    }

    /** setRecur: sets the period of the entry searchTransaction finds. */
    method SetRecur(id: int, period: int)
      requires Valid()
      modifies this`transactions
      ensures Valid() && Grows(old(transactions), transactions)
      ensures transactions == match FindVisible(old(transactions), id)
        case None => old(transactions)
        case Some(i) => old(transactions)[i := old(transactions)[i].(recurringPeriod := period)]
    {
      var pos := SearchTransaction(id);
      if pos.Some? {
        var t := transactions[pos.value];
        transactions := transactions[pos.value := t.(recurringPeriod := period)];
      }
    }

    /**
     * searchTransactionList: with isIndex, the entry whose id the term parses to
     * (nothing when it does not parse); otherwise every visible entry whose
     * description contains the term, in stored order.
     */
    method SearchTransactionList(isIndex: bool, term: string) returns (found: seq<Transaction>)
      ensures isIndex ==> found == match ParseInt(term)
        case None => []
        case Some(id) => Lookup(transactions, id)
      ensures !isIndex ==> found == Filter(transactions, VisibleContaining(term))
    {
      found := [];
      if isIndex {
        var parsed := ParseInt(term);
        if parsed.Some? {
          var pos := SearchTransaction(parsed.value);
          if pos.Some? {
            found := [transactions[pos.value]];
          }
        }
      } else {
        found := Select(transactions, VisibleContaining(term));
      }
    }

    /**
     * getTransactions: the entries that are not deleted, stably sorted by date with
     * null dates last.
     */
    method GetTransactions() returns (view: seq<Transaction>)
      ensures view == SortByDate(Filter(transactions, Visible))
    {
      var active := Select(transactions, Visible);
      view := SortByDate(active);
    }

    /** getTransactionsOnDate: the visible entries dated `day`, in the order they were stored. */
    method GetTransactionsOnDate(day: int) returns (onDate: seq<Transaction>)
      ensures onDate == Filter(Filter(transactions, Visible), DatedAs(Some(day)))
    {
      var view := GetTransactions();
      onDate := Select(view, DatedAs(Some(day)));
      SortByDateStable(Filter(transactions, Visible), Some(day));
    }

    /**
     * getTransactionsThisWeek: the visible entries dated from today to seven days
     * later inclusive, in date order.
     */
    method GetTransactionsThisWeek(today: int) returns (week: seq<Transaction>)
      ensures week == Filter(SortByDate(Filter(transactions, Visible)), Within(today, today + 7))
      ensures SortedByDate(week)
      ensures multiset(week) == multiset(Filter(Filter(transactions, Visible), Within(today, today + 7)))
    {
      var view := GetTransactions();
      var nextWeek := today + 7;
      week := Select(view, Within(today, nextWeek));
      SortByDateSorted(Filter(transactions, Visible));
      FilterSorted(view, Within(today, nextWeek));
      FilterPermutation(view, Filter(transactions, Visible), Within(today, nextWeek));
    }

    /**
     * notify: once the due date parsed and the category name resolved, every entry
     * (deleted ones too) with that description and category is moved to the due
     * date. `amount` is not used.
     */
    method Notify(desc: string, amount: real, category: string, due: Option<int>,
                  categories: set<string>) returns (outcome: Outcome)
      requires Valid()
      modifies this`transactions
      ensures Valid() && Grows(old(transactions), transactions)
      ensures |transactions| == |old(transactions)|
      ensures due.None? ==> outcome == Fail(DateParse) && transactions == old(transactions)
      ensures due.Some? && category !in categories ==>
        outcome == Fail(UnknownConstant) && transactions == old(transactions)
      ensures due.Some? && category in categories ==> (outcome == Pass &&
        forall i :: 0 <= i < |transactions| ==>
          transactions[i] == Rescheduled(old(transactions)[i], desc, Category(category), due.value))
    {
      if due.None? {
        return Fail(DateParse);
      }
      var cat := CategoryOf(categories, category);
      if cat.Err? {
        return Fail(cat.error);
      }
      for i := 0 to |transactions|
        invariant |transactions| == |old(transactions)|
        invariant forall j :: 0 <= j < |transactions| ==>
          transactions[j] == if j < i then Rescheduled(old(transactions)[j], desc, cat.value, due.value)
                             else old(transactions)[j]
      {
        var t := transactions[i];
        if t.description == desc && t.category == cat.value {
          transactions := transactions[i := t.(date := Some(due.value))];
        }
      }
      outcome := Pass;
    }

    /**
     * editInfo: an id that resolves to no visible entry changes nothing; otherwise
     * the one field `field` selects of that entry is set, unless parsing the value
     * fails or the amount is negative, which raise and change nothing.
     */
    method EditInfo(id: int, value: string, field: int, categories: set<string>, currencies: set<string>)
      returns (outcome: Outcome)
      requires Valid()
      modifies this`transactions
      ensures Valid() && Grows(old(transactions), transactions)
      ensures FindVisible(old(transactions), id).None? ==>
        outcome == Pass && transactions == old(transactions)
      ensures FindVisible(old(transactions), id).Some? ==>
        var i := FindVisible(old(transactions), id).value;
        match Edited(old(transactions)[i], value, field, categories, currencies)
        case Ok(t) => outcome == Pass && transactions == old(transactions)[i := t]
        case Err(e) => outcome == Fail(e) && transactions == old(transactions)
    {
      var empty := CheckIdEmpty(id);
      if empty {
        return Pass;
      }
      var pos := SearchTransaction(id);
      if pos.None? {
        return Pass;
      }
      var i := pos.value;
      var edited := Edited(transactions[i], value, field, categories, currencies);
      match edited
      case Err(e) =>
        outcome := Fail(e);
      case Ok(t) =>
        transactions := transactions[i := t];
        outcome := Pass;
    }

    /** getNormalAmount: the amounts of the visible entries that do not recur. */
    method GetNormalAmount() returns (sum: real)
      ensures sum == NormalTotal(transactions)
    {
      sum := 0.0;
      for i := 0 to |transactions|
        invariant sum == SumAmounts(Filter(transactions[..i], VisibleNormal))
      {
        var t := transactions[i];
        FilterPrefix(transactions, i, VisibleNormal);
        if !t.deleted && t.recurringPeriod <= 0 {
          SumAmountsSnoc(Filter(transactions[..i], VisibleNormal), t);
          sum := sum + t.amount;
        } else {
          assert Filter(transactions[..i + 1], VisibleNormal) == Filter(transactions[..i], VisibleNormal);
        }
      }
      assert transactions[..|transactions|] == transactions;
    }

    /**
     * getRecurringAmount: the charges accrued by the visible recurring entries up to
     * today; a null date among them is a NullPointerException.
     */
    method GetRecurringAmount(today: int) returns (sum: Result<real>)
      ensures sum == RecurringTotal(transactions, today)
    {
      var acc := 0.0;
      for i := 0 to |transactions|
        invariant RecurringTotal(transactions[..i], today) == Ok(acc)
      {
        var t := transactions[i];
        FilterPrefix(transactions, i, VisibleRecurring);
        var prefix := Filter(transactions[..i], VisibleRecurring);
        FilterAllMatch(transactions[..i], VisibleRecurring);
        if !t.deleted && t.recurringPeriod > 0 {
          if t.date.None? {
            FilterMembers(transactions, VisibleRecurring);
            assert t in Filter(transactions, VisibleRecurring);
            return Err(NullPointer);
          }
          var charge := Charge(t, today).value;
          ChargesSnoc(prefix, t, today, acc);
          acc := acc + charge;
        } else {
          assert Filter(transactions[..i + 1], VisibleRecurring) == prefix;
        }
      }
      assert transactions[..|transactions|] == transactions;
      sum := Ok(acc);
    }

    /** getTotalAmount: the recurring charges plus the normal amounts. */
    method GetTotalAmount(today: int) returns (total: Result<real>)
      ensures total == TotalAmount(transactions, today)
    {
      var recurring := GetRecurringAmount(today);
      if recurring.Err? {
        return Err(recurring.error);
      }
      var normal := GetNormalAmount();
      total := Ok(recurring.value + normal);
    }

    /**
     * sortRecurringTransactions over the stored entries at positions `list`: each
     * date is rolled forward in list order; at the first null date the rollover
     * throws, leaving the entries before it rolled. Otherwise the rolled entries are
     * returned sorted by date.
     */
    method SortRecurringTransactions(list: seq<nat>, today: int) returns (sorted: Result<seq<Transaction>>)
      requires Valid()
      requires forall j :: 0 <= j < |list| ==>
        list[j] < |transactions| && transactions[list[j]].recurringPeriod > 0
      modifies this`transactions
      ensures Valid() && Grows(old(transactions), transactions)
      ensures RolledUpTo(old(transactions), transactions, list, FirstUndated(old(transactions), list), today)
      ensures sorted == if FirstUndated(old(transactions), list) < |list| then Err(NullPointer)
                        else Ok(SortByDate(At(transactions, list)))
    {
      ghost var k := FirstUndated(transactions, list);
      for j := 0 to |list|
        invariant j <= k
        invariant RolledUpTo(old(transactions), transactions, list, j, today)
      {
        var p := list[j];
        var t := transactions[p];
        RolledUpToStep(old(transactions), transactions, list, j, today);
        FirstUndatedAt(old(transactions), list, j);
        if t.date.None? {
          RolledUpToKeeps(old(transactions), transactions, list, j, today);
          return Err(NullPointer);
        }
        var d := AdvanceDate(t.date.value, t.recurringPeriod, today);
        transactions := transactions[p := t.(date := Some(d))];
      }
      RolledUpToKeeps(old(transactions), transactions, list, |list|, today);
      sorted := Ok(SortByDate(At(transactions, list)));
    }

    /**
     * remindRecurringTransactions: rolls every visible recurring entry forward (see
     * SortRecurringTransactions) and returns the list the source hands to the display,
     * sorted by date; nothing is shown when there are no recurring entries.
     */
    method RemindRecurringTransactions(today: int) returns (reminded: Result<seq<Transaction>>)
      requires Valid()
      modifies this`transactions
      ensures Valid() && Grows(old(transactions), transactions)
      ensures var list := Positions(old(transactions), VisibleRecurring);
        var k := FirstUndated(old(transactions), list);
        RolledUpTo(old(transactions), transactions, list, k, today) &&
        reminded == if k < |list| then Err(NullPointer) else Ok(SortByDate(At(transactions, list)))
      ensures reminded.Ok? ==> RolledWhere(old(transactions), transactions, VisibleRecurring, today)
      ensures reminded.Ok? ==> reminded.value == SortByDate(Filter(transactions, VisibleRecurring))
      ensures reminded.Ok? ==> SortedByDate(reminded.value)
      ensures reminded.Ok? ==> forall i :: 0 <= i < |transactions| && Matches(VisibleRecurring, transactions[i]) ==>
        transactions[i].date.Some? && transactions[i].date.value >= today
    {
      var upcoming := Locate(transactions, VisibleRecurring);
      if |upcoming| > 0 {
        reminded := SortRecurringTransactions(upcoming, today);
      } else {
        reminded := Ok([]);
      }
      if reminded.Ok? {
        RemindedEntries(old(transactions), transactions, upcoming, today);
      }
    }
  }
}

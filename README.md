# Transaction ledger model

This is a Dafny model of `TransactionManager`, the in-memory ledger of a command-line
expense tracker. The ledger keeps a list of transactions and never removes one: a
deleted transaction stays in the list with its `deleted` flag set. It also keeps an
optional budget ceiling and a permanent id counter, `currentMaxId`.

On that state the ledger does the following:

- hands out ids;
- adds entries through three overloads: auto-id with the budget gate, explicit id with the budget gate, and restore-as-is;
- looks entries up by id, soft-deletes them, ticks and unticks them, and sets their recurrence;
- edits one field of an entry;
- reschedules entries by description and category;
- builds views: all visible entries, by day, by week, and by search term;
- rolls recurring entries forward to today;
- computes three totals: the flat total, the normal total and the recurring accrual.

The modules follow the program's structure:

- `Transactions` (`transactions.dfy`) holds the stored record and the enum tags and error kinds it uses.
- `JavaLang` (`java_lang.dfy`) holds the Java semantics the ledger relies on: truncating long division, `Integer.parseInt` and `String.contains`.
- `Views` (`views.dfy`) holds the filters, the stable date sort with nulls last, and the id lookup.
- `Amounts` (`amounts.dfy`) holds the aggregates.
- `Recurring` (`recurring.dfy`) holds the date rollover.
- `Manager` (`manager.dfy`) holds the class `TransactionManager`. Its `transactions` field is a `seq<Transaction>` that its methods reassign.
- `Scenarios` (`scenarios.dfy`) holds concrete runs through the class methods.

Modelling choices:

- A transaction is a datatype value. A Java reference to a stored transaction, as returned by `searchTransaction` or held in the list `sortRecurringTransactions` walks, is modelled as its position in `transactions`. A setter called through such a reference is an update at that position.
- Dates are day numbers, wrapped in `Option<int>` because a date may be null. `LocalDate.now()` becomes the parameter `today`.
- Amounts are `real`.
- An exception that escapes an operation becomes `Err` in a `Result`, or `Fail` in an `Outcome`.
- `Category.valueOf` and `Currency.valueOf` are modelled as an exact match of the name against a set of constant names, passed in as a parameter. The enum declarations are not part of this model.
- `Transaction.java` is not part of this model. Its seven-argument constructor is taken to leave `recurringPeriod` at 0 and `deleted` at false, which are Java's field defaults.

## Model

| member | source | states |
|---|---|---|
| Transactions.NewPending | src/main/java/seedu/duke/TransactionManager.java:86-87 | the entry both gated adds build: the given id, description, amount, currency and category, dated today, PENDING, not recurring, not deleted |
| Transactions.CategoryOf | src/main/java/seedu/duke/TransactionManager.java:211 | Category.valueOf succeeds exactly when the name is a constant's name, and gives that constant; otherwise it raises |
| Transactions.CurrencyOf | src/main/java/seedu/duke/TransactionManager.java:305 | Currency.valueOf succeeds exactly when the name is a constant's name, and gives that constant; otherwise it raises |
| Transactions.DateLeq | src/main/java/seedu/duke/TransactionManager.java:235 | `Comparator.nullsLast(Comparator.naturalOrder())` on nullable dates: dates ascending, every null after every date; on non-null dates it is also the order `Comparator.comparing(Transaction::getDate)` sorts by at line 205 |
| Transactions.DateLeqTotal | src/main/java/seedu/duke/TransactionManager.java:235 | any two nullable dates are comparable |
| Transactions.DateLeqTransitive | src/main/java/seedu/duke/TransactionManager.java:235 | the date order is transitive |
| JavaLang.JavaDiv | src/main/java/seedu/duke/TransactionManager.java:326 | long division truncates toward zero: the remainder has the dividend's sign and is smaller than the divisor |
| JavaLang.JavaDivZero | src/main/java/seedu/duke/TransactionManager.java:326 | the truncated quotient is 0 exactly when the dividend lies strictly between -divisor and divisor |
| JavaLang.JavaDivFarNegative | src/main/java/seedu/duke/TransactionManager.java:326 | a dividend at or below -2 divisors gives a quotient of at most -2 |
| JavaLang.ParseInt | src/main/java/seedu/duke/TransactionManager.java:170 | Integer.parseInt: a parsed value lies in the 32-bit range; it is accepted only as an optional '-' or '+' followed by at least one digit, and its value is that of the digits with the sign applied; conversely every such string whose value is in range is accepted, leading '+' and leading zeros included; the empty string, a lone sign, a bad first character or a non-digit anywhere after it is rejected |
| JavaLang.ParseFormatRoundTrip | src/main/java/seedu/duke/TransactionManager.java:170 | parseInt accepts the decimal rendering of every 32-bit int and returns that int |
| JavaLang.Contains | src/main/java/seedu/duke/TransactionManager.java:174 | String.contains: the term occurs as a contiguous piece of the description |
| JavaLang.ContainsEdges | src/main/java/seedu/duke/TransactionManager.java:174 | every description contains the empty term and itself, and none contains a longer term |
| Views.Select | src/main/java/seedu/duke/TransactionManager.java:122-127 | the accumulator loop of the views returns exactly the filter of the list |
| Views.FilterMembers | src/main/java/seedu/duke/TransactionManager.java:173-177 | a value is in a filtered view exactly when it is in the list and matches (both directions) |
| Views.FilterConcat | src/main/java/seedu/duke/TransactionManager.java:123-127 | filtering distributes over concatenation, so the loops can be reasoned about prefix by prefix |
| Views.FilterPermutation | src/main/java/seedu/duke/TransactionManager.java:266-272 | filtering two permutations of one list gives two permutations of one filtered list |
| Views.FilterSorted | src/main/java/seedu/duke/TransactionManager.java:266-272 | filtering a date-sorted list keeps it date-sorted |
| Views.SortByDate | src/main/java/seedu/duke/TransactionManager.java:234-237 | the sort returns a permutation of its input |
| Views.SortByDateSorted | src/main/java/seedu/duke/TransactionManager.java:234-237 | the sort's output has non-decreasing dates with every null date after every non-null one |
| Views.SortByDateStable | src/main/java/seedu/duke/TransactionManager.java:234-237 | the sort is stable: for every date, including null, the entries with that date keep their relative order |
| Views.FindVisible | src/main/java/seedu/duke/TransactionManager.java:156-164 | the position found holds the id and is not deleted, and no earlier entry qualifies; None means no entry qualifies |
| Views.Locate | src/main/java/seedu/duke/TransactionManager.java:186-191 | the collection loop of remindRecurringTransactions returns the positions of the matching entries |
| Views.Positions | src/main/java/seedu/duke/TransactionManager.java:186-191 | every collected position is in range and matches, every matching position is collected, and the positions are strictly increasing |
| Views.PositionsAt | src/main/java/seedu/duke/TransactionManager.java:186-191 | reading the list at the collected positions gives exactly the filter |
| Views.PositionsAgree | src/main/java/seedu/duke/TransactionManager.java:199-204 | the collected positions stay the same after a change that keeps every entry's match, such as a change of date |
| Amounts.SumAmountsConcat | src/main/java/seedu/duke/TransactionManager.java:63-71 | the sum of a concatenation is the sum of the parts |
| Amounts.FlatTotalSnoc | src/main/java/seedu/duke/TransactionManager.java:89-97 | appending an entry raises the flat total by its amount, or by 0 if it is deleted; a successful add raises the budget total by the amount checked |
| Amounts.FlatTotalSplit | src/main/java/seedu/duke/TransactionManager.java:332-340 | the flat total is the normal total plus the plain recurring amounts, each entry counted once |
| Amounts.Charge | src/main/java/seedu/duke/TransactionManager.java:325-326 | one recurring entry's accrual raises NullPointerException exactly when its date is null |
| Amounts.ChargesTotal | src/main/java/seedu/duke/TransactionManager.java:321-330 | the summed accrual fails, with NullPointerException, exactly when some recurring entry has a null date |
| Amounts.ChargesSnoc | src/main/java/seedu/duke/TransactionManager.java:323-327 | one loop step of getRecurringAmount adds the entry's accrual to the running sum |
| Amounts.ChargeAfterTwelveDays | src/main/java/seedu/duke/TransactionManager.java:325-326 | 10 every 5 days, dated 12 days ago, accrues 10 * (12 / 5 + 1) = 30 |
| Amounts.CurrentChargeOnce | src/main/java/seedu/duke/TransactionManager.java:325-326 | an entry dated within one period from today on accrues its amount exactly once |
| Amounts.CurrentChargesOnce | src/main/java/seedu/duke/TransactionManager.java:321-330 | when every recurring entry is in its first period, the accrual is the plain sum of their amounts |
| Amounts.TotalWhenCurrent | src/main/java/seedu/duke/TransactionManager.java:317-340 | when every recurring entry is in its first period, getTotalAmount equals the flat total the budget gate uses |
| Amounts.FarFutureChargeNegative | src/main/java/seedu/duke/TransactionManager.java:325-326 | as written, a positive entry dated two or more periods ahead accrues a negative amount |
| Recurring.RollDate | src/main/java/seedu/duke/TransactionManager.java:201-203 | the rolled date is not before today and not before the old date; a date already at or after today is unchanged; a date before today ends strictly before today + period |
| Recurring.RollDateWholePeriods | src/main/java/seedu/duke/TransactionManager.java:201-203 | the rolled date is the old date plus a non-negative whole number of periods |
| Recurring.RollDateLeast | src/main/java/seedu/duke/TransactionManager.java:201-203 | no date of the progression date + k * period that is at or after today comes before the rolled date |
| Recurring.RollDateIdempotent | src/main/java/seedu/duke/TransactionManager.java:201-203 | rolling a rolled date again changes nothing |
| Recurring.Roll | src/main/java/seedu/duke/TransactionManager.java:199-204 | rolling an entry changes only its date and keeps a null date null |
| Recurring.RollIdempotent | src/main/java/seedu/duke/TransactionManager.java:199-204 | rolling an entry twice is the same as rolling it once |
| Recurring.AdvanceDate | src/main/java/seedu/duke/TransactionManager.java:200-203 | the while loop stops at the rolled date |
| Recurring.FirstUndated | src/main/java/seedu/duke/TransactionManager.java:199-201 | the loop gets through every listed entry before the returned index, all of them dated, and throws at that index when it is in range |
| Recurring.FirstUndatedAt | src/main/java/seedu/duke/TransactionManager.java:199-201 | at an index the loop reaches, a null date is exactly where it throws, and a date lets it go on |
| Manager.Lookup | src/main/java/seedu/duke/TransactionManager.java:169-171 | the id search yields at most one entry: the first stored entry that is visible and has that id; it yields none exactly when no such entry exists |
| Manager.Edited | src/main/java/seedu/duke/TransactionManager.java:297-306 | field 0 sets the description; 1 sets the category to the constant named by the value when it resolves, and otherwise raises the unknown-constant error; 2 sets the amount when the value parses as a non-negative int, raises NumberFormatException when it does not parse, and raises the negative-amount error for a negative value; 3 sets the currency named by the value, or raises the unknown-constant error; any other field changes nothing; no other field ever changes |
| Manager.Rescheduled | src/main/java/seedu/duke/TransactionManager.java:212-216 | exactly the entries with that description and category get the due date; nothing else changes |
| Manager.TransactionsView | src/main/java/seedu/duke/TransactionManager.java:121-130 | getTransactions lists exactly the non-deleted entries, as a permutation, date-sorted with nulls last and stable |
| Manager.DeleteHides | src/main/java/seedu/duke/TransactionManager.java:132-137 | soft-deleting a visible entry lowers the visible count by one and the flat total by its amount, and searchTransaction no longer resolves to that position |
| Manager.DeletedNotListed | src/main/java/seedu/duke/TransactionManager.java:121-130 | a deleted entry never appears in getTransactions |
| Manager.RolledUpToStep | src/main/java/seedu/duke/TransactionManager.java:199-204 | one step of the rollover loop sees the entry's original period and nullness, and rolling it extends the rolled prefix, even for a position listed twice |
| Manager.RolledForward | src/main/java/seedu/duke/TransactionManager.java:185-204 | rolling keeps which entries are visible and recurring, and leaves each of them dated today or later |
| Manager.RemindedEntries | src/main/java/seedu/duke/TransactionManager.java:185-207 | a reminder pass that met no null date rolled exactly the visible recurring entries, each now dated today or later, and lists them date-sorted |
| Manager.RolledIsCurrent | src/main/java/seedu/duke/TransactionManager.java:185-207 | after a full reminder pass over entries each dated before today + period, getTotalAmount equals the flat total |
| Manager.TransactionManager.constructor | src/main/java/seedu/duke/TransactionManager.java:18-26 | a new ledger is empty, in SGD, with no budget set (limit -1) and the counter at 0 |
| Manager.TransactionManager.GetNextAvailableId | src/main/java/seedu/duke/TransactionManager.java:33-39 | the counter goes up by exactly one and the new value is returned |
| Manager.TransactionManager.GetNum | src/main/java/seedu/duke/TransactionManager.java:49-51 | the number of stored entries, deleted ones included; at least the number of visible ones |
| Manager.TransactionManager.GetSize | src/main/java/seedu/duke/TransactionManager.java:53-61 | the number of non-deleted entries, never more than getNum |
| Manager.TransactionManager.GetTotalTransactionAmount | src/main/java/seedu/duke/TransactionManager.java:63-71 | the sum of the amounts of the non-deleted entries |
| Manager.TransactionManager.RestoreTransaction | src/main/java/seedu/duke/TransactionManager.java:73-82 | the entry is appended as given with no budget check, and the counter becomes the larger of itself and the entry's id |
| Manager.TransactionManager.AddTransaction | src/main/java/seedu/duke/TransactionManager.java:84-99 | the counter rises by exactly one even when the add is rejected; the add succeeds exactly when no active budget would be exceeded; on success exactly one PENDING entry dated today, with the new id, is appended, and otherwise the list is unchanged; the new id exceeds every stored id |
| Manager.TransactionManager.AddTransactionWithId | src/main/java/seedu/duke/TransactionManager.java:102-119 | the same budget gate with the supplied id; only a successful add raises the counter to that id |
| Manager.TransactionManager.CheckBudgetLimit | src/main/java/seedu/duke/TransactionManager.java:139-149 | over the limit, the reported overage is total minus limit and the budget stays as it was; otherwise the limit is set and activated |
| Manager.TransactionManager.Clear | src/main/java/seedu/duke/TransactionManager.java:151-154 | the transaction list becomes empty |
| Manager.TransactionManager.SearchTransaction | src/main/java/seedu/duke/TransactionManager.java:156-164 | returns the first visible entry with the id, or null |
| Manager.TransactionManager.CheckIdEmpty | src/main/java/seedu/duke/TransactionManager.java:309-315 | true exactly when no visible entry has the id |
| Manager.TransactionManager.DeleteExpense | src/main/java/seedu/duke/TransactionManager.java:132-137 | only the flag of the found entry is set, the length is kept, every other entry is untouched, and an unknown id changes nothing |
| Manager.TransactionManager.TickTransaction | src/main/java/seedu/duke/TransactionManager.java:219-222 | only the found entry changes, and it becomes COMPLETED; an unknown id changes nothing |
| Manager.TransactionManager.UnTickTransaction | src/main/java/seedu/duke/TransactionManager.java:224-227 | only the found entry changes, and it becomes PENDING; an unknown id changes nothing |
| Manager.TransactionManager.SetRecur | src/main/java/seedu/duke/TransactionManager.java:229-232 | only the found entry changes, and it gets the period; an unknown id changes nothing |
| Manager.TransactionManager.SearchTransactionList | src/main/java/seedu/duke/TransactionManager.java:166-183 | by index: the entry whose id the term parses to, and nothing when it does not parse or nothing is found; by text: the visible entries whose description contains the term, in stored order |
| Manager.TransactionManager.GetTransactions | src/main/java/seedu/duke/TransactionManager.java:121-130 | the stable date sort of the non-deleted entries (see TransactionsView) |
| Manager.TransactionManager.GetTransactionsOnDate | src/main/java/seedu/duke/TransactionManager.java:239-247 | the visible entries dated that day, in the order they are stored |
| Manager.TransactionManager.GetTransactionsThisWeek | src/main/java/seedu/duke/TransactionManager.java:262-274 | the visible entries dated from today to today + 7 inclusive, sorted by date, and a permutation of those entries |
| Manager.TransactionManager.Notify | src/main/java/seedu/duke/TransactionManager.java:209-217 | an unparsable date or an unknown category raises and changes nothing; otherwise every entry, deleted ones too, is rescheduled pointwise |
| Manager.TransactionManager.EditInfo | src/main/java/seedu/duke/TransactionManager.java:292-307 | an id with no visible entry changes nothing; otherwise only that entry is replaced by its edit, and a failed edit raises and changes nothing |
| Manager.TransactionManager.GetNormalAmount | src/main/java/seedu/duke/TransactionManager.java:332-340 | the sum of the amounts of the non-deleted entries with period at most 0 |
| Manager.TransactionManager.GetRecurringAmount | src/main/java/seedu/duke/TransactionManager.java:321-330 | the sum of amount * (days / period + 1) over the non-deleted recurring entries, with truncating division; NullPointerException at a null date |
| Manager.TransactionManager.GetTotalAmount | src/main/java/seedu/duke/TransactionManager.java:317-319 | the recurring accrual plus the normal total |
| Manager.TransactionManager.SortRecurringTransactions | src/main/java/seedu/duke/TransactionManager.java:198-207 | the listed entries are rolled in list order up to the first null date, which raises NullPointerException and keeps the earlier rolls; nothing else changes; on success the rolled entries come back date-sorted |
| Manager.TransactionManager.RemindRecurringTransactions | src/main/java/seedu/duke/TransactionManager.java:185-196 | rolls the visible recurring entries; on success exactly those were rolled, each is now dated today or later, and the returned list is their date-sorted view |
| Scenarios.BudgetGate | src/main/java/seedu/duke/TransactionManager.java:84-99 | with a budget of 100 over a total of 90, adding 20 is rejected and leaves the total at 90, adding 5 succeeds, for a total of 95; the rejected add uses up id 2, so the accepted entry gets id 3 |
| Scenarios.EditNegativeAmount | src/main/java/seedu/duke/TransactionManager.java:300-304 | editing the amount to "-5" raises the negative-amount error and keeps the amount at 10 |
| Scenarios.RolloverTenDaysAgo | src/main/java/seedu/duke/TransactionManager.java:185-207 | an entry dated 10 days ago with period 3 is rolled to today + 2 |
| Scenarios.TenDaysAgo | src/main/java/seedu/duke/TransactionManager.java:185-204 | a ledger holding only an entry dated 10 days ago with period 3 lists it and rolls it to today + 2 |
| Scenarios.RecurringTwelveDays | src/main/java/seedu/duke/TransactionManager.java:321-330 | 10 recurring every 5 days, dated 12 days ago, accrues 30 |

## Left out

- `src/main/java/command/StatusWizardCommand.java` is console input and printing. It has no ledger logic of its own: it calls `complete`/`notComplete` on the entry `searchTransaction` returns, which `TickTransaction` and `UnTickTransaction` model.
- Printing is not modelled: the `System.out.println` messages and `Ui.printRecurringTransactions`. A message that carries data is returned instead, such as the overage of `checkBudgetLimit` or the list of the reminder pass.
- `getUpcomingTransactions` is left out. It is a string dispatch onto printing plus `LocalDate.parse`. Its targets, the on-date and this-week views, are modelled.
- `getTransactionsThisMonth` is left out. It needs the calendar month and year of a date, which are library calendar arithmetic outside day numbers.
- `Storage` (`setStorage`, `loadMaxTransactionId`, `saveMaxTransactionId`) is persistence I/O. Only the counter it saves is modelled.
- `BudgetList`, `setBudgetList`, `getBudgetList` and `clear`'s call to `budgetList.clear()` are left out. That class is not part of this model.
- `LocalDate.now()` is the parameter `today`. The source reads the clock again on every step of the rollover loop in `sortRecurringTransactions` and for every entry of the accrual loop in `getRecurringAmount`; the model uses one `today` for each whole pass.
- `LocalDate.parse` in `notify` is abstracted as the already-parsed `Option<int>` due date.
- IEEE double rounding in sums and in budget comparisons is not modelled; amounts are exact reals.
- The `int` id counter is unbounded in the model; wrap-around of `currentMaxId` is not modelled.
- JavaLang.ParseInt: accepts only the ASCII digits 0-9, where `Integer.parseInt` also accepts other Unicode decimal digits.
- Java null strings and a null restored transaction are not modelled: descriptions, search terms and the transaction passed to `addTransaction(Transaction)` are taken to be non-null.
- Manager.TransactionManager.Notify: reschedules every matching entry, where the source throws NullPointerException partway through its loop at a stored null description, after rescheduling the entries before it.
- Manager.TransactionManager.SearchTransactionList: does not model the null cases: at a null description the source throws and its catch returns the entries collected so far, and a null term gives the empty list.
- Manager.TransactionManager.RestoreTransaction: does not model `addTransaction(null)`, which appends the null and then throws at `getId()`.
- Aliasing is not modelled: the source can store one Transaction object twice, and a change through one reference then shows at both positions. The model treats every position as its own entry.
- Manager.TransactionManager.SortRecurringTransactions: requires every listed entry to have a positive period. For a date before today, with period 0 the source's while loop never ends, and with a negative period `plusDays` moves the date further back until it passes `LocalDate.MIN` and throws `DateTimeException`. Its only caller lists only entries with a positive period.
- Amounts.Charge: requires a positive period. Every caller reaches it only after the period > 0 test.
- Amounts.FarFutureChargeNegative records that the source's accrual factor, `days / period + 1`, is negative for an entry dated two or more periods ahead. The model keeps this behaviour as written.
- Transactions.CategoryOf: the constants of `Category` and `Currency` are not part of this model. Their names come in as a parameter.

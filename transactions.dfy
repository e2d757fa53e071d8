/**
 * The Transaction record the ledger stores, the enum tags it carries and the
 * error kinds the ledger's operations can raise.
 */
module Transactions {
  import opened Options

  datatype Status = Pending | Completed

  /** A constant of the Category enum, identified by its name. */
  datatype Category = Category(name: string)

  /** A constant of the Currency enum, identified by its name. */
  datatype Currency = Currency(code: string)

  /** The manager's default currency. */
  const SGD: Currency := Currency("SGD")

  /**
   * One monetary event. `date` is a day number (None for a Java null date);
   * `recurringPeriod <= 0` means "not recurring"; `deleted` is the soft-delete flag.
   */
  datatype Transaction = Transaction(
    id: int,
    description: string,
    amount: real,
    currency: Currency,
    category: Category,
    date: Option<int>,
    status: Status,
    recurringPeriod: int,
    deleted: bool)

  /** The exceptions the ledger's operations let escape to their caller. */
  datatype Error =
    | NullPointer        // a null date dereferenced
    | NumberFormat       // Integer.parseInt rejected its input
    | UnknownConstant    // Enum.valueOf found no constant of that name
    | NegativeAmount     // editInfo's "Expense cannot be negative!"
    | DateParse          // LocalDate.parse rejected its input

  datatype Result<T> = Ok(value: T) | Err(error: Error)

  datatype Outcome = Pass | Fail(error: Error)

  /**
   * A transaction built by the seven-argument constructor: PENDING, not deleted,
   * and not recurring (the two fields it does not receive keep Java's defaults).
   */
  function NewPending(id: int, description: string, amount: real, currency: Currency,
                      category: Category, today: int): (t: Transaction)
    ensures t.id == id && t.description == description && t.amount == amount
    ensures t.currency == currency && t.category == category
    ensures t.date == Some(today) && t.status == Pending
    ensures t.recurringPeriod == 0 && !t.deleted
  {
    Transaction(id, description, amount, currency, category, Some(today), Pending, 0, false)
  }

  /** Category.valueOf: the constant whose name is exactly `s`, among `names`. */
  function CategoryOf(names: set<string>, s: string): (r: Result<Category>)
    ensures r.Ok? <==> s in names
    ensures r.Ok? ==> r.value.name == s
    ensures r.Err? ==> r.error == UnknownConstant
  {
    if s in names then Ok(Category(s)) else Err(UnknownConstant)
  }

  /** Currency.valueOf: the constant whose name is exactly `s`, among `names`. */
  function CurrencyOf(names: set<string>, s: string): (r: Result<Currency>)
    ensures r.Ok? <==> s in names
    ensures r.Ok? ==> r.value.code == s
    ensures r.Err? ==> r.error == UnknownConstant
  {
    if s in names then Ok(Currency(s)) else Err(UnknownConstant)
  }

  /**
   * The order of Comparator.nullsLast(Comparator.naturalOrder()) on nullable dates:
   * dates ascending, every null after every date, nulls equal to each other.
   */
  predicate DateLeq(a: Option<int>, b: Option<int>)
  {
    match a
    case None => b.None?
    case Some(x) => b.None? || x <= b.value
  }

  lemma DateLeqTotal(a: Option<int>, b: Option<int>)
    ensures DateLeq(a, b) || DateLeq(b, a)
  {
  }

  lemma DateLeqTransitive(a: Option<int>, b: Option<int>, c: Option<int>)
    requires DateLeq(a, b) && DateLeq(b, c)
    ensures DateLeq(a, c)
  {
  }
}

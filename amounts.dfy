/**
 * The ledger's aggregates: the flat total used by the budget gate, the sum of
 * the normal entries, the accrued charges of the recurring ones, and their sum.
 */
module Amounts {
  import opened Options
  import opened Transactions
  import opened JavaLang
  import opened Views

  /** The sum of the amounts in `s`, accumulated front to back as the source's loops do. */
  function SumAmounts(s: seq<Transaction>): real
  {
    if s == [] then 0.0 else SumAmounts(s[..|s| - 1]) + s[|s| - 1].amount
  }

  lemma SumAmountsSnoc(s: seq<Transaction>, x: Transaction)
    ensures SumAmounts(s + [x]) == SumAmounts(s) + x.amount
  {
    assert (s + [x])[..|s|] == s;
  }

  lemma {:induction false} SumAmountsConcat(a: seq<Transaction>, b: seq<Transaction>)
    ensures SumAmounts(a + b) == SumAmounts(a) + SumAmounts(b)
  {
    if b != [] {
      var b' := b[..|b| - 1];
      SumAmountsConcat(a, b');
      assert a + b == (a + b') + [b[|b| - 1]];
      SumAmountsSnoc(a + b', b[|b| - 1]);
    } else {
      assert a + b == a;
    }
  }

  /** getTotalTransactionAmount: the amounts of all non-deleted entries, recurring or not. */
  function FlatTotal(s: seq<Transaction>): real
  {
    SumAmounts(Filter(s, Visible))
  }

  /** Appending an entry raises the flat total by its amount, unless it is deleted. */
  lemma FlatTotalSnoc(s: seq<Transaction>, x: Transaction)
    ensures FlatTotal(s + [x]) == FlatTotal(s) + if x.deleted then 0.0 else x.amount
  {
    FilterSnoc(s, x, Visible);
    if !x.deleted {
      SumAmountsSnoc(Filter(s, Visible), x);
    } else {
      assert Filter(s, Visible) + [] == Filter(s, Visible);
    }
  }

  /** getNormalAmount: the amounts of the non-deleted, non-recurring entries. */
  function NormalTotal(s: seq<Transaction>): real
  {
    SumAmounts(Filter(s, VisibleNormal))
  }

  /** The flat total splits into the normal entries and the recurring ones, each counted once. */
  lemma {:induction false} FlatTotalSplit(s: seq<Transaction>)
    ensures FlatTotal(s) == NormalTotal(s) + SumAmounts(Filter(s, VisibleRecurring))
  {
    if s != [] {
      FlatTotalSplit(s[1..]);
      var x := s[0];
      var head := if Matches(Visible, x) then [x] else [];
      var headN := if Matches(VisibleNormal, x) then [x] else [];
      var headR := if Matches(VisibleRecurring, x) then [x] else [];
      SumAmountsConcat(head, Filter(s[1..], Visible));
      SumAmountsConcat(headN, Filter(s[1..], VisibleNormal));
      SumAmountsConcat(headR, Filter(s[1..], VisibleRecurring));
      assert SumAmounts([x]) == x.amount by {
        assert [x][..0] == [];
      }
    }
  }

  /**
   * What one recurring entry accrues: amount * (days / period + 1), days = today - date,
   * with Java's truncating division; a null date is a NullPointerException.
   */
  function Charge(t: Transaction, today: int): (r: Result<real>)
    requires t.recurringPeriod > 0
    ensures r.Err? <==> t.date.None?
    ensures r.Err? ==> r.error == NullPointer
  {
    match t.date
    case None => Err(NullPointer)
    case Some(d) => Ok(t.amount * ((JavaDiv(today - d, t.recurringPeriod) + 1) as real))
  }

  /** Every entry of `r` recurs. */
  predicate AllRecurring(r: seq<Transaction>)
  {
    forall j :: 0 <= j < |r| ==> r[j].recurringPeriod > 0
  }

  /** Some entry of `r` has a null date. */
  predicate HasUndated(r: seq<Transaction>)
  {
    exists j :: 0 <= j < |r| && r[j].date.None?
  }

  /** The charges of `r` summed front to back; the first null date aborts the sum. */
  function ChargesTotal(r: seq<Transaction>, today: int): (total: Result<real>)
    requires AllRecurring(r)
    ensures total.Err? <==> HasUndated(r)
    ensures total.Err? ==> total.error == NullPointer
  {
    if r == [] then Ok(0.0)
    else
      match ChargesTotal(r[..|r| - 1], today)
      case Err(e) => Err(e)
      case Ok(sum) =>
        match Charge(r[|r| - 1], today)
        case Err(e) => Err(e)
        case Ok(c) => Ok(sum + c)
  }

  /** One step of the accumulator loop of getRecurringAmount, at a dated entry. */
  lemma ChargesSnoc(r: seq<Transaction>, t: Transaction, today: int, sum: real)
    requires AllRecurring(r)
    requires t.recurringPeriod > 0 && t.date.Some?
    requires ChargesTotal(r, today) == Ok(sum)
    ensures ChargesTotal(r + [t], today) == Ok(sum + Charge(t, today).value)
  {
    assert (r + [t])[..|r|] == r;
  }

  /** getRecurringAmount: the charges of the non-deleted recurring entries. */
  function RecurringTotal(s: seq<Transaction>, today: int): Result<real>
  {
    FilterAllMatch(s, VisibleRecurring);
    ChargesTotal(Filter(s, VisibleRecurring), today)
  }

  /** getTotalAmount: the recurring charges (computed first) plus the normal amounts. */
  function TotalAmount(s: seq<Transaction>, today: int): Result<real>
  {
    match RecurringTotal(s, today)
    case Err(e) => Err(e)
    case Ok(recurring) => Ok(recurring + NormalTotal(s))
  }

  /** A recurring entry dated within one period from today on. */
  predicate InFirstPeriod(t: Transaction, today: int)
  {
    t.recurringPeriod > 0 && t.date.Some? && today <= t.date.value < today + t.recurringPeriod
  }

  /** Every non-deleted recurring entry is dated within its first period from today on. */
  predicate Current(s: seq<Transaction>, today: int)
  {
    forall i :: 0 <= i < |s| && Matches(VisibleRecurring, s[i]) ==> InFirstPeriod(s[i], today)
  }

  /** An entry dated within one period from today on accrues its amount exactly once. */
  lemma CurrentChargeOnce(t: Transaction, today: int)
    requires InFirstPeriod(t, today)
    ensures Charge(t, today) == Ok(t.amount)
  {
    JavaDivZero(today - t.date.value, t.recurringPeriod);
  }

  lemma {:induction false} CurrentChargesOnce(r: seq<Transaction>, today: int)
    requires AllRecurring(r)
    requires forall j :: 0 <= j < |r| ==> InFirstPeriod(r[j], today)
    ensures ChargesTotal(r, today) == Ok(SumAmounts(r))
  {
    if r != [] {
      CurrentChargesOnce(r[..|r| - 1], today);
      CurrentChargeOnce(r[|r| - 1], today);
    }
  }

  /**
   * Once every recurring entry is current, the total of getTotalAmount is exactly the
   * flat total the budget gate uses.
   */
  lemma TotalWhenCurrent(s: seq<Transaction>, today: int)
    requires Current(s, today)
    ensures TotalAmount(s, today) == Ok(FlatTotal(s))
  {
    var r := Filter(s, VisibleRecurring);
    FilterMembers(s, VisibleRecurring);
    forall j | 0 <= j < |r|
      ensures InFirstPeriod(r[j], today)
    {
      assert r[j] in r;
      var i :| 0 <= i < |s| && s[i] == r[j];
    }
    FilterAllMatch(s, VisibleRecurring);
    CurrentChargesOnce(r, today);
    FlatTotalSplit(s);
  }

  /** An entry dated two or more periods ahead of today accrues a negative amount. */
  lemma FarFutureChargeNegative(t: Transaction, today: int)
    requires t.recurringPeriod > 0 && t.amount > 0.0 && t.date.Some?
    requires t.date.value >= today + 2 * t.recurringPeriod
    ensures Charge(t, today).Ok? && Charge(t, today).value < 0.0
  {
    var q := JavaDiv(today - t.date.value, t.recurringPeriod);
    JavaDivFarNegative(today - t.date.value, t.recurringPeriod);
    assert (q + 1) as real <= -1.0;
    assert t.amount * ((q + 1) as real) <= t.amount * -1.0;
  }

  /** An entry of amount 10 with period 5, dated 12 days ago, accrues 10 * (12 / 5 + 1) = 30. */
  lemma ChargeAfterTwelveDays(t: Transaction, today: int)
    requires t.amount == 10.0 && t.recurringPeriod == 5 && t.date == Some(today - 12)
    ensures Charge(t, today) == Ok(30.0)
  {
  }
}

/**
 * Selections and orderings of the ledger's list: the filters behind every view,
 * the stable date sort of getTransactions and the lookup of searchTransaction.
 */
module Views {
  import opened Options
  import opened Transactions
  import opened JavaLang

  /** The conditions the ledger's loops select transactions by. */
  datatype Criterion =
    | Visible                          // not soft-deleted
    | VisibleRecurring                 // not deleted, recurringPeriod > 0
    | VisibleNormal                    // not deleted, recurringPeriod <= 0
    | VisibleContaining(term: string)  // not deleted, description contains term
    | DatedAs(day: Option<int>)        // date equal to day (null to null)
    | Within(from: int, to: int)       // a non-null date, not before from and not after to

  predicate Matches(c: Criterion, t: Transaction)
  {
    match c
    case Visible => !t.deleted
    case VisibleRecurring => !t.deleted && t.recurringPeriod > 0
    case VisibleNormal => !t.deleted && t.recurringPeriod <= 0
    case VisibleContaining(term) => !t.deleted && Contains(t.description, term)
    case DatedAs(day) => t.date == day
    case Within(from, to) => t.date.Some? && from <= t.date.value <= to
  }

  /** The entries of `s` that match `c`, in their order in `s`. */
  function Filter(s: seq<Transaction>, c: Criterion): (r: seq<Transaction>)
    ensures |r| <= |s|
  {
    if s == [] then [] else (if Matches(c, s[0]) then [s[0]] else []) + Filter(s[1..], c)
  }

  /** The accumulator loop the ledger's views are built by: keep each entry that matches. */
  method Select(s: seq<Transaction>, c: Criterion) returns (r: seq<Transaction>)
    ensures r == Filter(s, c)
  {
    r := [];
    for i := 0 to |s|
      invariant r == Filter(s[..i], c)
    {
      FilterPrefix(s, i, c);
      if Matches(c, s[i]) {
        r := r + [s[i]];
      }
    }
    assert s[..|s|] == s;
  }

  /** The filter holds exactly the entries of `s` that match. */
  lemma {:induction false} FilterMembers(s: seq<Transaction>, c: Criterion)
    ensures forall t :: t in Filter(s, c) <==> t in s && Matches(c, t)
  {
    if s != [] {
      FilterMembers(s[1..], c);
      assert s == [s[0]] + s[1..];
    }
  }

  /** Every entry of the filter matches. */
  lemma FilterAllMatch(s: seq<Transaction>, c: Criterion)
    ensures forall j :: 0 <= j < |Filter(s, c)| ==> Matches(c, Filter(s, c)[j])
  {
    FilterMembers(s, c);
    forall j | 0 <= j < |Filter(s, c)|
      ensures Matches(c, Filter(s, c)[j])
    {
      assert Filter(s, c)[j] in Filter(s, c);
    }
  }

  lemma {:induction false} FilterConcat(a: seq<Transaction>, b: seq<Transaction>, c: Criterion)
    ensures Filter(a + b, c) == Filter(a, c) + Filter(b, c)
  {
    if a == [] {
      assert a + b == b;
    } else {
      var ab := a + b;
      assert ab[0] == a[0];
      assert ab[1..] == a[1..] + b;
      FilterConcat(a[1..], b, c);
      assert Filter(ab, c) == (if Matches(c, a[0]) then [a[0]] else []) + Filter(a[1..] + b, c);
    }
  }

  /** One step of a forward accumulator loop over `s`. */
  lemma FilterSnoc(s: seq<Transaction>, x: Transaction, c: Criterion)
    ensures Filter(s + [x], c) == Filter(s, c) + (if Matches(c, x) then [x] else [])
  {
    FilterConcat(s, [x], c);
    assert [x][1..] == [];
  }

  /** One step of a forward accumulator loop, stated on prefixes of `s`. */
  lemma FilterPrefix(s: seq<Transaction>, i: int, c: Criterion)
    requires 0 <= i < |s|
    ensures Filter(s[..i + 1], c) == Filter(s[..i], c) + (if Matches(c, s[i]) then [s[i]] else [])
  {
    assert s[..i + 1] == s[..i] + [s[i]];
    FilterSnoc(s[..i], s[i], c);
  }

  /** Filtering around one position of `s`, after the entry there is replaced by `x`. */
  lemma FilterAround(s: seq<Transaction>, i: int, x: Transaction, c: Criterion)
    requires 0 <= i < |s|
    ensures Filter(s[i := x], c) ==
      Filter(s[..i], c) + (if Matches(c, x) then [x] else []) + Filter(s[i + 1..], c)
  {
    assert s[i := x] == (s[..i] + [x]) + s[i + 1..];
    FilterConcat(s[..i] + [x], s[i + 1..], c);
    FilterSnoc(s[..i], x, c);
  }

  /** Filtering keeps every occurrence of a matching value and none of the others. */
  lemma {:induction false} FilterCount(s: seq<Transaction>, c: Criterion, x: Transaction)
    ensures multiset(Filter(s, c))[x] == if Matches(c, x) then multiset(s)[x] else 0
  {
    if s != [] {
      var head := if Matches(c, s[0]) then [s[0]] else [];
      var rest := Filter(s[1..], c);
      FilterCount(s[1..], c, x);
      assert multiset(Filter(s, c)) == multiset(head) + multiset(rest) by {
        assert Filter(s, c) == head + rest;
      }
      assert multiset(s) == multiset{s[0]} + multiset(s[1..]) by {
        assert s == [s[0]] + s[1..];
      }
    }
  }

  /** Filtering two permutations of each other gives two permutations of each other. */
  lemma FilterPermutation(a: seq<Transaction>, b: seq<Transaction>, c: Criterion)
    requires multiset(a) == multiset(b)
    ensures multiset(Filter(a, c)) == multiset(Filter(b, c))
  {
    forall x
      ensures multiset(Filter(a, c))[x] == multiset(Filter(b, c))[x]
    {
      FilterCount(a, c, x);
      FilterCount(b, c, x);
    }
  }

  /** Dates non-decreasing, every null date after every non-null one. */
  predicate SortedByDate(s: seq<Transaction>)
  {
    forall i, j :: 0 <= i < j < |s| ==> DateLeq(s[i].date, s[j].date)
  }

  lemma {:induction false} FilterSorted(s: seq<Transaction>, c: Criterion)
    requires SortedByDate(s)
    ensures SortedByDate(Filter(s, c))
  {
    if s != [] {
      FilterSorted(s[1..], c);
      FilterMembers(s[1..], c);
      var rest := Filter(s[1..], c);
      if Matches(c, s[0]) {
        forall j | 0 <= j < |rest|
          ensures DateLeq(s[0].date, rest[j].date)
        {
          assert rest[j] in s[1..];
          var k :| 0 <= k < |s[1..]| && s[1..][k] == rest[j];
          assert s[k + 1] == rest[j];
        }
        assert Filter(s, c) == [s[0]] + rest;
      }
    }
  }

  /** Places `t` before the first entry it does not sort after. */
  function Insert(t: Transaction, s: seq<Transaction>): (r: seq<Transaction>)
    ensures |r| == |s| + 1
    ensures multiset(r) == multiset(s) + multiset{t}
  {
    if s == [] then [t]
    else if DateLeq(t.date, s[0].date) then [t] + s
    else
      assert s == [s[0]] + s[1..];
      [s[0]] + Insert(t, s[1..])
  }

  /** Every date in `s` sorts at or after `b`. */
  predicate LowerBound(b: Option<int>, s: seq<Transaction>)
  {
    forall j :: 0 <= j < |s| ==> DateLeq(b, s[j].date)
  }

  /** A sorted list stays sorted with an entry in front that sorts before all of it. */
  lemma SortedCons(x: Transaction, r: seq<Transaction>)
    requires SortedByDate(r) && LowerBound(x.date, r)
    ensures SortedByDate([x] + r)
  {
    var xr := [x] + r;
    forall i, j | 0 <= i < j < |xr|
      ensures DateLeq(xr[i].date, xr[j].date)
    {
      if i == 0 {
        assert xr[j] == r[j - 1];
      } else {
        assert xr[i] == r[i - 1] && xr[j] == r[j - 1];
      }
    }
  }

  lemma {:induction false} InsertLowerBound(t: Transaction, s: seq<Transaction>, b: Option<int>)
    requires LowerBound(b, s) && DateLeq(b, t.date)
    ensures LowerBound(b, Insert(t, s))
  {
    if s == [] {
      assert Insert(t, s) == [t];
    } else if DateLeq(t.date, s[0].date) {
      var r := [t] + s;
      assert Insert(t, s) == r;
      assert forall j :: 1 <= j < |r| ==> r[j] == s[j - 1];
    } else {
      InsertLowerBound(t, s[1..], b);
      var rest := Insert(t, s[1..]);
      var r := [s[0]] + rest;
      assert Insert(t, s) == r;
      assert forall j :: 1 <= j < |r| ==> r[j] == rest[j - 1];
    }
  }

  lemma {:induction false} InsertSorted(t: Transaction, s: seq<Transaction>)
    requires SortedByDate(s)
    ensures SortedByDate(Insert(t, s))
  {
    if s == [] {
      assert Insert(t, s) == [t];
    } else if DateLeq(t.date, s[0].date) {
      forall j | 0 <= j < |s|
        ensures DateLeq(t.date, s[j].date)
      {
        if j > 0 {
          DateLeqTransitive(t.date, s[0].date, s[j].date);
        }
      }
      SortedCons(t, s);
      assert Insert(t, s) == [t] + s;
    } else {
      var tail := s[1..];
      assert SortedByDate(tail) by {
        assert forall j :: 0 <= j < |tail| ==> tail[j] == s[j + 1];
      }
      assert LowerBound(s[0].date, tail) by {
        assert forall j :: 0 <= j < |tail| ==> tail[j] == s[j + 1];
      }
      InsertSorted(t, tail);
      DateLeqTotal(t.date, s[0].date);
      InsertLowerBound(t, tail, s[0].date);
      SortedCons(s[0], Insert(t, tail));
      assert Insert(t, s) == [s[0]] + Insert(t, tail);
    }
  }

  /**
   * List.sort with Comparator.comparing(getDate, nullsLast(naturalOrder())): a
   * stable sort, written here as an insertion sort.
   */
  function SortByDate(s: seq<Transaction>): (r: seq<Transaction>)
    ensures |r| == |s|
    ensures multiset(r) == multiset(s)
  {
    if s == [] then []
    else
      assert s == [s[0]] + s[1..];
      Insert(s[0], SortByDate(s[1..]))
  }

  lemma {:induction false} SortByDateSorted(s: seq<Transaction>)
    ensures SortedByDate(SortByDate(s))
  {
    if s != [] {
      SortByDateSorted(s[1..]);
      InsertSorted(s[0], SortByDate(s[1..]));
    }
  }

  /** Inserting `x` puts it ahead of every entry that shares its date. */
  lemma {:induction false} InsertKeepsOrder(x: Transaction, s: seq<Transaction>, day: Option<int>)
    ensures Filter(Insert(x, s), DatedAs(day)) ==
            (if x.date == day then [x] else []) + Filter(s, DatedAs(day))
  {
    var c := DatedAs(day);
    var xs := if x.date == day then [x] else [];
    if s == [] {
      assert Insert(x, s) == [x];
      assert [x][1..] == [];
    } else if DateLeq(x.date, s[0].date) {
      var ins := [x] + s;
      assert Insert(x, s) == ins;
      assert ins[0] == x && ins[1..] == s;
      assert Filter(ins, c) == xs + Filter(s, c);
    } else {
      var r := Insert(x, s[1..]);
      InsertKeepsOrder(x, s[1..], day);
      var ins := [s[0]] + r;
      assert Insert(x, s) == ins;
      assert ins[0] == s[0] && ins[1..] == r;
      var head := if Matches(c, s[0]) then [s[0]] else [];
      var rest := Filter(s[1..], c);
      assert Filter(ins, c) == head + (xs + rest);
      assert Filter(s, c) == head + rest;
      assert x.date != s[0].date;
      if head == [] {
        assert head + (xs + rest) == xs + rest;
        assert head + rest == rest;
      } else {
        assert xs == [];
        assert xs + rest == rest;
        assert xs + (head + rest) == head + rest;
      }
    }
  }

  /** The sort is stable: entries with equal dates keep their relative order. */
  lemma {:induction false} SortByDateStable(s: seq<Transaction>, day: Option<int>)
    ensures Filter(SortByDate(s), DatedAs(day)) == Filter(s, DatedAs(day))
  {
    if s != [] {
      SortByDateStable(s[1..], day);
      InsertKeepsOrder(s[0], SortByDate(s[1..]), day);
    }
  }

  /** An entry searchTransaction may return: one with this id that is not deleted. */
  predicate IsVisibleWithId(t: Transaction, id: int)
  {
    t.id == id && !t.deleted
  }

  /** The position of the first non-deleted entry with this id, if any. */
  function FindVisible(s: seq<Transaction>, id: int): (r: Option<nat>)
    ensures r.Some? ==> r.value < |s| && IsVisibleWithId(s[r.value], id)
    ensures r.Some? ==> forall j :: 0 <= j < r.value ==> !IsVisibleWithId(s[j], id)
    ensures r.None? ==> forall j :: 0 <= j < |s| ==> !IsVisibleWithId(s[j], id)
  {
    if s == [] then None
    else if IsVisibleWithId(s[0], id) then Some(0)
    else match FindVisible(s[1..], id)
      case None => None
      case Some(k) => Some(k + 1)
  }

  /** The entries of `s` at `positions`, in the order of `positions`. */
  function At(s: seq<Transaction>, positions: seq<nat>): (r: seq<Transaction>)
    requires forall j :: 0 <= j < |positions| ==> positions[j] < |s|
    ensures |r| == |positions|
    ensures forall j :: 0 <= j < |positions| ==> r[j] == s[positions[j]]
  {
    seq(|positions|, j requires 0 <= j < |positions| => s[positions[j]])
  }

  /** The positions of the entries of `s` that match `c`, in increasing order. */
  function Positions(s: seq<Transaction>, c: Criterion): (r: seq<nat>)
    ensures forall j :: 0 <= j < |r| ==> r[j] < |s| && Matches(c, s[r[j]])
    ensures forall i :: 0 <= i < |s| && Matches(c, s[i]) ==> i in r
    ensures forall j, k :: 0 <= j < k < |r| ==> r[j] < r[k]
  {
    if s == [] then []
    else Positions(s[..|s| - 1], c) + (if Matches(c, s[|s| - 1]) then [|s| - 1] else [])
  }

  /** The positions of the entries that match `c`, collected front to back. */
  method Locate(s: seq<Transaction>, c: Criterion) returns (r: seq<nat>)
    ensures r == Positions(s, c)
  {
    r := [];
    for i := 0 to |s|
      invariant r == Positions(s[..i], c)
    {
      assert s[..i + 1][..i] == s[..i];
      if Matches(c, s[i]) {
        r := r + [i];
      }
    }
    assert s[..|s|] == s;
  }

  /** Reading the entries at the positions that match gives the filter. */
  lemma {:induction false} PositionsAt(s: seq<Transaction>, c: Criterion)
    ensures At(s, Positions(s, c)) == Filter(s, c)
  {
    if s != [] {
      var p, x := s[..|s| - 1], s[|s| - 1];
      var head := Positions(p, c);
      var tail: seq<nat> := if Matches(c, x) then [|s| - 1] else [];
      var last := if Matches(c, x) then [x] else [];
      PositionsAt(p, c);
      assert Positions(s, c) == head + tail;
      AtConcat(s, head, tail);
      AtPrefix(s, |s| - 1, head);
      assert At(s, tail) == last;
      assert Filter(s, c) == Filter(p, c) + last by {
        SplitLast(s);
        FilterSnoc(p, x, c);
      }
    }
  }

  /** Positions below `n` read the same in `s` and in its first `n` entries. */
  lemma AtPrefix(s: seq<Transaction>, n: nat, positions: seq<nat>)
    requires n <= |s|
    requires forall j :: 0 <= j < |positions| ==> positions[j] < n
    ensures At(s[..n], positions) == At(s, positions)
  {
  }

  lemma SplitLast<T>(s: seq<T>)
    requires s != []
    ensures s == s[..|s| - 1] + [s[|s| - 1]]
  {
  }

  lemma AtConcat(s: seq<Transaction>, a: seq<nat>, b: seq<nat>)
    requires forall j :: 0 <= j < |a| ==> a[j] < |s|
    requires forall j :: 0 <= j < |b| ==> b[j] < |s|
    ensures At(s, a + b) == At(s, a) + At(s, b)
  {
  }

  /** Entries that match the same criteria sit at the same positions. */
  lemma {:induction false} PositionsAgree(a: seq<Transaction>, b: seq<Transaction>, c: Criterion)
    requires |a| == |b|
    requires forall i :: 0 <= i < |a| ==> Matches(c, a[i]) == Matches(c, b[i])
    ensures Positions(a, c) == Positions(b, c)
  {
    if a != [] {
      PositionsAgree(a[..|a| - 1], b[..|b| - 1], c);
    }
  }
}

/** The expense repository's read side: the profile/date query, the
    payment-method statistics and the month-over-month comparison. `db` is the
    expenses collection as the document store answers a read: the documents it
    holds, or the error the read throws. */
module ExpenseService {
  import opened Replies
  import opened Seqs
  import opened Calendar
  import opened Types
  import opened Grouping

  /** The query's filter: equality on `profileId`, and the inclusive date range
      only when both `startDate` and `endDate` are given. */
  predicate Matches(e: Expense, profileId: string, start: Option<Date>, end: Option<Date>)
  {
    e.profileId == profileId && (start.Some? && end.Some? ==> Within(e.date, start.value, end.value))
  }

  /** The documents a query selects, in the order the store holds them. */
  function Select(all: seq<Expense>, profileId: string, start: Option<Date>, end: Option<Date>): (r: seq<Expense>)
    ensures |r| <= |all|
    ensures forall e :: e in r <==> e in all && Matches(e, profileId, start, end)
  {
    FilterContents(all, e => Matches(e, profileId, start, end));
    Filter(all, e => Matches(e, profileId, start, end))
  }

  /** `getExpenses(profileId, sortField, sortOrder, startDate, endDate)`. A failed
      read is rethrown; otherwise exactly the matching documents are returned. */
  function GetExpenses(db: Reply<seq<Expense>>, profileId: string, start: Option<Date>, end: Option<Date>)
    : (r: Reply<seq<Expense>>)
    ensures db.Failed? ==> r == Failed(db.message)
    ensures db.Done? ==> r.Done? && forall e :: e in r.value <==> e in db.value && Matches(e, profileId, start, end)
  {
    match db
    case Failed(msg) => Failed(msg)
    case Done(all) => Done(Select(all, profileId, start, end))
  }

  /** With only one bound given, the date range is not applied at all. */
  lemma RangeNeedsBothBounds(db: Reply<seq<Expense>>, profileId: string, bound: Date)
    ensures GetExpenses(db, profileId, Some(bound), None) == GetExpenses(db, profileId, None, None)
    ensures GetExpenses(db, profileId, None, Some(bound)) == GetExpenses(db, profileId, None, None)
  {
    if db.Done? {
      FilterCongruent(db.value, e => Matches(e, profileId, Some(bound), None), e => Matches(e, profileId, None, None));
      FilterCongruent(db.value, e => Matches(e, profileId, None, Some(bound)), e => Matches(e, profileId, None, None));
    }
  }

  function MethodOf(e: Expense): PaymentMethod
  {
    e.paymentMethod
  }

  /** `getPaymentMethodStats(profileId)`: the profile's expenses grouped by payment
      method, each entry counting and summing exactly that method's expenses, with
      no entry for a method that does not occur. A failed read is rethrown. */
  function PaymentMethodStats(db: Reply<seq<Expense>>, profileId: string): (r: Reply<seq<Group<PaymentMethod>>>)
    ensures db.Failed? ==> r == Failed(db.message)
    ensures db.Done? ==> r.Done? && Summarises(r.value, Select(db.value, profileId, None, None), MethodOf)
  {
    match GetExpenses(db, profileId, None, None)
    case Failed(msg) => Failed(msg)
    case Done(es) =>
      GroupBySummarises(es, MethodOf);
      Done(GroupBy(es, MethodOf))
  }

  /** Summed over all entries, the counts give the number of the profile's
      expenses and the totals give their overall sum. */
  lemma PaymentMethodStatsConserve(all: seq<Expense>, profileId: string)
    ensures var gs := PaymentMethodStats(Done(all), profileId).value;
      var es := Select(all, profileId, None, None);
      Sum(gs, GroupCount) == |es| && Sum(gs, GroupTotal) == Total(es)
  {
  }

  /** There are only three payment methods, so there are at most three entries. */
  lemma PaymentMethodStatsAtMostThree(all: seq<Expense>, profileId: string)
    ensures |PaymentMethodStats(Done(all), profileId).value| <= 3
  {
    DistinctMethodsAtMostThree(PaymentMethodStats(Done(all), profileId).value);
  }

  lemma DistinctMethodsAtMostThree(gs: seq<Group<PaymentMethod>>)
    requires DistinctKeys(gs)
    ensures |gs| <= 3
  {
    if |gs| > 3 {
      FourthMethodRepeats(gs);
      assert false;
    }
  }

  /** Among four payment methods some method repeats: when the first three
      differ, the fourth equals one of them. */
  lemma FourthMethodRepeats(gs: seq<Group<PaymentMethod>>)
    requires |gs| >= 4
    requires gs[0].key != gs[1].key && gs[0].key != gs[2].key && gs[1].key != gs[2].key
    ensures gs[3].key == gs[0].key || gs[3].key == gs[1].key || gs[3].key == gs[2].key
  {
  }

  /** An example: two cash expenses of 10 and 5 and one credit expense of
      20 give cash 15 over 2, credit 20 over 1, and no debit entry. */
  lemma PaymentMethodStatsExample(p: string, a: Expense, b: Expense, c: Expense)
    requires a.profileId == p && b.profileId == p && c.profileId == p
    requires a.paymentMethod == Cash && a.amount == 10
    requires b.paymentMethod == Cash && b.amount == 5
    requires c.paymentMethod == Credit && c.amount == 20
    ensures PaymentMethodStats(Done([a, b, c]), p) == Done([Group(Cash, 15, 2), Group(Credit, 20, 1)])
  {
    FilterAll([a, b, c], e => Matches(e, p, None, None));
    GroupByExample(a, b, c);
  }

  /** Grouping three expenses by payment method, the first two alike. */
  lemma GroupByExample(a: Expense, b: Expense, c: Expense)
    requires a.paymentMethod == Cash && a.amount == 10
    requires b.paymentMethod == Cash && b.amount == 5
    requires c.paymentMethod == Credit && c.amount == 20
    ensures GroupBy([a, b, c], MethodOf) == [Group(Cash, 15, 2), Group(Credit, 20, 1)]
  {
    GroupByTwoCash(a, b);
    GroupBySnoc([a, b], c, MethodOf);
    assert [a, b] + [c] == [a, b, c];
    var g2 := [Group(Cash, 15, 2)];
    assert g2[1..] == [];
    assert Find(g2, Credit) == 1;
  }

  /** The first two steps of the example: both cash payments share one entry. */
  lemma GroupByTwoCash(a: Expense, b: Expense)
    requires a.paymentMethod == Cash && a.amount == 10
    requires b.paymentMethod == Cash && b.amount == 5
    ensures GroupBy([a, b], MethodOf) == [Group(Cash, 15, 2)]
  {
    GroupBySnoc([], a, MethodOf);
    GroupBySnoc([a], b, MethodOf);
    assert [] + [a] == [a] && [a] + [b] == [a, b];
    var g1 := [Group(Cash, 10, 1)];
    assert Tally([], a, MethodOf) == g1;
    assert Find(g1, Cash) == 0;
  }


  /** `getMonthlyExpenses(profileId, year, month)`: the total over the query from
      `new Date(year, month, 1)` to `new Date(year, month + 1, 0)`. Errors propagate. */
  function MonthlyTotal(db: Reply<seq<Expense>>, profileId: string, year: int, month: int): (r: Reply<int>)
    ensures db.Failed? ==> r == Failed(db.message)
    ensures db.Done? ==> r.Done?
  {
    match GetExpenses(db, profileId, Some(FirstOfMonth(year, month)), Some(LastOfMonth(year, month)))
    case Failed(msg) => Failed(msg)
    case Done(es) => Done(Total(es))
  }

  /** The expense belongs to the profile and is dated in year `y`, month `m`. */
  predicate DatedIn(e: Expense, profileId: string, y: int, m: int)
  {
    e.profileId == profileId && e.date.year == y && e.date.month == m
  }

  /** The profile's expenses dated in the given calendar month. */
  function InMonth(all: seq<Expense>, profileId: string, y: int, m: int): seq<Expense>
  {
    Filter(all, e => DatedIn(e, profileId, y, m))
  }

  /** When every stored date is a real calendar day, a monthly total is the sum
      over the profile's expenses dated in that month, from the 1st to the last
      day; a month index outside 0..11 means the month it rolls over to. */
  lemma MonthlyTotalIsMonthSum(all: seq<Expense>, profileId: string, year: int, month: int)
    requires forall i :: 0 <= i < |all| ==> Valid(all[i].date)
    ensures var first := FirstOfMonth(year, month);
      MonthlyTotal(Done(all), profileId, year, month) == Done(Total(InMonth(all, profileId, first.year, first.month)))
  {
    var first, last := FirstOfMonth(year, month), LastOfMonth(year, month);
    forall i | 0 <= i < |all|
      ensures Matches(all[i], profileId, Some(first), Some(last))
          == DatedIn(all[i], profileId, first.year, first.month)
    {
      MonthRangeIsMonth(all[i].date, year, month);
    }
    FilterCongruent(all, e => Matches(e, profileId, Some(first), Some(last)),
                         e => DatedIn(e, profileId, first.year, first.month));
  }

  /** `compareMonthlyExpenses`' result. */
  datatype Comparison = Comparison(currentMonthTotal: int, previousMonthTotal: int, difference: int, hasSaved: bool)

  /** `compareMonthlyExpenses(profileId, year, month)`, where `dbNow` and
      `dbPrev` answer its two successive reads. Any failure yields no result
      instead of an error. The previous period is the month before (December of
      the year before for January); the difference is previous minus current, and
      the profile has saved exactly when that difference is positive. */
  function CompareMonthly(dbNow: Reply<seq<Expense>>, dbPrev: Reply<seq<Expense>>, profileId: string, year: int, month: int)
    : (r: Option<Comparison>)
    ensures r.Some? <==> dbNow.Done? && dbPrev.Done?
    ensures r.Some? ==>
      var (py, pm) := PreviousMonth(year, month);
      && r.value.currentMonthTotal == MonthlyTotal(dbNow, profileId, year, month).value
      && r.value.previousMonthTotal == MonthlyTotal(dbPrev, profileId, py, pm).value
      && r.value.difference + r.value.currentMonthTotal == r.value.previousMonthTotal
      && (r.value.hasSaved <==> r.value.currentMonthTotal < r.value.previousMonthTotal)
  {
    match MonthlyTotal(dbNow, profileId, year, month)
    case Failed(_) => None
    case Done(current) =>
      var (prevYear, prevMonth) := PreviousMonth(year, month);
      match MonthlyTotal(dbPrev, profileId, prevYear, prevMonth)
      case Failed(_) => None
      case Done(previous) =>
        var difference := previous - current;
        Some(Comparison(current, previous, difference, difference > 0))
  }

  /** January is compared with December of the year before. */
  lemma JanuaryComparesWithDecember(dbNow: Reply<seq<Expense>>, dbPrev: Reply<seq<Expense>>, profileId: string, year: int)
    requires dbNow.Done? && dbPrev.Done?
    ensures CompareMonthly(dbNow, dbPrev, profileId, year, 0).value.previousMonthTotal
         == MonthlyTotal(dbPrev, profileId, year - 1, 11).value
  {
  }

  /** A single expense dated in a calendar month makes up that month's whole total. */
  lemma MonthlyTotalOfOne(e: Expense, p: string)
    requires e.profileId == p && Valid(e.date)
    ensures MonthlyTotal(Done([e]), p, e.date.year, e.date.month) == Done(e.amount)
  {
    var y, m := e.date.year, e.date.month;
    MonthlyTotalIsMonthSum([e], p, y, m);
    assert FirstOfMonth(y, m) == Date(y, m, 1);
    FilterAll([e], e => DatedIn(e, p, y, m));
    TotalOne(e);
  }

  /** An example: a current total of 80 against a previous total of 100
      is a difference of 20, and the profile has saved. */
  lemma CompareMonthlyExample(now: Expense, before: Expense, p: string)
    requires now.profileId == p && now.amount == 80 && now.date == Date(2024, 0, 15)
    requires before.profileId == p && before.amount == 100 && before.date == Date(2023, 11, 31)
    ensures CompareMonthly(Done([now]), Done([before]), p, 2024, 0) == Some(Comparison(80, 100, 20, true))
  {
    MonthlyTotalOfOne(now, p);
    MonthlyTotalOfOne(before, p);
    var c := CompareMonthly(Done([now]), Done([before]), p, 2024, 0);
    assert c.value.currentMonthTotal == 80;
    JanuaryComparesWithDecember(Done([now]), Done([before]), p, 2024);
    assert c.value.previousMonthTotal == 100;
  }
}

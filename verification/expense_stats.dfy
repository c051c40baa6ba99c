/** The dashboard's statistics card: this month's total, count, average and
    top category, computed from the cached expenses. The clock reading `now`
    is an input, taken as the calendar day it falls on. */
module ExpenseStats {
  import opened Seqs
  import opened Calendar
  import opened Types
  import opened Grouping

  /** `isWithinInterval(date, { start: startOfMonth(now), end: endOfMonth(now) })`. */
  predicate InMonthOf(e: Expense, today: Date)
  {
    Within(e.date, FirstOfMonth(today.year, today.month), LastOfMonth(today.year, today.month))
  }

  /** The expenses dated in the current month, in cache order. */
  function CurrentMonth(es: seq<Expense>, today: Date): seq<Expense>
  {
    Filter(es, e => InMonthOf(e, today))
  }

  /** The expense is dated in today's year and month. */
  predicate SameMonth(e: Expense, today: Date)
  {
    e.date.year == today.year && e.date.month == today.month
  }

  /** For real calendar days, an expense counts exactly when it falls in the same
      year and month as today. */
  lemma CurrentMonthIsTodaysMonth(es: seq<Expense>, today: Date)
    requires Valid(today)
    requires forall i :: 0 <= i < |es| ==> Valid(es[i].date)
    ensures CurrentMonth(es, today)
         == Filter(es, e => SameMonth(e, today))
  {
    forall i | 0 <= i < |es|
      ensures InMonthOf(es[i], today) == SameMonth(es[i], today)
    {
      MonthRangeIsMonth(es[i].date, today.year, today.month);
    }
    FilterCongruent(es, e => InMonthOf(e, today), e => SameMonth(e, today));
  }

  function CategoryOf(e: Expense): string
  {
    e.category
  }

  /** `categorySums`: one entry per category that occurs this month, in order of first
      occurrence, holding that category's sum. (The grouping also counts; the card
      does not use the counts.) */
  function CategorySums(current: seq<Expense>): (gs: seq<Group<string>>)
    ensures Summarises(gs, current, CategoryOf)
  {
    GroupBySummarises(current, CategoryOf);
    GroupBy(current, CategoryOf)
  }

  /** `{ category, sum }`, the accumulator of the top-category reduce. */
  datatype Top = Top(category: string, sum: int)

  /** The names `Object.prototype` already answers to. The sums are folded into a
      plain `{}`, so `acc[c] || 0` reads the inherited member for such a name and
      the sum turns into a string; for `__proto__` the assignment is dropped and
      no entry is made at all. */
  predicate Inherited(c: string)
  {
    c in {"constructor", "hasOwnProperty", "isPrototypeOf", "propertyIsEnumerable", "toLocaleString",
          "toString", "valueOf", "__proto__", "__defineGetter__", "__defineSetter__",
          "__lookupGetter__", "__lookupSetter__"}
  }

  /** `Object.entries(categorySums).reduce((max, [c, s]) => s > max.sum ? {c, s} : max, { '', 0 })`.
      An entry under an inherited name holds a string, and `s > max.sum` is false
      for it, so the reduce passes over it. Its sum is never negative and no other
      category's sum exceeds it; it is a category's own entry whenever it is
      positive; and with no positive sum it stays at the empty initial value. */
  function TopCategory(gs: seq<Group<string>>): (t: Top)
    ensures t.sum >= 0
    ensures forall i :: 0 <= i < |gs| && !Inherited(gs[i].key) ==> gs[i].total <= t.sum
    ensures (forall i :: 0 <= i < |gs| && !Inherited(gs[i].key) ==> gs[i].total <= 0) ==> t == Top("", 0)
    ensures t.sum > 0 ==>
      exists i :: 0 <= i < |gs| && gs[i].key == t.category && gs[i].total == t.sum && !Inherited(gs[i].key)
    decreases |gs|
  {
    if gs == [] then Top("", 0)
    else
      var init, last := gs[..|gs| - 1], gs[|gs| - 1];
      var max := TopCategory(init);
      assert forall i :: 0 <= i < |init| ==> init[i] == gs[i];
      if !Inherited(last.key) && last.total > max.sum then Top(last.key, last.total) else max
  }

  /** Ties go to the earliest category: when entry `k` is the first to reach the
      largest sum and that sum is positive, the reduce ends on entry `k`. */
  lemma {:induction false} TopIsFirstMaximum(gs: seq<Group<string>>, k: nat)
    requires k < |gs| && gs[k].total > 0 && !Inherited(gs[k].key)
    requires forall j :: 0 <= j < |gs| && !Inherited(gs[j].key) ==> gs[j].total <= gs[k].total
    requires forall j :: 0 <= j < k && !Inherited(gs[j].key) ==> gs[j].total < gs[k].total
    ensures TopCategory(gs) == Top(gs[k].key, gs[k].total)
    decreases |gs|
  {
    var init := gs[..|gs| - 1];
    assert forall i :: 0 <= i < |init| ==> init[i] == gs[i];
    if k < |gs| - 1 {
      TopIsFirstMaximum(init, k);
    } else {
      var max := TopCategory(init);
      if max.sum > 0 {
        var i :| 0 <= i < |init| && init[i].key == max.category && init[i].total == max.sum && !Inherited(init[i].key);
        assert gs[i].total < gs[k].total;
      }
    }
  }

  /** The converse: a positive top is the entry at some position `k`, and every
      earlier entry the reduce compares has a smaller sum. */
  lemma {:induction false} TopPosition(gs: seq<Group<string>>) returns (k: nat)
    requires TopCategory(gs).sum > 0
    ensures k < |gs| && gs[k].key == TopCategory(gs).category && gs[k].total == TopCategory(gs).sum
    ensures !Inherited(gs[k].key)
    ensures forall j :: 0 <= j < k && !Inherited(gs[j].key) ==> gs[j].total < TopCategory(gs).sum
    decreases |gs|
  {
    var init, last := gs[..|gs| - 1], gs[|gs| - 1];
    var max := TopCategory(init);
    assert forall i :: 0 <= i < |init| ==> init[i] == gs[i];
    if !Inherited(last.key) && last.total > max.sum {
      k := |gs| - 1;
    } else {
      k := TopPosition(init);
    }
  }

  /** What the card shows. */
  datatype Summary = Summary(
    totalSpent: int,
    expenseCount: nat,
    averageExpense: real,
    topCategory: string,
    topCategoryAmount: int)

  /** `total / (count || 1)`: an empty month averages to its total, which is 0. */
  function Average(total: int, count: nat): (avg: real)
    ensures count == 0 ==> avg == total as real
    ensures count > 0 ==> avg * (count as real) == total as real
  {
    if count == 0 then total as real else total as real / count as real
  }

  /** The top amount is at least the sum of every category whose name is not
      inherited, including those that do not occur this month (whose sum is 0). */
  lemma TopBoundsEveryCategory(current: seq<Expense>, c: string)
    requires !Inherited(c)
    ensures Total(WithKey(current, CategoryOf, c)) <= TopCategory(CategorySums(current)).sum
  {
    var sums := CategorySums(current);
    if WithKey(current, CategoryOf, c) != [] {
      assert HasKey(sums, c);
      var i :| 0 <= i < |sums| && sums[i].key == c;
    }
  }

  /** A positive top amount is the whole sum of the category the card names. */
  lemma TopIsItsCategorySum(current: seq<Expense>)
    ensures var t := TopCategory(CategorySums(current));
      t.sum > 0 ==> !Inherited(t.category) && Total(WithKey(current, CategoryOf, t.category)) == t.sum
  {
    if TopCategory(CategorySums(current)).sum > 0 {
      var k := TopPosition(CategorySums(current));
    }
  }

  /** The `stats` memo. Only this month's expenses contribute; the average divides
      by the count, or by 1 for an empty month; the top amount bounds the sum of
      every category with an ordinary name, and when positive it is the named
      category's own sum; with nothing positive the card names no category. */
  function Stats(es: seq<Expense>, today: Date): (s: Summary)
    ensures s.expenseCount == |CurrentMonth(es, today)|
    ensures s.totalSpent == Total(CurrentMonth(es, today))
    ensures s.expenseCount == 0 ==> s.totalSpent == 0 && s.averageExpense == 0.0
    ensures s.averageExpense == Average(s.totalSpent, s.expenseCount)
    ensures s.topCategoryAmount >= 0
    ensures forall c :: !Inherited(c) ==> Total(WithKey(CurrentMonth(es, today), CategoryOf, c)) <= s.topCategoryAmount
    ensures s.topCategoryAmount > 0 ==>
      !Inherited(s.topCategory) && Total(WithKey(CurrentMonth(es, today), CategoryOf, s.topCategory)) == s.topCategoryAmount
    ensures s.topCategoryAmount == 0 ==> s.topCategory == ""
  {
    var current := CurrentMonth(es, today);
    var top := TopCategory(CategorySums(current));
    forall c | !Inherited(c) ensures Total(WithKey(current, CategoryOf, c)) <= top.sum {
      TopBoundsEveryCategory(current, c);
    }
    TopIsItsCategorySum(current);
    var total, count := Total(current), |current|;
    var average := Average(total, count);
    Summary(total, count, average, top.category, top.sum)
  }

  /** Of two categories tied at the top, the card names the one whose first
      expense this month comes first. */
  lemma TiedCategoryFirstSeenWins(es: seq<Expense>, today: Date, c: string)
    ensures var current, s := CurrentMonth(es, today), Stats(es, today);
      !Inherited(c) && c != s.topCategory && s.topCategoryAmount > 0
      && Total(WithKey(current, CategoryOf, c)) == s.topCategoryAmount
      ==> FirstAt(current, CategoryOf, s.topCategory) < FirstAt(current, CategoryOf, c)
  {
    var current := CurrentMonth(es, today);
    var t := TopCategory(CategorySums(current));
    assert Stats(es, today).topCategory == t.category && Stats(es, today).topCategoryAmount == t.sum;
    TieGoesToFirstSeen(current, c);
  }

  /** The same over the month's expenses: a category tied with the top comes
      after it among the expenses. */
  lemma TieGoesToFirstSeen(current: seq<Expense>, c: string)
    ensures var t := TopCategory(CategorySums(current));
      !Inherited(c) && c != t.category && t.sum > 0 && Total(WithKey(current, CategoryOf, c)) == t.sum
      ==> FirstAt(current, CategoryOf, t.category) < FirstAt(current, CategoryOf, c)
  {
    var gs := CategorySums(current);
    var t := TopCategory(gs);
    if !Inherited(c) && c != t.category && t.sum > 0 && Total(WithKey(current, CategoryOf, c)) == t.sum {
      var k := TopPosition(gs);
      assert WithKey(current, CategoryOf, c) != [];
      assert HasKey(gs, c);
      var m :| 0 <= m < |gs| && gs[m].key == c;
      assert k < m;
      GroupByFirstOccurrence(current, CategoryOf);
    }
  }

  /** A category named like a member of `Object.prototype` never makes the top:
      one expense of 50 under `toString` leaves the card at `''` with 0. */
  lemma InheritedCategoryIsIgnored(e: Expense, today: Date)
    requires e.category == "toString" && e.amount == 50
    requires Valid(e.date) && Valid(today) && SameMonth(e, today)
    ensures Stats([e], today).totalSpent == 50
    ensures Stats([e], today).topCategory == "" && Stats([e], today).topCategoryAmount == 0
  {
    MonthRangeIsMonth(e.date, today.year, today.month);
    assert FirstOfMonth(today.year, today.month) == Date(today.year, today.month, 1);
    FilterAll([e], x => InMonthOf(x, today));
    TotalOne(e);
    assert Inherited("toString");
    assert GroupBy([e], CategoryOf) == [Group("toString", 50, 1)];
  }

  /** The category sums split this month's total without loss. */
  lemma CategorySumsConserveTotal(es: seq<Expense>, today: Date)
    ensures Sum(CategorySums(CurrentMonth(es, today)), GroupTotal) == Stats(es, today).totalSpent
  {
  }
}

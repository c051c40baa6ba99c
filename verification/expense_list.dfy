/** The expense table's ordering: the sort configuration, its toggle, the
    comparator, and the sorted copy of the list the table renders. */
module ExpenseList {
  import opened Calendar
  import opened Types

  /** `keyof Expense`: any field can be asked for, though only two are sortable. */
  datatype SortKey =
    | IdKey | ProfileIdKey | AmountKey | DescriptionKey | CategoryKey
    | DateKey | PaymentMethodKey | CreatedAtKey | UpdatedAtKey

  datatype Direction = Asc | Desc

  datatype SortConfig = SortConfig(key: SortKey, direction: Direction)

  /** The table first shows the newest expenses first. */
  const InitialSort := SortConfig(DateKey, Desc)

  /** `handleSort(key)`: the clicked column becomes the key; the direction turns to
      descending only when that column was already sorted ascending. */
  function HandleSort(current: SortConfig, key: SortKey): (next: SortConfig)
    ensures next.key == key
    ensures next.direction == Desc <==> current.key == key && current.direction == Asc
  {
    SortConfig(key, if current.key == key && current.direction == Asc then Desc else Asc)
  }

  /** From the second click on the same column, every click flips the direction. */
  lemma RepeatedClicksAlternate(current: SortConfig, key: SortKey)
    ensures HandleSort(HandleSort(current, key), key).direction != HandleSort(current, key).direction
  {
  }

  /** A sort key as a number: the day for dates, the amount for amounts, negated
      for a descending sort, and the same for every expense on any other key. */
  function Rank(cfg: SortConfig, e: Expense): int
  {
    var v := if cfg.key == DateKey then Ordinal(e.date) else if cfg.key == AmountKey then e.amount else 0;
    if cfg.direction == Asc then v else -v
  }

  /** The comparator handed to `sort`. It is induced by `Rank`, so it is a
      consistent total preorder: negative means `a` goes first. */
  function Compare(cfg: SortConfig, a: Expense, b: Expense): (c: int)
    ensures c == Rank(cfg, a) - Rank(cfg, b)
    ensures cfg.key != DateKey && cfg.key != AmountKey ==> c == 0
  {
    if cfg.key == DateKey then
      (if cfg.direction == Asc then Ordinal(a.date) - Ordinal(b.date) else Ordinal(b.date) - Ordinal(a.date))
    else if cfg.key == AmountKey then
      (if cfg.direction == Asc then a.amount - b.amount else b.amount - a.amount)
    else 0
  }

  /** Ordered by the comparator: no pair is out of order. */
  predicate Sorted(cfg: SortConfig, s: seq<Expense>)
  {
    forall i, j :: 0 <= i < j < |s| ==> Rank(cfg, s[i]) <= Rank(cfg, s[j])
  }

  /** Puts `x` in front of the first element it does not rank after, so it stays
      ahead of every element of equal rank. */
  function Insert(cfg: SortConfig, x: Expense, s: seq<Expense>): (r: seq<Expense>)
    ensures multiset(r) == multiset(s) + multiset{x}
    decreases |s|
  {
    if s == [] then [x]
    else if Compare(cfg, x, s[0]) <= 0 then [x] + s
    else
      assert s == [s[0]] + s[1..];
      [s[0]] + Insert(cfg, x, s[1..])
  }

  /** A head no later than every element of a sorted tail keeps the list sorted. */
  lemma ConsSorted(cfg: SortConfig, h: Expense, t: seq<Expense>)
    requires Sorted(cfg, t)
    requires RanksAtLeast(cfg, t, Rank(cfg, h))
    ensures Sorted(cfg, [h] + t)
  {
    var r := [h] + t;
    forall i, j | 0 <= i < j < |r| ensures Rank(cfg, r[i]) <= Rank(cfg, r[j]) {
      assert r[j] == t[j - 1];
      if i > 0 {
        assert r[i] == t[i - 1];
      }
    }
  }

  /** Every expense of `s` ranks at least `b`. */
  predicate RanksAtLeast(cfg: SortConfig, s: seq<Expense>, b: int)
  {
    forall i :: 0 <= i < |s| ==> Rank(cfg, s[i]) >= b
  }

  /** Inserting keeps a lower bound on the ranks that `x` and the list both meet. */
  lemma {:induction false} InsertLowerBound(cfg: SortConfig, x: Expense, s: seq<Expense>, b: int)
    requires Rank(cfg, x) >= b && RanksAtLeast(cfg, s, b)
    ensures RanksAtLeast(cfg, Insert(cfg, x, s), b)
    decreases |s|
  {
    if s == [] {
      assert Insert(cfg, x, s) == [x];
    } else if Compare(cfg, x, s[0]) <= 0 {
      var r := Insert(cfg, x, s);
      assert r == [x] + s;
      forall i | 0 <= i < |r| ensures Rank(cfg, r[i]) >= b {
        if i > 0 {
          assert r[i] == s[i - 1];
        }
      }
    } else {
      assert RanksAtLeast(cfg, s[1..], b) by {
        forall i | 0 <= i < |s[1..]| ensures Rank(cfg, s[1..][i]) >= b {
          assert s[1..][i] == s[i + 1];
        }
      }
      InsertLowerBound(cfg, x, s[1..], b);
      var r := Insert(cfg, x, s);
      var t := Insert(cfg, x, s[1..]);
      assert r == [s[0]] + t;
      forall i | 0 <= i < |r| ensures Rank(cfg, r[i]) >= b {
        if i > 0 {
          assert r[i] == t[i - 1];
        } else {
          assert r[0] == s[0];
        }
      }
    }
  }

  /** Inserting into a sorted list keeps it sorted. */
  lemma {:induction false} InsertSorted(cfg: SortConfig, x: Expense, s: seq<Expense>)
    requires Sorted(cfg, s)
    ensures Sorted(cfg, Insert(cfg, x, s))
    decreases |s|
  {
    if s == [] {
    } else if Compare(cfg, x, s[0]) <= 0 {
      ConsSorted(cfg, x, s);
    } else {
      var t := Insert(cfg, x, s[1..]);
      assert Sorted(cfg, s[1..]) by {
        forall i, j | 0 <= i < j < |s| - 1 ensures Rank(cfg, s[1..][i]) <= Rank(cfg, s[1..][j]) {
          assert s[1..][i] == s[i + 1] && s[1..][j] == s[j + 1];
        }
      }
      InsertSorted(cfg, x, s[1..]);
      assert RanksAtLeast(cfg, s[1..], Rank(cfg, s[0])) by {
        forall i | 0 <= i < |s[1..]| ensures Rank(cfg, s[1..][i]) >= Rank(cfg, s[0]) {
          assert s[1..][i] == s[i + 1];
        }
      }
      InsertLowerBound(cfg, x, s[1..], Rank(cfg, s[0]));
      ConsSorted(cfg, s[0], t);
    }
  }

  /** `[...expenses].sort(comparator)`: a sorted permutation of a copy of the list.
      `Array.prototype.sort` is stable, so elements the comparator ties keep their
      order, as this insertion sort keeps it. */
  function Sort(cfg: SortConfig, s: seq<Expense>): (r: seq<Expense>)
    ensures multiset(r) == multiset(s)
    decreases |s|
  {
    assert s != [] ==> s == [s[0]] + s[1..];
    if s == [] then [] else Insert(cfg, s[0], Sort(cfg, s[1..]))
  }

  /** The sorted copy is a permutation of the list, ordered by the comparator. */
  lemma {:induction false} SortIsOrderedPermutation(cfg: SortConfig, s: seq<Expense>)
    ensures multiset(Sort(cfg, s)) == multiset(s)
    ensures Sorted(cfg, Sort(cfg, s))
    decreases |s|
  {
    if s != [] {
      assert s == [s[0]] + s[1..];
      SortIsOrderedPermutation(cfg, s[1..]);
      InsertSorted(cfg, s[0], Sort(cfg, s[1..]));
    }
  }

  /** Sorting by amount ascending gives non-decreasing amounts; descending, non-increasing. */
  lemma SortByAmount(s: seq<Expense>, dir: Direction)
    ensures var r := Sort(SortConfig(AmountKey, dir), s);
      forall i, j :: 0 <= i < j < |r| ==> if dir == Asc then r[i].amount <= r[j].amount else r[i].amount >= r[j].amount
  {
    SortIsOrderedPermutation(SortConfig(AmountKey, dir), s);
  }

  /** Sorting by date puts real calendar days in chronological order ascending,
      and in reverse chronological order descending. */
  lemma SortByDate(s: seq<Expense>, dir: Direction)
    requires forall i :: 0 <= i < |s| ==> Valid(s[i].date)
    ensures var r := Sort(SortConfig(DateKey, dir), s);
      forall i, j :: 0 <= i < j < |r| ==>
        if dir == Asc then AtOrBefore(r[i].date, r[j].date) else AtOrBefore(r[j].date, r[i].date)
  {
    var r := Sort(SortConfig(DateKey, dir), s);
    SortIsOrderedPermutation(SortConfig(DateKey, dir), s);
    forall i, j | 0 <= i < j < |r|
      ensures if dir == Asc then AtOrBefore(r[i].date, r[j].date) else AtOrBefore(r[j].date, r[i].date)
    {
      assert r[i] in multiset(s) && r[j] in multiset(s);
      OrdinalMonotone(r[i].date, r[j].date);
      OrdinalMonotone(r[j].date, r[i].date);
    }
  }

  /** The table opens sorted by date, newest first. */
  lemma InitialOrderIsNewestFirst(s: seq<Expense>)
    requires forall i :: 0 <= i < |s| ==> Valid(s[i].date)
    ensures var r := Sort(InitialSort, s);
      forall i, j :: 0 <= i < j < |r| ==> AtOrBefore(r[j].date, r[i].date)
  {
    SortByDate(s, Desc);
  }

  /** Any other key makes every comparison 0, and the stable sort leaves the list as it was. */
  lemma {:induction false} OtherKeyKeepsOrder(cfg: SortConfig, s: seq<Expense>)
    requires cfg.key != DateKey && cfg.key != AmountKey
    ensures Sort(cfg, s) == s
    decreases |s|
  {
    if s != [] {
      OtherKeyKeepsOrder(cfg, s[1..]);
      assert s == [s[0]] + s[1..];
    }
  }

  /** The run of expenses of rank `v`, in list order. */
  function Run(cfg: SortConfig, v: int, s: seq<Expense>): (r: seq<Expense>)
    ensures |r| <= |s|
    ensures forall i :: 0 <= i < |r| ==> Rank(cfg, r[i]) == v
    decreases |s|
  {
    if s == [] then []
    else (if Rank(cfg, s[0]) == v then [s[0]] else []) + Run(cfg, v, s[1..])
  }

  /** The run of a list with a given head. */
  lemma RunCons(cfg: SortConfig, v: int, h: Expense, t: seq<Expense>)
    ensures Run(cfg, v, [h] + t) == (if Rank(cfg, h) == v then [h] else []) + Run(cfg, v, t)
  {
    assert ([h] + t)[1..] == t;
  }

  /** Inserting adds `x` at the front of its own rank's run and changes no other run. */
  lemma {:induction false} InsertStable(cfg: SortConfig, x: Expense, s: seq<Expense>, v: int)
    ensures Run(cfg, v, Insert(cfg, x, s)) == (if Rank(cfg, x) == v then [x] else []) + Run(cfg, v, s)
    decreases |s|
  {
    if s == [] {
      RunCons(cfg, v, x, []);
    } else if Compare(cfg, x, s[0]) <= 0 {
      RunCons(cfg, v, x, s);
    } else {
      var t := Insert(cfg, x, s[1..]);
      InsertStable(cfg, x, s[1..], v);
      RunCons(cfg, v, s[0], t);
      RunCons(cfg, v, s[0], s[1..]);
      assert [s[0]] + s[1..] == s;
      assert Insert(cfg, x, s) == [s[0]] + t;
      if Rank(cfg, s[0]) == v {
        assert Rank(cfg, x) != v;
      }
    }
  }

  /** The sort is stable: within each rank the expenses keep their input order. */
  lemma {:induction false} SortStable(cfg: SortConfig, s: seq<Expense>, v: int)
    ensures Run(cfg, v, Sort(cfg, s)) == Run(cfg, v, s)
    decreases |s|
  {
    if s != [] {
      InsertStable(cfg, s[0], Sort(cfg, s[1..]), v);
      SortStable(cfg, s[1..], v);
      RunCons(cfg, v, s[0], s[1..]);
      assert [s[0]] + s[1..] == s;
    }
  }

  /** `s` in reverse order. */
  function Reverse(s: seq<Expense>): (r: seq<Expense>)
    ensures |r| == |s|
    ensures forall i :: 0 <= i < |s| ==> r[i] == s[|s| - 1 - i]
    ensures multiset(r) == multiset(s)
    decreases |s|
  {
    if s == [] then []
    else
      assert s == [s[0]] + s[1..];
      Reverse(s[1..]) + [s[0]]
  }

  /** No two different positions share a rank. */
  predicate DistinctRanks(cfg: SortConfig, s: seq<Expense>)
  {
    forall i, j :: 0 <= i < |s| && 0 <= j < |s| && i != j ==> Rank(cfg, s[i]) != Rank(cfg, s[j])
  }

  /** Ordered with no ties. */
  predicate StrictlySorted(cfg: SortConfig, s: seq<Expense>)
  {
    forall i, j :: 0 <= i < j < |s| ==> Rank(cfg, s[i]) < Rank(cfg, s[j])
  }

  /** No expense of `s` shares `x`'s rank. */
  predicate RankAbsent(cfg: SortConfig, x: Expense, s: seq<Expense>)
  {
    forall i :: 0 <= i < |s| ==> Rank(cfg, s[i]) != Rank(cfg, x)
  }

  /** When every rank differs, the sorted list has no ties either. */
  lemma {:induction false} SortStrict(cfg: SortConfig, s: seq<Expense>)
    requires DistinctRanks(cfg, s)
    ensures StrictlySorted(cfg, Sort(cfg, s))
    decreases |s|
  {
    if s != [] {
      var t := Sort(cfg, s[1..]);
      SortIsOrderedPermutation(cfg, s[1..]);
      assert DistinctRanks(cfg, s[1..]) by {
        forall i, j | 0 <= i < |s[1..]| && 0 <= j < |s[1..]| && i != j
          ensures Rank(cfg, s[1..][i]) != Rank(cfg, s[1..][j])
        {
          assert s[1..][i] == s[i + 1] && s[1..][j] == s[j + 1];
        }
      }
      SortStrict(cfg, s[1..]);
      forall i | 0 <= i < |t| ensures Rank(cfg, t[i]) != Rank(cfg, s[0]) {
        assert t[i] in multiset(s[1..]);
        var k :| 0 <= k < |s[1..]| && s[1..][k] == t[i];
        assert s[k + 1] == t[i];
      }
      InsertStrict(cfg, s[0], t);
    }
  }

  /** A head ranked below every element of a strictly ordered tail keeps the order strict. */
  lemma ConsStrict(cfg: SortConfig, h: Expense, t: seq<Expense>)
    requires StrictlySorted(cfg, t)
    requires RanksAtLeast(cfg, t, Rank(cfg, h) + 1)
    ensures StrictlySorted(cfg, [h] + t)
  {
    var r := [h] + t;
    forall i, j | 0 <= i < j < |r| ensures Rank(cfg, r[i]) < Rank(cfg, r[j]) {
      assert r[j] == t[j - 1];
      if i > 0 {
        assert r[i] == t[i - 1];
      }
    }
  }

  /** Inserting an element whose rank differs from all others keeps a strict order. */
  lemma {:induction false} InsertStrict(cfg: SortConfig, x: Expense, s: seq<Expense>)
    requires StrictlySorted(cfg, s) && RankAbsent(cfg, x, s)
    ensures StrictlySorted(cfg, Insert(cfg, x, s))
    decreases |s|
  {
    if s == [] {
    } else if Compare(cfg, x, s[0]) <= 0 {
      assert RanksAtLeast(cfg, s, Rank(cfg, x) + 1) by {
        forall i | 0 <= i < |s| ensures Rank(cfg, s[i]) >= Rank(cfg, x) + 1 {
          assert Rank(cfg, s[0]) != Rank(cfg, x);
          if i > 0 {
            assert Rank(cfg, s[0]) < Rank(cfg, s[i]);
          }
        }
      }
      ConsStrict(cfg, x, s);
    } else {
      var t := Insert(cfg, x, s[1..]);
      StrictTail(cfg, s);
      assert RankAbsent(cfg, x, s[1..]) by {
        forall i | 0 <= i < |s[1..]| ensures Rank(cfg, s[1..][i]) != Rank(cfg, x) {
          assert s[1..][i] == s[i + 1];
        }
      }
      InsertStrict(cfg, x, s[1..]);
      assert RanksAtLeast(cfg, s[1..], Rank(cfg, s[0]) + 1) by {
        forall i | 0 <= i < |s[1..]| ensures Rank(cfg, s[1..][i]) >= Rank(cfg, s[0]) + 1 {
          assert s[1..][i] == s[i + 1];
        }
      }
      InsertLowerBound(cfg, x, s[1..], Rank(cfg, s[0]) + 1);
      ConsStrict(cfg, s[0], t);
    }
  }

  /** Two strictly ordered permutations of the same expenses start with the same element. */
  lemma SameHead(cfg: SortConfig, a: seq<Expense>, b: seq<Expense>)
    requires a != [] && multiset(a) == multiset(b)
    requires StrictlySorted(cfg, a) && StrictlySorted(cfg, b)
    ensures b != [] && a[0] == b[0]
  {
    assert a[0] in multiset(b) && a[0] in b;
    var j :| 0 <= j < |b| && b[j] == a[0];
    assert b[0] in multiset(a) && b[0] in a;
    var i :| 0 <= i < |a| && a[i] == b[0];
    assert Rank(cfg, a[0]) <= Rank(cfg, a[i]);
  }

  /** Dropping the head keeps a strict order. */
  lemma StrictTail(cfg: SortConfig, s: seq<Expense>)
    requires s != [] && StrictlySorted(cfg, s)
    ensures StrictlySorted(cfg, s[1..])
  {
    forall i, j | 0 <= i < j < |s| - 1
      ensures Rank(cfg, s[1..][i]) < Rank(cfg, s[1..][j])
    {
      assert s[1..][i] == s[i + 1] && s[1..][j] == s[j + 1];
    }
  }

  /** Equal multisets with equal heads have equal tails. */
  lemma MultisetTail<T>(x: seq<T>, y: seq<T>)
    requires x != [] && y != [] && x[0] == y[0] && multiset(x) == multiset(y)
    ensures multiset(x[1..]) == multiset(y[1..])
  {
    assert x == [x[0]] + x[1..] && y == [y[0]] + y[1..];
    calc {
      multiset(x[1..]);
      multiset([x[0]] + x[1..]) - multiset{x[0]};
      multiset(y) - multiset{y[0]};
      multiset([y[0]] + y[1..]) - multiset{y[0]};
      multiset(y[1..]);
    }
  }

  /** Two strictly ordered permutations of the same expenses are the same list. */
  lemma {:induction false} StrictlySortedUnique(cfg: SortConfig, a: seq<Expense>, b: seq<Expense>)
    requires multiset(a) == multiset(b)
    requires StrictlySorted(cfg, a) && StrictlySorted(cfg, b)
    ensures a == b
    decreases |a|
  {
    if a == [] {
      assert |multiset(b)| == 0;
    } else {
      SameHead(cfg, a, b);
      MultisetTail(a, b);
      StrictTail(cfg, a);
      StrictTail(cfg, b);
      StrictlySortedUnique(cfg, a[1..], b[1..]);
      assert a == [a[0]] + a[1..] && b == [b[0]] + b[1..];
    }
  }

  /** With pairwise different amounts, sorting descending is exactly the reverse of
      sorting ascending. */
  lemma DistinctAmountsReverse(s: seq<Expense>)
    requires forall i, j :: 0 <= i < |s| && 0 <= j < |s| && i != j ==> s[i].amount != s[j].amount
    ensures Sort(SortConfig(AmountKey, Desc), s) == Reverse(Sort(SortConfig(AmountKey, Asc), s))
  {
    var asc, desc := SortConfig(AmountKey, Asc), SortConfig(AmountKey, Desc);
    assert DistinctRanks(asc, s) && DistinctRanks(desc, s);
    SortStrict(asc, s);
    SortStrict(desc, s);
    SortIsOrderedPermutation(asc, s);
    SortIsOrderedPermutation(desc, s);
    var up := Sort(asc, s);
    ReverseFlips(up);
    StrictlySortedUnique(desc, Sort(desc, s), Reverse(up));
  }

  /** Reversing a list in strictly increasing amount order gives strictly decreasing order. */
  lemma ReverseFlips(s: seq<Expense>)
    requires StrictlySorted(SortConfig(AmountKey, Asc), s)
    ensures StrictlySorted(SortConfig(AmountKey, Desc), Reverse(s))
  {
    var r := Reverse(s);
    forall i, j | 0 <= i < j < |r|
      ensures Rank(SortConfig(AmountKey, Desc), r[i]) < Rank(SortConfig(AmountKey, Desc), r[j])
    {
      assert r[i] == s[|s| - 1 - i] && r[j] == s[|s| - 1 - j];
      assert Rank(SortConfig(AmountKey, Asc), s[|s| - 1 - j]) < Rank(SortConfig(AmountKey, Asc), s[|s| - 1 - i]);
    }
  }

  /** With a tie the two directions are not mirror images: a stable sort keeps
      tied expenses in input order both ways. */
  lemma TiesAreNotReversed(a: Expense, b: Expense)
    requires a != b && a.amount == b.amount
    ensures Sort(SortConfig(AmountKey, Desc), [a, b]) == [a, b]
    ensures Sort(SortConfig(AmountKey, Asc), [a, b]) == [a, b]
    ensures Reverse([a, b]) != [a, b]
  {
    TieKeepsOrder(SortConfig(AmountKey, Desc), a, b);
    TieKeepsOrder(SortConfig(AmountKey, Asc), a, b);
  }

  /** Two expenses of equal rank stay in input order. */
  lemma TieKeepsOrder(cfg: SortConfig, a: Expense, b: Expense)
    requires Rank(cfg, a) == Rank(cfg, b)
    ensures Sort(cfg, [a, b]) == [a, b]
  {
    assert [a, b][1..] == [b] && [b][1..] == [];
    assert Sort(cfg, [b]) == [b];
    assert Compare(cfg, a, b) == 0;
  }
}

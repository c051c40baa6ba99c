/** The grouping reduce both aggregations use: fold the expenses into a record
    keyed by some field, creating a key's entry the first time the key is seen,
    then read the record's values back in insertion order. */
module Grouping {
  import opened Seqs
  import opened Types

  /** One value of the record: a key, the sum of its amounts and how many expenses it has. */
  datatype Group<K> = Group(key: K, total: int, count: nat)

  /** The expenses whose key is `k`, in their original order. */
  function WithKey<K(==)>(es: seq<Expense>, key: Expense -> K, k: K): seq<Expense>
  {
    Filter(es, e => key(e) == k)
  }

  function GroupTotal<K>(g: Group<K>): int
  {
    g.total
  }

  function GroupCount<K>(g: Group<K>): int
  {
    g.count
  }

  /** No key has two entries. */
  predicate DistinctKeys<K(==)>(gs: seq<Group<K>>)
  {
    forall i, j :: 0 <= i < j < |gs| ==> gs[i].key != gs[j].key
  }

  /** Some entry has key `k`. */
  predicate HasKey<K(==)>(gs: seq<Group<K>>, k: K)
  {
    exists i :: 0 <= i < |gs| && gs[i].key == k
  }

  /** The position of `k`'s entry, or `|gs|` when there is none (`acc[k]` is undefined). */
  function Find<K(==)>(gs: seq<Group<K>>, k: K): (i: nat)
    ensures i <= |gs|
    ensures i < |gs| ==> gs[i].key == k
    ensures forall j :: 0 <= j < i ==> gs[j].key != k
    decreases |gs|
  {
    if gs == [] then 0 else if gs[0].key == k then 0 else 1 + Find(gs[1..], k)
  }

  /** One step of the reduce: an unseen key gets a fresh entry at the end
      holding this expense; a seen key's entry adds the amount and one to the count. */
  function Tally<K(==)>(gs: seq<Group<K>>, e: Expense, key: Expense -> K): seq<Group<K>>
  {
    var i := Find(gs, key(e));
    if i == |gs| then gs + [Group(key(e), e.amount, 1)]
    else gs[i := Group(key(e), gs[i].total + e.amount, gs[i].count + 1)]
  }

  /** The state of the reduce after all of `es`: one entry per key that occurs,
      counting and summing exactly that key's expenses. */
  ghost predicate Summarises<K(!new)>(gs: seq<Group<K>>, es: seq<Expense>, key: Expense -> K)
  {
    && DistinctKeys(gs)
    && (forall k :: HasKey(gs, k) <==> WithKey(es, key, k) != [])
    && (forall i :: 0 <= i < |gs| ==>
          gs[i].count == |WithKey(es, key, gs[i].key)| && gs[i].total == Total(WithKey(es, key, gs[i].key)))
    && Sum(gs, GroupCount) == |es|
    && Sum(gs, GroupTotal) == Total(es)
  }

  /** Appending one expense adds it to its own key's selection and to no other. */
  lemma WithKeySnoc<K(!new)>(es: seq<Expense>, e: Expense, key: Expense -> K, k: K)
    ensures WithKey(es + [e], key, k) == WithKey(es, key, k) + (if key(e) == k then [e] else [])
  {
    FilterConcat(es, [e], x => key(x) == k);
    assert [e][1..] == [];
  }

  /** The total of a list with one more expense at the end. */
  lemma TotalSnoc(es: seq<Expense>, e: Expense)
    ensures Total(es + [e]) == Total(es) + e.amount
  {
    assert (es + [e])[..|es + [e]| - 1] == es;
  }

  /** One reduce step keeps the keys distinct and present exactly for the keys that occur. */
  lemma {:induction false} TallyKeys<K(!new)>(gs: seq<Group<K>>, es: seq<Expense>, e: Expense, key: Expense -> K)
    requires DistinctKeys(gs)
    requires forall k :: HasKey(gs, k) <==> WithKey(es, key, k) != []
    ensures DistinctKeys(Tally(gs, e, key))
    ensures forall k :: HasKey(Tally(gs, e, key), k) <==> WithKey(es + [e], key, k) != []
  {
    var i, r := Find(gs, key(e)), Tally(gs, e, key);
    forall k ensures HasKey(r, k) <==> WithKey(es + [e], key, k) != [] {
      WithKeySnoc(es, e, key, k);
      if HasKey(gs, k) {
        var j :| 0 <= j < |gs| && gs[j].key == k;
        assert r[j].key == k;
      }
      if HasKey(r, k) {
        var j :| 0 <= j < |r| && r[j].key == k;
        assert j < |gs| ==> gs[j].key == k;
      }
      if k == key(e) {
        assert r[i].key == k;
      }
    }
  }

  /** One reduce step keeps every entry's count and total exact. */
  lemma {:induction false} TallyEntries<K(!new)>(gs: seq<Group<K>>, es: seq<Expense>, e: Expense, key: Expense -> K)
    requires DistinctKeys(gs)
    requires forall k :: HasKey(gs, k) <==> WithKey(es, key, k) != []
    requires forall i :: 0 <= i < |gs| ==>
      gs[i].count == |WithKey(es, key, gs[i].key)| && gs[i].total == Total(WithKey(es, key, gs[i].key))
    ensures var r := Tally(gs, e, key);
      forall i :: 0 <= i < |r| ==>
        r[i].count == |WithKey(es + [e], key, r[i].key)| && r[i].total == Total(WithKey(es + [e], key, r[i].key))
  {
    var k, n := key(e), Find(gs, key(e));
    var r := Tally(gs, e, key);
    forall i | 0 <= i < |r|
      ensures r[i].count == |WithKey(es + [e], key, r[i].key)| && r[i].total == Total(WithKey(es + [e], key, r[i].key))
    {
      WithKeySnoc(es, e, key, r[i].key);
      if i == n {
        TotalSnoc(WithKey(es, key, k), e);
        if n == |gs| {
          assert !HasKey(gs, k);
          assert WithKey(es, key, k) == [];
        }
      } else {
        assert r[i] == gs[i] && gs[i].key != k;
        assert WithKey(es + [e], key, r[i].key) == WithKey(es, key, r[i].key);
      }
    }
  }

  /** One reduce step adds one to the sum of the counts and the amount to the sum of the totals. */
  lemma {:induction false} TallySums<K>(gs: seq<Group<K>>, e: Expense, key: Expense -> K)
    ensures Sum(Tally(gs, e, key), GroupCount) == Sum(gs, GroupCount) + 1
    ensures Sum(Tally(gs, e, key), GroupTotal) == Sum(gs, GroupTotal) + e.amount
  {
    var i, r := Find(gs, key(e)), Tally(gs, e, key);
    if i == |gs| {
      assert r[..|r| - 1] == gs;
    } else {
      SumUpdate(gs, i, r[i], GroupCount);
      SumUpdate(gs, i, r[i], GroupTotal);
    }
  }

  /** `Object.values(es.reduce(Tally, {}))`: a summary of `es` with one entry
      per key that occurs, in the order the keys first occur. */
  function GroupBy<K(==)>(es: seq<Expense>, key: Expense -> K): (gs: seq<Group<K>>)
    ensures |gs| <= |es|
    ensures gs == [] <==> es == []
    decreases |es|
  {
    if es == [] then []
    else Tally(GroupBy(es[..|es| - 1], key), es[|es| - 1], key)
  }

  /** The reduce summarises what it folded: one entry per key that occurs,
      counting and summing exactly that key's expenses. */
  lemma {:induction false} GroupBySummarises<K(!new)>(es: seq<Expense>, key: Expense -> K)
    ensures Summarises(GroupBy(es, key), es, key)
    decreases |es|
  {
    if es != [] {
      var init, e := es[..|es| - 1], es[|es| - 1];
      var gs := GroupBy(init, key);
      GroupBySummarises(init, key);
      assert es == init + [e];
      TallyKeys(gs, init, e, key);
      TallyEntries(gs, init, e, key);
      TallySums(gs, e, key);
      TotalSnoc(init, e);
    }
  }

  /** The reduce takes one more expense by one more `Tally` step. */
  lemma GroupBySnoc<K(!new)>(es: seq<Expense>, e: Expense, key: Expense -> K)
    ensures GroupBy(es + [e], key) == Tally(GroupBy(es, key), e, key)
  {
    assert (es + [e])[..|es|] == es;
  }

  /** The position of the first expense whose key is `k`, or `|es|` when none has it. */
  function FirstAt<K(==)>(es: seq<Expense>, key: Expense -> K, k: K): (i: nat)
    ensures i <= |es|
    ensures i < |es| ==> key(es[i]) == k
    ensures forall j :: 0 <= j < i ==> key(es[j]) != k
    decreases |es|
  {
    if es == [] then 0 else if key(es[0]) == k then 0 else 1 + FirstAt(es[1..], key, k)
  }

  /** A key that already occurs first occurs at the same place after one more expense. */
  lemma FirstAtSnocSeen<K(!new)>(es: seq<Expense>, e: Expense, key: Expense -> K, k: K)
    requires FirstAt(es, key, k) < |es|
    ensures FirstAt(es + [e], key, k) == FirstAt(es, key, k)
  {
    var i := FirstAt(es, key, k);
    assert (es + [e])[i] == es[i];
  }

  /** A key that does not occur yet first occurs at the expense that brings it. */
  lemma FirstAtSnocNew<K(!new)>(es: seq<Expense>, e: Expense, key: Expense -> K)
    requires forall j :: 0 <= j < |es| ==> key(es[j]) != key(e)
    ensures FirstAt(es + [e], key, key(e)) == |es|
  {
    assert (es + [e])[|es|] == e;
  }

  /** No expense of a list whose selection for `k` is empty has key `k`. */
  lemma WithKeyEmpty<K(!new)>(es: seq<Expense>, key: Expense -> K, k: K)
    requires WithKey(es, key, k) == []
    ensures forall j :: 0 <= j < |es| ==> key(es[j]) != k
  {
    forall j | 0 <= j < |es| ensures key(es[j]) != k {
      FilterContents(es, x => key(x) == k);
      assert es[j] !in WithKey(es, key, k);
    }
  }

  /** Every key occurs among the expenses, and the keys stand in the order of
      their first occurrences. */
  ghost predicate FirstOccurrenceOrder<K>(gs: seq<Group<K>>, es: seq<Expense>, key: Expense -> K)
  {
    && (forall i :: 0 <= i < |gs| ==> FirstAt(es, key, gs[i].key) < |es|)
    && (forall i, j :: 0 <= i < j < |gs| ==> FirstAt(es, key, gs[i].key) < FirstAt(es, key, gs[j].key))
  }

  /** One reduce step keeps the keys in first-occurrence order: a seen key stays
      where it is, and an unseen key goes last, where its first occurrence is. */
  lemma TallyKeepsOrder<K(!new)>(gs: seq<Group<K>>, es: seq<Expense>, e: Expense, key: Expense -> K)
    requires FirstOccurrenceOrder(gs, es, key)
    requires Find(gs, key(e)) == |gs| ==> WithKey(es, key, key(e)) == []
    ensures FirstOccurrenceOrder(Tally(gs, e, key), es + [e], key)
  {
    var r := Tally(gs, e, key);
    forall i | 0 <= i < |gs|
      ensures FirstAt(es + [e], key, gs[i].key) == FirstAt(es, key, gs[i].key)
    {
      FirstAtSnocSeen(es, e, key, gs[i].key);
    }
    assert forall i :: 0 <= i < |gs| ==> r[i].key == gs[i].key;
    if Find(gs, key(e)) == |gs| {
      WithKeyEmpty(es, key, key(e));
      FirstAtSnocNew(es, e, key);
    }
  }

  /** The reduce lists the keys in the order they first occur among the expenses. */
  lemma {:induction false} GroupByFirstOccurrence<K(!new)>(es: seq<Expense>, key: Expense -> K)
    ensures FirstOccurrenceOrder(GroupBy(es, key), es, key)
    decreases |es|
  {
    if es != [] {
      var init, e := es[..|es| - 1], es[|es| - 1];
      assert es == init + [e];
      GroupByFirstOccurrence(init, key);
      GroupBySummarises(init, key);
      var gs0 := GroupBy(init, key);
      if Find(gs0, key(e)) == |gs0| {
        assert !HasKey(gs0, key(e));
      }
      TallyKeepsOrder(gs0, init, e, key);
    }
  }
}

/** The expense cache of the expense context: the expenses of the active
    profile. Store calls are inputs (`Reply`), so each handler is a pure
    transition on the cached list. */
module ExpenseStore {
  import opened Replies
  import opened Seqs
  import opened Types
  import ExpenseService

  datatype State = State(expenses: seq<Expense>, isLoading: bool)

  /** The state after a handler, and whether it returned or rethrew the store's error. */
  datatype Step = Step(state: State, outcome: Result<(), string>)

  /** The state the provider mounts with. */
  const Initial := State([], true)

  /** `activeProfile?.id`, read with JavaScript truthiness: no active profile, no
      id and an empty id all count as "no active profile". */
  predicate HasActiveId(active: Option<Profile>)
  {
    active.Some? && Present(active.value.id)
  }

  /** The active profile's id, once it is known to be there. */
  function ActiveId(active: Option<Profile>): string
    requires HasActiveId(active)
  {
    active.value.id.value
  }

  /** The cache shows one profile's expenses: every cached expense belongs to `pid`. */
  predicate OwnedBy(es: seq<Expense>, pid: string)
  {
    forall i :: 0 <= i < |es| ==> es[i].profileId == pid
  }

  /** `expense.id === id`. */
  predicate HasId(e: Expense, id: string)
  {
    e.id == Some(id)
  }

  /** `expenses.filter(e => e.id !== id)`. */
  function WithoutId(es: seq<Expense>, id: string): seq<Expense>
  {
    Filter(es, e => !HasId(e, id))
  }

  /** The `loadExpenses` effect once `getExpenses` has answered. Without an active
      id the list is emptied; a successful fetch replaces it; a failed one is only
      logged, so the previous list stays. Loading has ended in every case. */
  function Load(st: State, active: Option<Profile>, fetched: Reply<seq<Expense>>): (r: State)
    ensures !r.isLoading
    ensures !HasActiveId(active) ==> r.expenses == []
    ensures HasActiveId(active) && fetched.Done? ==> r.expenses == fetched.value
    ensures HasActiveId(active) && fetched.Failed? ==> r.expenses == st.expenses
  {
    if !HasActiveId(active) then State([], false)
    else
      match fetched
      case Done(es) => State(es, false)
      case Failed(_) => State(st.expenses, false)
  }

  /** The expense the cache prepends after `createExpense` answered with `id`.
      The two timestamps are two separate readings of the clock, `createdAt`
      first, so they need not agree. */
  function NewExpense(profileId: string, input: ExpenseInput, id: string, createdNow: Time, updatedNow: Time)
    : (e: Expense)
    ensures e.id == Some(id) && e.profileId == profileId
    ensures e.createdAt == Some(createdNow) && e.updatedAt == Some(updatedNow)
    ensures e.amount == input.amount && e.date == input.date && e.paymentMethod == input.paymentMethod
    ensures e.category == input.category && e.description == input.description
  {
    Expense(Some(id), profileId, input.amount, input.description, input.category, input.date, input.paymentMethod,
            Some(createdNow), Some(updatedNow))
  }

  /** `handleAddExpense(input)`, where `created` is `createExpense`'s answer and
      `createdNow`, `updatedNow` the two clock readings. Without an active id it
      returns quietly and changes nothing; on success exactly one expense, carrying
      the new id and the active profile's id, goes in front of the unchanged list;
      on failure the list stays and the error is rethrown. */
  function Add(st: State, active: Option<Profile>, input: ExpenseInput, created: Reply<string>,
               createdNow: Time, updatedNow: Time): (r: Step)
    ensures !HasActiveId(active) ==> r == Step(st, Ok(()))
    ensures HasActiveId(active) && created.Failed? ==> r == Step(st, Err(created.message))
    ensures HasActiveId(active) && created.Done? ==>
      && r.outcome == Ok(())
      && r.state.isLoading == st.isLoading
      && |r.state.expenses| == |st.expenses| + 1
      && r.state.expenses[1..] == st.expenses
      && r.state.expenses[0].id == Some(created.value)
      && r.state.expenses[0].profileId == ActiveId(active)
      && r.state.expenses[0] == NewExpense(ActiveId(active), input, created.value, createdNow, updatedNow)
  {
    if !HasActiveId(active) then Step(st, Ok(()))
    else
      match created
      case Failed(msg) => Step(st, Err(msg))
      case Done(id) =>
        Step(st.(expenses := [NewExpense(ActiveId(active), input, id, createdNow, updatedNow)] + st.expenses), Ok(()))
  }

  /** `expenses.map(e => e.id === id ? { ...e, ...data, updatedAt: now } : e)`. */
  function UpdateEntries(es: seq<Expense>, id: string, u: ExpenseUpdate, now: Time): (r: seq<Expense>)
    ensures |r| == |es|
    ensures forall i :: 0 <= i < |es| ==> r[i] == if HasId(es[i], id) then MergeExpense(es[i], u, now) else es[i]
  {
    seq(|es|, i requires 0 <= i < |es| => if HasId(es[i], id) then MergeExpense(es[i], u, now) else es[i])
  }

  /** `handleUpdateExpense(id, data)`, where `ack` is `updateExpense`'s answer. On
      success the entries with that id are merged and stamped with `now`, the
      others are untouched, and length and order are kept. */
  function Update(st: State, id: string, u: ExpenseUpdate, ack: Reply<()>, now: Time): (r: Step)
    ensures ack.Failed? ==> r == Step(st, Err(ack.message))
    ensures ack.Done? ==>
      && r.outcome == Ok(())
      && r.state.isLoading == st.isLoading
      && |r.state.expenses| == |st.expenses|
      && (forall i :: 0 <= i < |st.expenses| && !HasId(st.expenses[i], id) ==> r.state.expenses[i] == st.expenses[i])
      && (forall i :: 0 <= i < |st.expenses| && HasId(st.expenses[i], id) ==>
            r.state.expenses[i] == MergeExpense(st.expenses[i], u, now))
  {
    match ack
    case Failed(msg) => Step(st, Err(msg))
    case Done(_) => Step(st.(expenses := UpdateEntries(st.expenses, id, u, now)), Ok(()))
  }

  /** `handleDeleteExpense(id)`, where `ack` is `deleteExpense`'s answer. On
      success exactly the entries with that id go and every other occurrence stays. */
  function Delete(st: State, id: string, ack: Reply<()>): (r: Step)
    ensures ack.Failed? ==> r == Step(st, Err(ack.message))
    ensures ack.Done? ==>
      && r.outcome == Ok(())
      && r.state.isLoading == st.isLoading
      && r.state.expenses == WithoutId(st.expenses, id)
      && (forall e :: e in r.state.expenses <==> e in st.expenses && !HasId(e, id))
      && (forall e :: !HasId(e, id) ==> multiset(r.state.expenses)[e] == multiset(st.expenses)[e])
  {
    match ack
    case Failed(msg) => Step(st, Err(msg))
    case Done(_) =>
      FilterContents(st.expenses, e => !HasId(e, id));
      Step(st.(expenses := WithoutId(st.expenses, id)), Ok(()))
  }

  /** Deleting keeps the survivors' relative order: it distributes over concatenation. */
  lemma DeleteKeepsOrder(a: seq<Expense>, b: seq<Expense>, id: string)
    ensures WithoutId(a + b, id) == WithoutId(a, id) + WithoutId(b, id)
  {
    FilterConcat(a, b, e => !HasId(e, id));
  }

  /** Deleting an id that no cached expense carries leaves the list as it is. */
  lemma DeleteAbsentIsIdentity(st: State, id: string)
    requires forall i :: 0 <= i < |st.expenses| ==> !HasId(st.expenses[i], id)
    ensures Delete(st, id, Done(())).state == st
  {
    FilterAll(st.expenses, e => !HasId(e, id));
  }

  /** An update that carries neither `id` nor `profileId` keeps every cached
      expense under its owner and its identity. */
  lemma UpdateKeepsOwners(st: State, id: string, u: ExpenseUpdate, now: Time)
    requires u.id.None? && u.profileId.None?
    ensures var r := Update(st, id, u, Done(()), now).state;
      forall i :: 0 <= i < |st.expenses| ==>
        r.expenses[i].profileId == st.expenses[i].profileId && r.expenses[i].id == st.expenses[i].id
  {
  }

  /** An empty update only refreshes `updatedAt` on the matching entries. */
  lemma EmptyUpdateOnlyStamps(st: State, id: string, now: Time)
    ensures var r := Update(st, id, NoExpenseChange, Done(()), now).state;
      forall i :: 0 <= i < |st.expenses| ==>
        r.expenses[i] == if HasId(st.expenses[i], id) then st.expenses[i].(updatedAt := Some(now)) else st.expenses[i]
  {
  }

  /** Because the update accepts a whole `Partial<Expense>`, the cache lets an
      update move an expense to another profile, which the data model forbids. */
  lemma UpdateCanMoveExpense(e: Expense, now: Time)
    requires e.id == Some("x") && e.profileId == "p1"
    ensures Update(State([e], false), "x", NoExpenseChange.(profileId := Some("p2")), Done(()), now)
      .state.expenses[0].profileId == "p2"
  {
  }

  /** A successful load fills the cache with the active profile's expenses only:
      the fetch asks the repository for exactly that profile's documents. */
  lemma LoadEstablishesOwnership(st: State, active: Option<Profile>, db: Reply<seq<Expense>>)
    requires HasActiveId(active) && db.Done?
    ensures var fetched := ExpenseService.GetExpenses(db, ActiveId(active), None, None);
      OwnedBy(Load(st, active, fetched).expenses, ActiveId(active))
  {
    var fetched := ExpenseService.GetExpenses(db, ActiveId(active), None, None);
    forall i | 0 <= i < |fetched.value| ensures fetched.value[i].profileId == ActiveId(active) {
      assert fetched.value[i] in fetched.value;
    }
  }

  /** A failed load keeps whatever the cache held. From the mounted state that is
      nothing; after a switch of the active profile it is the previous profile's
      expenses, which the cache then shows under the new one. */
  lemma FailedLoadKeepsStaleList(e: Expense, active: Option<Profile>, msg: string)
    requires HasActiveId(active) && e.profileId != ActiveId(active)
    ensures OwnedBy(Load(Initial, active, Failed(msg)).expenses, ActiveId(active))
    ensures !OwnedBy(Load(State([e], false), active, Failed(msg)).expenses, ActiveId(active))
  {
    assert Load(State([e], false), active, Failed(msg)).expenses[0] == e;
  }

  /** Adding keeps the cache owned by the active profile: the new expense is
      stamped with the active id. */
  lemma AddPreservesOwnership(st: State, active: Option<Profile>, input: ExpenseInput, created: Reply<string>,
                              createdNow: Time, updatedNow: Time)
    requires HasActiveId(active) && OwnedBy(st.expenses, ActiveId(active))
    ensures OwnedBy(Add(st, active, input, created, createdNow, updatedNow).state.expenses, ActiveId(active))
  {
    var r := Add(st, active, input, created, createdNow, updatedNow).state.expenses;
    if created.Done? {
      forall i | 0 <= i < |r| ensures r[i].profileId == ActiveId(active) {
        if i > 0 { assert r[i] == st.expenses[i - 1]; }
      }
    }
  }

  /** Deleting keeps the cache owned by whichever profile owned it. */
  lemma DeletePreservesOwnership(st: State, id: string, ack: Reply<()>, pid: string)
    requires OwnedBy(st.expenses, pid)
    ensures OwnedBy(Delete(st, id, ack).state.expenses, pid)
  {
    var r := Delete(st, id, ack).state.expenses;
    forall i | 0 <= i < |r| ensures r[i].profileId == pid {
      assert r[i] in st.expenses;
    }
  }

  /** An update keeps the cache owned by `pid` exactly when it carries no other
      owner, or when no cached expense has the updated id. */
  lemma UpdatePreservesOwnershipIff(st: State, id: string, u: ExpenseUpdate, ack: Reply<()>, now: Time, pid: string)
    requires OwnedBy(st.expenses, pid)
    ensures OwnedBy(Update(st, id, u, ack, now).state.expenses, pid)
        <==> ack.Failed? || u.profileId.None? || u.profileId == Some(pid)
             || forall i :: 0 <= i < |st.expenses| ==> !HasId(st.expenses[i], id)
  {
    var r := Update(st, id, u, ack, now).state.expenses;
    if ack.Done? && u.profileId.Some? && u.profileId != Some(pid) {
      if k :| 0 <= k < |st.expenses| && HasId(st.expenses[k], id) {
        assert r[k].profileId == u.profileId.value;
      }
    }
  }
}

/** The profile cache of the profile context: the signed-in user's profiles,
    the active profile, and the last error. Every store call is an input
    (`Reply`), so each handler is a pure transition from one state to the next. */
module ProfileStore {
  import opened Replies
  import opened Seqs
  import opened Types

  datatype State = State(
    profiles: seq<Profile>,
    active: Option<Profile>,
    isLoading: bool,
    error: Option<string>)

  /** What a handler throws to its caller. */
  datatype Failure = NotSignedIn | ServiceFailed(message: string)

  /** The state after a handler, and what it returned or threw. */
  datatype Step<+T> = Step(state: State, outcome: Result<T, Failure>)

  /** The state the provider mounts with. */
  const Initial := State([], None, true, None)

  /** `profile.id === profileId`: a profile without an id matches no id. */
  predicate HasId(p: Profile, id: string)
  {
    p.id == Some(id)
  }

  /** `activeProfile?.id === profileId`. */
  predicate IsActive(st: State, id: string)
  {
    st.active.Some? && HasId(st.active.value, id)
  }

  /** `profiles.filter(p => p.id !== profileId)`. */
  function WithoutId(ps: seq<Profile>, id: string): seq<Profile>
  {
    Filter(ps, p => !HasId(p, id))
  }

  /** The coherence invariant: an active profile is one of the cached entries. */
  predicate Coherent(st: State)
  {
    st.active.None? || st.active.value in st.profiles
  }

  /** `loadProfiles(userId)` once `getProfiles` has answered. A successful load
      replaces the list and makes its first profile active only when none was;
      a failed one empties the list and records the error. Either way loading ends. */
  function Load(st: State, fetched: Reply<seq<Profile>>): (r: State)
    ensures !r.isLoading
    ensures fetched.Done? ==> r.profiles == fetched.value && r.error.None?
    ensures fetched.Done? && st.active.Some? ==> r.active == st.active
    ensures fetched.Done? && st.active.None? ==>
      (r.active.Some? <==> |fetched.value| > 0) && (r.active.Some? ==> r.active.value == fetched.value[0])
    ensures fetched.Failed? ==> r.profiles == [] && r.error == Some(fetched.message) && r.active == st.active
  {
    match fetched
    case Done(ps) =>
      State(ps, if |ps| > 0 && st.active.None? then Some(ps[0]) else st.active, false, None)
    case Failed(msg) =>
      State([], st.active, false, Some(msg))
  }

  /** The effect on the signed-in user: with a user id it loads that user's
      profiles; without one it empties the list and stops loading, but keeps the
      active profile and the error. */
  function SessionChanged(st: State, uid: Option<string>, fetched: Reply<seq<Profile>>): (r: State)
    ensures Present(uid) ==> r == Load(st, fetched)
    ensures !Present(uid) ==> r.profiles == [] && !r.isLoading && r.active == st.active && r.error == st.error
  {
    if Present(uid) then Load(st, fetched) else st.(profiles := [], isLoading := false)
  }

  /** `refreshProfiles`: reloads for a signed-in user, does nothing otherwise. */
  function Refresh(st: State, uid: Option<string>, fetched: Reply<seq<Profile>>): (r: State)
    ensures Present(uid) ==> r == Load(st, fetched)
    ensures !Present(uid) ==> r == st
  {
    if Present(uid) then Load(st, fetched) else st
  }

  /** `setActiveProfile`, exposed to views as is. */
  function SetActive(st: State, p: Option<Profile>): (r: State)
    ensures r.active == p
    ensures r.profiles == st.profiles && r.error == st.error && r.isLoading == st.isLoading
  {
    st.(active := p)
  }

  /** `handleAddProfile(input)`, where `created` is what `createProfile` answered.
      Without a user it throws before touching anything. Otherwise the new
      profile carries the store's id and the user's id, is appended at the end, and
      becomes active exactly when the list was empty before the call. */
  function Add(st: State, uid: Option<string>, input: ProfileInput, created: Reply<string>): (r: Step<Profile>)
    ensures !Present(uid) ==> r == Step(st, Err(NotSignedIn))
    ensures Present(uid) && created.Failed? ==>
      r.state == st.(error := Some(created.message)) && r.outcome == Err(ServiceFailed(created.message))
    ensures Present(uid) && created.Done? ==>
      && r.outcome.Ok?
      && r.outcome.value == Profile(Some(created.value), input.name, input.profileType, input.currency, uid.value, None, None)
      && r.state.profiles == st.profiles + [r.outcome.value]
      && r.state.error.None?
      && r.state.isLoading == st.isLoading
      && (st.profiles == [] ==> r.state.active == Some(r.outcome.value))
      && (st.profiles != [] ==> r.state.active == st.active)
  {
    if !Present(uid) then Step(st, Err(NotSignedIn))
    else
      match created
      case Failed(msg) => Step(st.(error := Some(msg)), Err(ServiceFailed(msg)))
      case Done(id) =>
        var p := Profile(Some(id), input.name, input.profileType, input.currency, uid.value, None, None);
        Step(State(st.profiles + [p], if |st.profiles| == 0 then Some(p) else st.active, st.isLoading, None), Ok(p))
  }

  /** `profiles.map(p => p.id === id ? { ...p, ...updates } : p)`. */
  function UpdateEntries(ps: seq<Profile>, id: string, u: ProfileUpdate): (r: seq<Profile>)
    ensures |r| == |ps|
    ensures forall i :: 0 <= i < |ps| ==> r[i] == if HasId(ps[i], id) then MergeProfile(ps[i], u) else ps[i]
  {
    seq(|ps|, i requires 0 <= i < |ps| => if HasId(ps[i], id) then MergeProfile(ps[i], u) else ps[i])
  }

  /** `handleUpdateProfile(id, updates)`, where `ack` is `updateProfile`'s answer.
      On success only the entries with that id are merged, and the active
      profile gets the same merge when it is the one updated. On failure the
      list and the active profile stay as they were and the error is recorded. */
  function Update(st: State, id: string, u: ProfileUpdate, ack: Reply<()>): (r: Step<()>)
    ensures ack.Failed? ==>
      r.state == st.(error := Some(ack.message)) && r.outcome == Err(ServiceFailed(ack.message))
    ensures ack.Done? ==>
      && r.outcome == Ok(())
      && r.state.error.None?
      && r.state.isLoading == st.isLoading
      && |r.state.profiles| == |st.profiles|
      && (forall i :: 0 <= i < |st.profiles| && !HasId(st.profiles[i], id) ==> r.state.profiles[i] == st.profiles[i])
      && (forall i :: 0 <= i < |st.profiles| && HasId(st.profiles[i], id) ==>
            r.state.profiles[i] == MergeProfile(st.profiles[i], u))
      && (IsActive(st, id) ==> r.state.active == Some(MergeProfile(st.active.value, u)))
      && (!IsActive(st, id) ==> r.state.active == st.active)
  {
    match ack
    case Failed(msg) => Step(st.(error := Some(msg)), Err(ServiceFailed(msg)))
    case Done(_) =>
      var active := if IsActive(st, id) then Some(MergeProfile(st.active.value, u)) else st.active;
      Step(State(UpdateEntries(st.profiles, id, u), active, st.isLoading, None), Ok(()))
  }

  /** `handleDeleteProfile(id)`, where `ack` is `deleteProfile`'s answer. On
      success every entry with that id goes; when the active profile was the one
      deleted, the first remaining profile (or none) takes its place. On failure
      only the error changes. */
  function Delete(st: State, id: string, ack: Reply<()>): (r: Step<()>)
    ensures ack.Failed? ==>
      r.state == st.(error := Some(ack.message)) && r.outcome == Err(ServiceFailed(ack.message))
    ensures ack.Done? ==>
      && r.outcome == Ok(())
      && r.state.error.None?
      && r.state.isLoading == st.isLoading
      && r.state.profiles == WithoutId(st.profiles, id)
      && (forall p :: p in r.state.profiles <==> p in st.profiles && !HasId(p, id))
      && (forall p :: !HasId(p, id) ==> multiset(r.state.profiles)[p] == multiset(st.profiles)[p])
      && (IsActive(st, id) && r.state.profiles != [] ==> r.state.active == Some(r.state.profiles[0]))
      && (IsActive(st, id) && r.state.profiles == [] ==> r.state.active.None?)
      && (!IsActive(st, id) ==> r.state.active == st.active)
  {
    match ack
    case Failed(msg) => Step(st.(error := Some(msg)), Err(ServiceFailed(msg)))
    case Done(_) =>
      var remaining := WithoutId(st.profiles, id);
      FilterContents(st.profiles, p => !HasId(p, id));
      var active := if IsActive(st, id) then (if |remaining| > 0 then Some(remaining[0]) else None) else st.active;
      Step(State(remaining, active, st.isLoading, None), Ok(()))
  }

  /** Deleting keeps the survivors in their original order: the deletion of a
      concatenation is the concatenation of the deletions. */
  lemma DeleteKeepsOrder(a: seq<Profile>, b: seq<Profile>, id: string)
    ensures WithoutId(a + b, id) == WithoutId(a, id) + WithoutId(b, id)
  {
    FilterConcat(a, b, p => !HasId(p, id));
  }

  /** Adding, updating and deleting keep the active profile among the cached
      entries, whether the store call succeeds or fails. */
  lemma MutationsPreserveCoherence(
    st: State, uid: Option<string>, input: ProfileInput, created: Reply<string>,
    id: string, u: ProfileUpdate, ack: Reply<()>)
    requires Coherent(st)
    ensures Coherent(Add(st, uid, input, created).state)
    ensures Coherent(Update(st, id, u, ack).state)
    ensures Coherent(Delete(st, id, ack).state)
  {
    if ack.Done? && st.active.Some? {
      var a := st.active.value;
      var k :| 0 <= k < |st.profiles| && st.profiles[k] == a;
      assert Update(st, id, u, ack).state.profiles[k] == Update(st, id, u, ack).state.active.value;
      if !IsActive(st, id) {
        assert multiset(st.profiles)[a] > 0;
        assert a in Delete(st, id, ack).state.profiles;
      }
    }
  }

  /** A reload does not keep that invariant: when the active profile is not
      among the fetched profiles (for example after a failed load emptied the
      list), the stale active profile survives the reload. */
  lemma LoadMayBreakCoherence(a: Profile, b: Profile)
    requires a != b
    ensures Coherent(State([a], Some(a), false, None))
    ensures !Coherent(Load(State([a], Some(a), false, None), Done([b])))
    ensures !Coherent(Load(State([a], Some(a), false, None), Failed("offline")))
  {
  }

  /** The first sign-in after mounting loads the user's profiles and makes the
      first one active, so the cache starts coherent. */
  lemma FirstSignInSelectsFirst(uid: Option<string>, ps: seq<Profile>)
    requires Present(uid) && ps != []
    ensures var r := SessionChanged(Initial, uid, Done(ps));
      r.active == Some(ps[0]) && r.profiles == ps && !r.isLoading && Coherent(r)
  {
  }

  /** `loadProfiles` depends on the active profile, so the session effect runs
      again whenever the active profile changes while a user is signed in. That
      reload never overrides an active profile that is set. */
  lemma ReloadKeepsChosenProfile(st: State, p: Profile, uid: Option<string>, fetched: Reply<seq<Profile>>)
    requires Present(uid)
    ensures SessionChanged(SetActive(st, Some(p)), uid, fetched).active == Some(p)
  {
  }

  /** An example: with `[A, B, C]` cached and `A` active, deleting `A` makes `B` active. */
  lemma DeleteActiveSelectsNext(a: Profile, b: Profile, c: Profile, id: string)
    requires HasId(a, id) && !HasId(b, id) && !HasId(c, id)
    ensures Delete(State([a, b, c], Some(a), false, None), id, Done(())).state.active == Some(b)
  {
    assert [a, b, c][1..] == [b, c] && [b, c][1..] == [c] && [c][1..] == [];
    assert Filter([c], p => !HasId(p, id)) == [c];
    assert Filter([b, c], p => !HasId(p, id)) == [b, c];
    assert WithoutId([a, b, c], id) == [b, c];
  }
}

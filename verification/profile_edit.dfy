/** The profile edit dialog: the form schema that guards submission, the form's
    starting values, and the update the dialog sends to the profile context. */
module ProfileEdit {
  import opened Replies
  import opened Types
  import ProfileStore

  /** The characters `String.prototype.trim` removes: white space and line terminators. */
  predicate IsSpace(c: char)
  {
    || ('\U{9}' <= c <= '\U{D}')
    || c == ' ' || c == '\U{A0}' || c == '\U{1680}'
    || ('\U{2000}' <= c <= '\U{200A}')
    || c == '\U{2028}' || c == '\U{2029}' || c == '\U{202F}' || c == '\U{205F}'
    || c == '\U{3000}' || c == '\U{FEFF}'
  }

  predicate AllSpace(s: string)
  {
    forall i :: 0 <= i < |s| ==> IsSpace(s[i])
  }

  /** Drops the leading white space: the result is a suffix that starts with a
      visible character (or is empty), and only white space was dropped. */
  function TrimStart(s: string): (r: string)
    ensures |r| <= |s| && r == s[|s| - |r|..]
    ensures forall i :: 0 <= i < |s| - |r| ==> IsSpace(s[i])
    ensures r != [] ==> !IsSpace(r[0])
  {
    if s == [] then []
    else if IsSpace(s[0]) then TrimStart(s[1..])
    else s
  }

  /** Drops the trailing white space: the result is a prefix that ends with a
      visible character (or is empty), and only white space was dropped. */
  function TrimEnd(s: string): (r: string)
    ensures |r| <= |s| && r == s[..|r|]
    ensures forall i :: |r| <= i < |s| ==> IsSpace(s[i])
    ensures r != [] ==> !IsSpace(r[|r| - 1])
  {
    if s == [] then []
    else if IsSpace(s[|s| - 1]) then TrimEnd(s[..|s| - 1])
    else s
  }

  /** `s.trim()`: empty exactly when `s` is all white space; otherwise it starts
      and ends with a visible character. */
  function Trim(s: string): (r: string)
    ensures |r| <= |s|
    ensures r == [] <==> AllSpace(s)
    ensures r != [] ==> !IsSpace(r[0]) && !IsSpace(r[|r| - 1])
  {
    var t := TrimStart(s);
    var r := TrimEnd(t);
    r
  }

  /** Leading white space is dropped up to the first visible character. */
  lemma {:induction false} TrimStartPadded(pre: string, rest: string)
    requires AllSpace(pre)
    requires rest == [] || !IsSpace(rest[0])
    ensures TrimStart(pre + rest) == rest
    decreases |pre|
  {
    if pre == [] {
      assert pre + rest == rest;
    } else {
      assert (pre + rest)[0] == pre[0];
      assert (pre + rest)[1..] == pre[1..] + rest;
      TrimStartPadded(pre[1..], rest);
    }
  }

  /** Trailing white space is dropped back to the last visible character. */
  lemma {:induction false} TrimEndPadded(body: string, post: string)
    requires AllSpace(post)
    requires body == [] || !IsSpace(body[|body| - 1])
    ensures TrimEnd(body + post) == body
    decreases |post|
  {
    if post == [] {
      assert body + post == body;
    } else {
      var s := body + post;
      assert s[|s| - 1] == post[|post| - 1];
      assert s[..|s| - 1] == body + post[..|post| - 1];
      TrimEndPadded(body, post[..|post| - 1]);
    }
  }

  /** `trim` is characterised by what it keeps: surrounding a text that starts and
      ends visibly with any white space, and trimming, gives the text back. */
  lemma TrimPadded(pre: string, core: string, post: string)
    requires AllSpace(pre) && AllSpace(post)
    requires core == [] || (!IsSpace(core[0]) && !IsSpace(core[|core| - 1]))
    ensures Trim(pre + core + post) == core
  {
    if core == [] {
      assert AllSpace(pre + core + post) by {
        forall i | 0 <= i < |pre + core + post| ensures IsSpace((pre + core + post)[i]) {
          if i < |pre| { assert (pre + core + post)[i] == pre[i]; }
          else { assert (pre + core + post)[i] == post[i - |pre|]; }
        }
      }
    } else {
      assert pre + core + post == pre + (core + post);
      assert (core + post)[0] == core[0];
      TrimStartPadded(pre, core + post);
      TrimEndPadded(core, post);
    }
  }

  /** Trimming twice is trimming once. */
  lemma TrimIdempotent(s: string)
    ensures Trim(Trim(s)) == Trim(s)
  {
    var r := Trim(s);
    assert [] + r + [] == r;
    TrimPadded([], r, []);
  }

  /** The three form fields as the inputs hold them. */
  datatype FormInput = FormInput(name: string, profileType: string, currency: string)

  /** The fields once the schema has accepted them. */
  datatype FormData = FormData(name: string, profileType: ProfileType, currency: string)

  /** The schema's messages: "Name is required", an invalid enum value, "Currency is required". */
  datatype FieldError = NameRequired | InvalidType | CurrencyRequired

  /** `formSchema`: a non-empty name, one of the three type literals and a
      non-empty currency. Every failing field is reported, in field order; the
      name is accepted as typed, so white space alone counts as a name. */
  function Validate(input: FormInput): (r: Result<FormData, seq<FieldError>>)
    ensures r.Ok? <==> |input.name| >= 1 && ParseProfileType(input.profileType).Some? && |input.currency| >= 1
    ensures r.Ok? ==> ToInput(r.value) == input
    ensures r.Err? ==>
      && r.error != []
      && (NameRequired in r.error <==> input.name == "")
      && (InvalidType in r.error <==> ParseProfileType(input.profileType).None?)
      && (CurrencyRequired in r.error <==> input.currency == "")
  {
    var parsed := ParseProfileType(input.profileType);
    var errors :=
      (if |input.name| >= 1 then [] else [NameRequired])
      + (if parsed.Some? then [] else [InvalidType])
      + (if |input.currency| >= 1 then [] else [CurrencyRequired]);
    if errors == [] then Ok(FormData(input.name, parsed.value, input.currency))
    else Err(errors)
  }

  /** The inputs that display accepted data. */
  function ToInput(d: FormData): FormInput
  {
    FormInput(d.name, ProfileTypeName(d.profileType), d.currency)
  }

  /** Accepted data shown in the form validates back to itself. */
  lemma ValidateRoundTrip(d: FormData)
    requires d.name != "" && d.currency != ""
    ensures Validate(ToInput(d)) == Ok(d)
  {
    ProfileTypeRoundTrip(d.profileType, ProfileTypeName(d.profileType));
  }

  /** `defaultValues`: the form opens on the profile's own name, type and currency. */
  function Defaults(profile: Profile): (r: FormInput)
    ensures r.name == profile.name && r.currency == profile.currency
    ensures ParseProfileType(r.profileType) == Some(profile.profileType)
    ensures Validate(r).Ok? ==> Validate(r).value.profileType == profile.profileType
  {
    ProfileTypeRoundTrip(profile.profileType, ProfileTypeName(profile.profileType));
    FormInput(profile.name, ProfileTypeName(profile.profileType), profile.currency)
  }

  /** Submitting the form unchanged succeeds exactly when the stored name and
      currency are non-empty, and sends back what is stored. */
  lemma DefaultsValidate(profile: Profile)
    ensures Validate(Defaults(profile)).Ok? <==> profile.name != "" && profile.currency != ""
    ensures Validate(Defaults(profile)).Ok? ==>
      Validate(Defaults(profile)).value == FormData(profile.name, profile.profileType, profile.currency)
  {
    ProfileTypeRoundTrip(profile.profileType, ProfileTypeName(profile.profileType));
  }

  /** The update `onSubmit` sends: the trimmed name, the type and the currency;
      no timestamps. */
  function Changes(data: FormData): (u: ProfileUpdate)
    ensures u.name.Some? && u.profileType.Some? && u.currency.Some?
    ensures u.createdAt.None? && u.updatedAt.None?
    ensures u.name.value == Trim(data.name) && u.profileType.value == data.profileType && u.currency.value == data.currency
  {
    ProfileUpdate(Some(Trim(data.name)), Some(data.profileType), Some(data.currency), None, None)
  }

  /** `onSubmit`'s guard: a profile without an id, or a save already under way,
      sends nothing; otherwise the request names the profile's id. */
  function OnSubmit(profile: Profile, saving: bool, data: FormData): (r: Option<(string, ProfileUpdate)>)
    ensures r.None? <==> !Present(profile.id) || saving
    ensures r.Some? ==> r.value.0 == profile.id.value && r.value.0 != "" && r.value.1 == Changes(data)
  {
    if !Present(profile.id) || saving then None
    else Some((profile.id.value, Changes(data)))
  }

  /** The profile cache and the dialog after one submission. */
  datatype Submission = Submission(store: ProfileStore.State, saving: bool, closed: bool)

  /** One whole `onSubmit`: the guard, the context's update with `ack` as the store's
      answer, and the dialog's reaction. A failure is swallowed by the dialog, which
      stays open; once a request was sent the saving flag is cleared either way. */
  function Submit(profile: Profile, saving: bool, data: FormData, st: ProfileStore.State, ack: Reply<()>): (r: Submission)
    ensures OnSubmit(profile, saving, data).None? ==> r == Submission(st, saving, false)
    ensures OnSubmit(profile, saving, data).Some? ==> !r.saving && (r.closed <==> ack.Done?)
    ensures ack.Failed? ==> r.store.profiles == st.profiles && r.store.active == st.active
  {
    match OnSubmit(profile, saving, data)
    case None => Submission(st, saving, false)
    case Some((id, u)) =>
      var step := ProfileStore.Update(st, id, u, ack);
      Submission(step.state, false, step.outcome.Ok?)
  }

  /** After a successful save, every cached entry for the edited profile carries
      the trimmed name, the chosen type and currency, and keeps its id, owner and
      creation time; every other entry is untouched. */
  lemma SubmitSavesForm(profile: Profile, data: FormData, st: ProfileStore.State, i: int)
    requires Present(profile.id)
    requires 0 <= i < |st.profiles|
    ensures
      var r := Submit(profile, false, data, st, Done(()));
      && r.closed
      && |r.store.profiles| == |st.profiles|
      && (ProfileStore.HasId(st.profiles[i], profile.id.value) ==>
            var q := r.store.profiles[i];
            && q.name == Trim(data.name)
            && q.profileType == data.profileType
            && q.currency == data.currency
            && q.id == st.profiles[i].id
            && q.userId == st.profiles[i].userId
            && q.createdAt == st.profiles[i].createdAt)
      && (!ProfileStore.HasId(st.profiles[i], profile.id.value) ==> r.store.profiles[i] == st.profiles[i])
  {
  }

  /** A name of white space alone passes the schema, and is saved as the empty name. */
  lemma BlankNameIsSaved(profile: Profile, st: ProfileStore.State, i: int)
    requires Present(profile.id)
    requires 0 <= i < |st.profiles| && ProfileStore.HasId(st.profiles[i], profile.id.value)
    ensures Validate(FormInput("  ", "personal", "USD")).Ok?
    ensures Submit(profile, false, FormData("  ", Personal, "USD"), st, Done(())).store.profiles[i].name == ""
  {
    assert AllSpace("  ");
    SubmitSavesForm(profile, FormData("  ", Personal, "USD"), st, i);
  }
}

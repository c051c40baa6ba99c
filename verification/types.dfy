/** The records the two caches hold and the inputs their operations take. */
module Types {
  import opened Replies
  import opened Calendar
  import opened Seqs

  /** A server timestamp; only its identity matters to the caches. */
  type Time = int

  /** `'personal' | 'business' | 'family'`. */
  datatype ProfileType = Personal | Business | Family

  /** `'cash' | 'debit' | 'credit'`. */
  datatype PaymentMethod = Cash | Debit | Credit

  /** The string literal that stands for a profile type. */
  function ProfileTypeName(t: ProfileType): string
  {
    match t
    case Personal => "personal"
    case Business => "business"
    case Family => "family"
  }

  /** Reads one of the three profile-type literals; any other string is rejected. */
  function ParseProfileType(s: string): (r: Option<ProfileType>)
    ensures r.Some? <==> s == "personal" || s == "business" || s == "family"
    ensures r.Some? ==> ProfileTypeName(r.value) == s
  {
    if s == "personal" then Some(Personal)
    else if s == "business" then Some(Business)
    else if s == "family" then Some(Family)
    else None
  }

  /** Every profile type is written as exactly one literal, and reads back as itself. */
  lemma ProfileTypeRoundTrip(t: ProfileType, s: string)
    ensures ParseProfileType(ProfileTypeName(t)) == Some(t)
    ensures ParseProfileType(s) == Some(t) <==> s == ProfileTypeName(t)
  {
  }

  /** The string literal that stands for a payment method. */
  function PaymentMethodName(m: PaymentMethod): string
  {
    match m
    case Cash => "cash"
    case Debit => "debit"
    case Credit => "credit"
  }

  /** Reads one of the three payment-method literals; any other string is rejected. */
  function ParsePaymentMethod(s: string): (r: Option<PaymentMethod>)
    ensures r.Some? <==> s == "cash" || s == "debit" || s == "credit"
    ensures r.Some? ==> PaymentMethodName(r.value) == s
  {
    if s == "cash" then Some(Cash)
    else if s == "debit" then Some(Debit)
    else if s == "credit" then Some(Credit)
    else None
  }

  /** Every payment method is written as exactly one literal, and reads back as itself. */
  lemma PaymentMethodRoundTrip(m: PaymentMethod, s: string)
    ensures ParsePaymentMethod(PaymentMethodName(m)) == Some(m)
    ensures ParsePaymentMethod(s) == Some(m) <==> s == PaymentMethodName(m)
  {
  }

  /** A profile; `id` and the timestamps are absent until the store assigns them. */
  datatype Profile = Profile(
    id: Option<string>,
    name: string,
    profileType: ProfileType,
    currency: string,
    userId: string,
    createdAt: Option<Time>,
    updatedAt: Option<Time>)

  /** `CreateProfileInput`: a profile without `id`, `userId` and timestamps. */
  datatype ProfileInput = ProfileInput(name: string, profileType: ProfileType, currency: string)

  /** `UpdateProfileInput`: any subset of the profile's fields except `id` and `userId`. */
  datatype ProfileUpdate = ProfileUpdate(
    name: Option<string>,
    profileType: Option<ProfileType>,
    currency: Option<string>,
    createdAt: Option<Time>,
    updatedAt: Option<Time>)

  const NoProfileChange := ProfileUpdate(None, None, None, None, None)

  /** `{ ...profile, ...updates }`: every field the update carries wins; the
      identity and the owner cannot be carried, so they never change. */
  function MergeProfile(p: Profile, u: ProfileUpdate): (r: Profile)
    ensures r.id == p.id && r.userId == p.userId
    ensures r.name == (if u.name.Some? then u.name.value else p.name)
    ensures r.profileType == (if u.profileType.Some? then u.profileType.value else p.profileType)
    ensures r.currency == (if u.currency.Some? then u.currency.value else p.currency)
    ensures r.createdAt == (if u.createdAt.Some? then u.createdAt else p.createdAt)
    ensures r.updatedAt == (if u.updatedAt.Some? then u.updatedAt else p.updatedAt)
    ensures u == NoProfileChange ==> r == p
  {
    Profile(
      p.id,
      OrElse(u.name, p.name),
      OrElse(u.profileType, p.profileType),
      OrElse(u.currency, p.currency),
      p.userId,
      if u.createdAt.Some? then u.createdAt else p.createdAt,
      if u.updatedAt.Some? then u.updatedAt else p.updatedAt)
  }

  /** Applying the same update twice is the same as applying it once. */
  lemma MergeProfileIdempotent(p: Profile, u: ProfileUpdate)
    ensures MergeProfile(MergeProfile(p, u), u) == MergeProfile(p, u)
  {
  }

  /** An expense; amounts are integer cents. */
  datatype Expense = Expense(
    id: Option<string>,
    profileId: string,
    amount: int,
    description: string,
    category: string,
    date: Date,
    paymentMethod: PaymentMethod,
    createdAt: Option<Time>,
    updatedAt: Option<Time>)

  /** `CreateExpenseInput` (= `ExpenseFormData`): what the user enters for a new expense. */
  datatype ExpenseInput = ExpenseInput(
    amount: int,
    description: string,
    category: string,
    date: Date,
    paymentMethod: PaymentMethod)

  /** `Partial<Expense>`, what the expense cache's update accepts. Unlike the
      profile update it can carry `id` and `profileId`; `updatedAt` is left out
      because the cache overwrites it with the current time anyway. */
  datatype ExpenseUpdate = ExpenseUpdate(
    id: Option<Option<string>>,
    profileId: Option<string>,
    amount: Option<int>,
    description: Option<string>,
    category: Option<string>,
    date: Option<Date>,
    paymentMethod: Option<PaymentMethod>,
    createdAt: Option<Option<Time>>)

  const NoExpenseChange := ExpenseUpdate(None, None, None, None, None, None, None, None)

  /** `{ ...expense, ...data, updatedAt: now }`. */
  function MergeExpense(e: Expense, u: ExpenseUpdate, now: Time): (r: Expense)
    ensures r.updatedAt == Some(now)
    ensures r.id == (if u.id.Some? then u.id.value else e.id)
    ensures r.profileId == (if u.profileId.Some? then u.profileId.value else e.profileId)
    ensures r.amount == (if u.amount.Some? then u.amount.value else e.amount)
    ensures r.description == (if u.description.Some? then u.description.value else e.description)
    ensures r.category == (if u.category.Some? then u.category.value else e.category)
    ensures r.date == (if u.date.Some? then u.date.value else e.date)
    ensures r.paymentMethod == (if u.paymentMethod.Some? then u.paymentMethod.value else e.paymentMethod)
    ensures r.createdAt == (if u.createdAt.Some? then u.createdAt.value else e.createdAt)
    ensures u == NoExpenseChange ==> r == e.(updatedAt := Some(now))
  {
    Expense(
      OrElse(u.id, e.id),
      OrElse(u.profileId, e.profileId),
      OrElse(u.amount, e.amount),
      OrElse(u.description, e.description),
      OrElse(u.category, e.category),
      OrElse(u.date, e.date),
      OrElse(u.paymentMethod, e.paymentMethod),
      OrElse(u.createdAt, e.createdAt),
      Some(now))
  }

  /** An expense's amount, as a function value to sum with. */
  function Amount(e: Expense): int
  {
    e.amount
  }

  /** `expenses.reduce((total, e) => total + e.amount, 0)`. */
  function Total(es: seq<Expense>): int
  {
    Sum(es, Amount)
  }

  /** The total of a single expense is its amount. */
  lemma TotalOne(e: Expense)
    ensures Total([e]) == e.amount
  {
    assert [e][..0] == [];
    assert Total([e]) == Sum([e], Amount);
  }
}

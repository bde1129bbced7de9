/** Entities of the banking app (types.ts): transactions and user profiles.
    Money is exact integer cents; the source's JavaScript numbers are not modelled. */
module Types {

  datatype Option<+T> = None | Some(value: T)
  {
    /** The wrapped value, or `default` when absent. */
    function GetOr(default: T): T
    {
      match this
      case Some(v) => v
      case None => default
    }
  }

  datatype TransactionType = Deposit | Transfer | Payment | Zakat | Receive

  datatype TransactionStatus = Pending | Completed | Failed

  /** One entry of the transaction history; `amount` is signed cents
      (negative is money going out). */
  datatype Transaction = Transaction(
    id: string,
    kind: TransactionType,
    amount: int,
    recipient: Option<string>,
    sender: Option<string>,
    date: string,
    status: TransactionStatus,
    description: Option<string>)

  datatype Title = Mr | Mrs

  datatype Language = En | Ar

  /** A user profile. `language` is optional here: the profile created at
      first login leaves it out although the interface declares it. */
  datatype Profile = Profile(
    title: Option<Title>,
    firstName: Option<string>,
    lastName: Option<string>,
    name: string,
    email: string,
    phoneNumber: string,
    kycVerified: bool,
    biometricEnabled: bool,
    balance: int,
    currency: string,
    bankName: Option<string>,
    iban: Option<string>,
    language: Option<Language>,
    profileImage: Option<string>,
    address: Option<string>,
    city: Option<string>,
    region: Option<string>,
    postcode: Option<string>,
    country: Option<string>)

  /** A partial profile (`Partial<UserProfile>`): `None` means the key is absent. */
  datatype Patch = Patch(
    title: Option<Title>,
    firstName: Option<string>,
    lastName: Option<string>,
    name: Option<string>,
    email: Option<string>,
    phoneNumber: Option<string>,
    kycVerified: Option<bool>,
    biometricEnabled: Option<bool>,
    balance: Option<int>,
    currency: Option<string>,
    bankName: Option<string>,
    iban: Option<string>,
    language: Option<Language>,
    profileImage: Option<string>,
    address: Option<string>,
    city: Option<string>,
    region: Option<string>,
    postcode: Option<string>,
    country: Option<string>)

  /** The empty object `{}`. */
  const EmptyPatch: Patch :=
    Patch(None, None, None, None, None, None, None, None, None, None,
          None, None, None, None, None, None, None, None, None)

  function Override<T>(present: Option<T>, current: Option<T>): Option<T>
  {
    if present.Some? then present else current
  }

  /** Object spread `{ ...p, ...u }`: every key present in `u` replaces the
      profile's value, every absent key keeps it. */
  function Merge(p: Profile, u: Patch): (r: Profile)
    ensures u == EmptyPatch ==> r == p
    ensures u.phoneNumber.Some? ==> r.phoneNumber == u.phoneNumber.value
    ensures u.phoneNumber.None? ==> r.phoneNumber == p.phoneNumber
    ensures u.balance.None? ==> r.balance == p.balance
  {
    Profile(
      Override(u.title, p.title),
      Override(u.firstName, p.firstName),
      Override(u.lastName, p.lastName),
      u.name.GetOr(p.name),
      u.email.GetOr(p.email),
      u.phoneNumber.GetOr(p.phoneNumber),
      u.kycVerified.GetOr(p.kycVerified),
      u.biometricEnabled.GetOr(p.biometricEnabled),
      u.balance.GetOr(p.balance),
      u.currency.GetOr(p.currency),
      Override(u.bankName, p.bankName),
      Override(u.iban, p.iban),
      Override(u.language, p.language),
      Override(u.profileImage, p.profileImage),
      Override(u.address, p.address),
      Override(u.city, p.city),
      Override(u.region, p.region),
      Override(u.postcode, p.postcode),
      Override(u.country, p.country))
  }

  /** `{ ...u, ...v }` on two partial profiles: `v`'s keys win. */
  function Combine(u: Patch, v: Patch): Patch
  {
    Patch(
      Override(v.title, u.title),
      Override(v.firstName, u.firstName),
      Override(v.lastName, u.lastName),
      Override(v.name, u.name),
      Override(v.email, u.email),
      Override(v.phoneNumber, u.phoneNumber),
      Override(v.kycVerified, u.kycVerified),
      Override(v.biometricEnabled, u.biometricEnabled),
      Override(v.balance, u.balance),
      Override(v.currency, u.currency),
      Override(v.bankName, u.bankName),
      Override(v.iban, u.iban),
      Override(v.language, u.language),
      Override(v.profileImage, u.profileImage),
      Override(v.address, u.address),
      Override(v.city, u.city),
      Override(v.region, u.region),
      Override(v.postcode, u.postcode),
      Override(v.country, u.country))
  }

  /** Merging the empty object changes nothing. */
  lemma MergeEmpty(p: Profile)
    ensures Merge(p, EmptyPatch) == p
  {
  }

  /** Merging is shallow and last-writer-wins: two merges in a row are one
      merge of the combined patch, and repeating a merge changes nothing. */
  lemma MergeSequence(p: Profile, u: Patch, v: Patch)
    ensures Merge(Merge(p, u), v) == Merge(p, Combine(u, v))
    ensures Merge(Merge(p, u), u) == Merge(p, u)
  {
  }
}

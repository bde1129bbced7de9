# H3 banking demo: account/session store and authentication screens

A Dafny model of the one part of the H3 banking demo that holds state with
rules: the account/session store of `AppProvider` in App.tsx, the four-box
code entry of App.tsx's login screen, and the guards and step transitions of
the sign-up, login and profile-completion screens in
components/AuthScreens.tsx.

The store keeps four things: the signed-in user, an in-memory transaction
list (newest first), the `h3_active_user` storage slot, and the account
records stored under `h3_db_` followed by the normalised phone. It offers
`login`, `logout`, `addTransaction`, `updateBalance` and `updateUser`, and
restores a stored session when it mounts.

Files:

- `types.dfy` (module `Types`): transactions and profiles from types.ts,
  `Partial<UserProfile>` as `Patch`, and the shallow object-spread merge.
- `phone.dfy` (module `Phone`): `normalizePhone` and the account key.
- `session.dfy` (module `Session`): the store as pure functions over one
  `State` value, its invariant, and the properties of every operation.
- `store.dfy` (module `Store`): class `AccountStore`. Its fields are the four
  pieces of state, and its methods do the source's steps in order. Each
  method is proved to produce exactly the state the matching `Session`
  function gives, and to keep the invariant. The file also has a client
  scenario.
- `otp.dfy` (module `Otp`): `handleOtpChange` on a four-slot code.
- `auth_screens.dfy` (module `AuthScreens`): the three screens as small
  classes, plus `validate` and the profile record handed to the store.

Modelling choices:

- Money is exact integer cents, so 24500.00 is `2450000`.
- Phone normalisation follows the code at App.tsx:52. It removes every
  JavaScript `\s` character and every `-`, and keeps everything else,
  including `+`. It is not a digits-only rule. The `\D` stripping at
  services/auth.ts:22 is computed and never used. `PlusSignDistinguishesAccounts`
  shows that "+1 555-0100" and "1 555-0100" get different accounts.
- The store's invariant (`Session.Inv`) has three parts:
  - a signed-in user is exactly the active slot;
  - every account record sits under the key of its own phone;
  - the active slot equals its account record.
  No operation needs it as a precondition. Every operation keeps it
  (`OperationsPreserveInvariant`).
- The authentication services are oracles. The screens' methods take the
  awaited answers (`userExists`, `response`, `verified`) as parameters. The
  one fixed rule, that the mock `verifySmsCode` accepts exactly "123456", is
  `MockVerifySmsCode`.
- Every handler runs to completion, and `loading` is set and cleared inside
  it. Timers and awaits are not modelled.
- `language` is optional in `Profile`. The profile created at first login
  leaves it out, even though types.ts declares it required.
- Login on an existing record uses the record as stored. There is no
  default-field backfill and no language override. The in-memory
  transactions become the fixed four-entry seed on both login paths and on
  restore, not an empty list.
- `CompleteProfileLandsOnLoginAccount` runs the profile screen's two
  callbacks against this store, one after the other. It assumes
  `onLoginSuccess` is `login` and `onUpdateUser` is `updateUser`; the
  App.tsx shown mounts none of these screens, so nothing in it makes that
  binding. Given the binding, running the calls in order is sound because
  `updateUser` uses React's functional state update, so it sees the user
  that `login` has just set.

## Model

| member | source | states |
|---|---|---|
| `Types.Merge` | App.tsx:108 | Object spread: the empty partial profile changes nothing, a phone in the patch replaces the phone, an absent phone or balance is kept (last-writer-wins over two merges: `MergeSequence`) |
| `Types.MergeEmpty` | App.tsx:103-108 | Merging the empty partial profile returns the profile unchanged |
| `Types.MergeSequence` | App.tsx:108 | Shallow merge is last-writer-wins: two merges equal one merge of the combined patch, and repeating a merge changes nothing |
| `Phone.IsWhitespace` | App.tsx:52 | The definition of JavaScript's `\s`: the ECMAScript WhiteSpace and LineTerminator characters. Hyphens, `+` and digits are not among them |
| `Phone.RemoveWhitespace` | App.tsx:52 | The result is no longer than the input, holds no `\s` character, and holds only characters of the input (exact counts: `RemoveWhitespaceCount`) |
| `Phone.RemoveWhitespaceCount` | App.tsx:52 | Every `\s` character is removed, and every other character occurs in the result exactly as often as in the input |
| `Phone.RemoveHyphens` | App.tsx:52 | The result is no longer than the input, holds no `-`, and holds only characters of the input (exact counts: `RemoveHyphensCount`) |
| `Phone.RemoveHyphensCount` | App.tsx:52 | Every `-` is removed, and every other character occurs in the result exactly as often as in the input |
| `Phone.Normalize` | App.tsx:52 | The normal form is no longer than the raw phone and holds no whitespace and no hyphen |
| `Phone.DbKey` | App.tsx:56-57 | The record key is `h3_db_` followed by a string with no whitespace and no hyphen; two phones share it exactly when their normal forms agree (`SameKeyIffSameNormalForm`) |
| `Phone.NormalizeIsStrip` | App.tsx:52 | The two replacements equal a single pass that drops exactly the separators and keeps every other character in order |
| `Phone.NormalizeConcat` | App.tsx:52 | Normalisation distributes over concatenation |
| `Phone.NormalizeFixpoint` | App.tsx:52 | A string is its own normal form if and only if it holds no whitespace and no hyphen |
| `Phone.NormalizeIdempotent` | App.tsx:52 | Normalising twice equals normalising once |
| `Phone.NormalizeCount` | App.tsx:52 | Every non-separator character, `+` included, occurs as often in the normal form as in the raw phone; separators do not occur |
| `Phone.NormalizeIgnoresSeparator` | App.tsx:52-57 | Inserting a space or hyphen anywhere leaves the normal form, and so the account key, unchanged |
| `Phone.SameKeyIffSameNormalForm` | App.tsx:56-57 | Two raw phones get the same `h3_db_` key if and only if their normal forms are equal |
| `Phone.PlusSignDistinguishesAccounts` | App.tsx:52-57 | "+1 555-0100" and "1 555-0100" get different keys, because `+` is kept |
| `Session.MockTransactionsSeed` | App.tsx:32-37 | States the seed `MOCK_TRANSACTIONS`, which the constant `MockTransactions` defines: four completed entries with ids 1 to 4, in source order, with amounts in cents -1250, 450000, -20000, -120000, netting 308750 |
| `Session.Initial` | App.tsx:40-41 | The definition of the provider's first state: no user and no transactions, over whatever storage holds |
| `Session.NewAccount` | App.tsx:68-76 | The created profile keeps the phone as typed (so it lies under the key of the typed phone), has balance 24500.00 in USD, KYC and biometrics on, and no language |
| `Session.InitialStateConsistent` | App.tsx:39-50 | A provider over empty storage starts in a consistent state; over any storage it is consistent exactly when the stored records are well keyed and the active slot matches its record; restoring on mount keeps that |
| `Session.Restore` | App.tsx:44-50 | Storage is only read; a stored active session becomes the user with the seed transactions, and without one nothing changes (`RestoreSession`) |
| `Session.Login` | App.tsx:54-82 | The user and the active slot become the record under the login key; the only key that can appear is that one, and no existing record changes (`LoginExistingAccount`, `LoginNewAccount`) |
| `Session.Logout` | App.tsx:84-87 | The user and the active slot are cleared; records and transactions stay (`LogoutEndsSession`) |
| `Session.AddTransaction` | App.tsx:89-91 | The new entry is first, the old list follows, and nothing else changes (`AddTransactionPrepends`) |
| `Session.UpdateBalance` | App.tsx:93-101 | With no user nothing changes; otherwise the balance moves by the amount, the phone is kept, and the profile is stored as active slot and under the key of the old phone (`UpdateBalanceEffect`) |
| `Session.UpdateUser` | App.tsx:103-120 | With no user nothing changes; otherwise the merged profile becomes user and active slot and is stored under the key of its own phone, the only key that can appear (`UpdateUserEffect`) |
| `Session.RestoreSession` | App.tsx:44-50 | On mount, a stored active session becomes the user with the seed transactions; without one nothing changes; storage is only read |
| `Session.LoginExistingAccount` | App.tsx:54-65 | With a record under the key, the record becomes both the user and the active slot, the transactions become the seed, and no record changes |
| `Session.LoginNewAccount` | App.tsx:68-81 | Without a record, a profile is created with the raw phone, balance 24500.00, USD, KYC and biometrics on, and no language; it is written to the active slot and under the key; transactions become the seed |
| `Session.LoginOpensAccountRecord` | App.tsx:54-81 | On either path, login ends with the user equal to the record under the login key, and that record's phone leads back to the same key; the invariant holds afterwards |
| `Session.LoginSameAccount` | App.tsx:52-65 | Logging in with one phone, logging out, then logging in with another phone of the same normal form gives back the same profile and creates no record |
| `Session.LogoutEndsSession` | App.tsx:84-87 | Logout clears the user and the active slot and keeps every account record and the in-memory transactions |
| `Session.AddTransactionPrepends` | App.tsx:89-91 | The list grows by one, the new entry comes first, the old entries follow in order, and nothing else changes |
| `Session.UpdateBalanceEffect` | App.tsx:93-101 | With no user, nothing changes. Otherwise only the balance moves, by exactly the amount and with no floor, and the new profile goes to the active slot and under the key of the user's phone |
| `Session.UpdateBalanceAdditive` | App.tsx:93-101 | Two balance updates in a row equal one update by their sum |
| `Session.UpdateBalanceKeepsAccounts` | App.tsx:93-101 | In a consistent store a balance update rewrites the user's existing record and creates none |
| `Session.UpdateUserEffect` | App.tsx:103-120 | With no user, nothing changes. Otherwise the merged profile goes to the user, the active slot and the key of the merged phone, and every other record is untouched |
| `Session.UpdateUserOrphansOldRecord` | App.tsx:113-116 | When the phone's normal form changes, the record under the old key stays, so the number of records grows by one unless the new key was already taken |
| `Session.UpdateUserEmptyIsNoOp` | App.tsx:103-120 | In a consistent store, updating with an empty partial profile changes nothing |
| `Session.OperationsPreserveInvariant` | App.tsx:39-120 | Restore, login, logout, addTransaction, updateBalance and updateUser all keep the store's invariant (one lemma per operation below) |
| `Session.RestoreKeepsInv` | App.tsx:44-50 | The mount-time restore keeps the store's invariant |
| `Session.LoginKeepsInv` | App.tsx:54-82 | Login keeps the store's invariant on both paths |
| `Session.LogoutKeepsInv` | App.tsx:84-87 | Logout keeps the store's invariant |
| `Session.AddTransactionKeepsInv` | App.tsx:89-91 | Adding a transaction keeps the store's invariant |
| `Session.UpdateBalanceKeepsInv` | App.tsx:93-101 | A balance update keeps the store's invariant: the user's record is rewritten under its own key |
| `Session.UpdateUserKeepsInv` | App.tsx:103-120 | A user update keeps the store's invariant, even when the phone changes |
| `Store.AccountStore.constructor` | App.tsx:39-41 | The provider starts with no user and no transactions, over whatever storage holds |
| `Store.AccountStore.RestoreOnMount` | App.tsx:44-50 | The mount effect yields exactly `Session.Restore` of the old state and keeps the invariant |
| `Store.AccountStore.Login` | App.tsx:54-82 | The key lookup and the writes yield exactly `Session.Login` of the old state and keep the invariant |
| `Store.AccountStore.Logout` | App.tsx:84-87 | Yields exactly `Session.Logout` of the old state and keeps the invariant |
| `Store.AccountStore.AddTransaction` | App.tsx:89-91 | Yields exactly `Session.AddTransaction` of the old state and keeps the invariant |
| `Store.AccountStore.UpdateBalance` | App.tsx:93-101 | Yields exactly `Session.UpdateBalance` of the old state and keeps the invariant |
| `Store.AccountStore.UpdateUser` | App.tsx:103-120 | Yields exactly `Session.UpdateUser` of the old state and keeps the invariant |
| `Otp.AllDigits` | App.tsx:237 | The definition of `/^\d+$/`: a non-empty string of ASCII digits. A single character passes exactly when it is a digit |
| `Otp.AllFilled` | App.tsx:242 | The definition of `every(digit => digit !== '')`; boxes that each hold digits are all filled |
| `Otp.Join` | App.tsx:242 | `join('')` starts with the first box, is at least as long as every box, is at least as long as the number of boxes when all are filled, and is empty when every box is |
| `Otp.JoinAllDigits` | App.tsx:242 | Slots that each hold digits join into a code of digits at least as long as the number of slots |
| `Otp.OtpEntry.constructor` | App.tsx:222 | The code starts as four empty slots |
| `Otp.OtpEntry.HandleOtpChange` | App.tsx:236-243 | A non-empty, non-digit value changes nothing. Otherwise only slot `index` takes the value, and a digit moves focus to the next slot. Submit fires if and only if a digit lands in the last slot with all four filled; the submitted code is their join, all digits, at least four long. Every slot stays empty or digits |
| `AuthScreens.SignUpScreen.constructor` | components/AuthScreens.tsx:37-39 | The sign-up screen starts on the email step with an empty email and not loading |
| `AuthScreens.SignUpScreen.EditEmail` | components/AuthScreens.tsx:84 | Typing sets the email and nothing else |
| `AuthScreens.SignUpScreen.HandleSendEmail` | components/AuthScreens.tsx:41-48 | An email without `@` leaves the screen on the email step; otherwise the step becomes VERIFY and loading ends |
| `AuthScreens.SignUpScreen.HandleVerified` | components/AuthScreens.tsx:50-58 | Navigation to profile completion, carrying the email, happens if and only if the service reports the email verified |
| `AuthScreens.SignUpScreen.Resend` | components/AuthScreens.tsx:103-105 | "Resend" returns to the email step and changes nothing else |
| `AuthScreens.IssuedVerification` | components/AuthScreens.tsx:145 | The definition of `res.success && res.verificationId`: it needs success, and an empty id is falsy so it does not count |
| `AuthScreens.MockVerifySmsCode` | services/auth.ts:44 | The definition of the mock rule: exactly the code "123456" passes, whatever the verification id, so any accepted code is 6 long |
| `AuthScreens.LoginScreen.constructor` | components/AuthScreens.tsx:128-132 | The login screen starts on the phone step with empty fields and not loading |
| `AuthScreens.LoginScreen.EditPhone` | components/AuthScreens.tsx:192 | Typing sets the phone and nothing else |
| `AuthScreens.LoginScreen.EditCode` | components/AuthScreens.tsx:210 | Typing sets the code and nothing else |
| `AuthScreens.LoginScreen.HandleSendCode` | components/AuthScreens.tsx:134-153 | A phone shorter than 8 changes nothing. The step becomes OTP, storing the id, if and only if the user exists and sign-in succeeded with a non-empty verification id. An unknown user gets the account-not-found alert |
| `AuthScreens.LoginScreen.HandleVerify` | components/AuthScreens.tsx:155-167 | A code whose length is not 6 changes nothing. The login callback receives the phone if and only if verification succeeds; otherwise the invalid-code alert is raised. When the answer is the mock's, login happens exactly on the code "123456" |
| `AuthScreens.LoginScreen.Resend` | components/AuthScreens.tsx:216-218 | "Resend" returns to the phone step and changes nothing else |
| `AuthScreens.InitialForm` | components/AuthScreens.tsx:245-261 | The form starts with title Mr, country Saudi Arabia and the email carried over from sign-up, and is invalid |
| `AuthScreens.SetField` | components/AuthScreens.tsx:266-268 | The named input takes the value, every other input keeps its value, and the title is untouched (`SetFieldIsLocal`) |
| `AuthScreens.SetFieldIsLocal` | components/AuthScreens.tsx:266-268 | Editing a field sets only that field: edits to different fields commute, a later edit of the same field wins, setting a field back to its old value restores the form, and the title is untouched |
| `AuthScreens.Validate` | components/AuthScreens.tsx:270-276 | The form is valid if and only if all ten mandatory fields are non-empty: first and last name, address, city, region, postcode, bank name, IBAN, email and mobile number |
| `AuthScreens.ValidateIgnoresTitleAndCountry` | components/AuthScreens.tsx:245-276 | Title and country never affect validity, and the freshly initialised form is invalid |
| `AuthScreens.ProfileUpdate` | components/AuthScreens.tsx:291-296 | The record sets the phone to the mobile number, the name to first + " " + last and KYC to true, and leaves out balance, currency, biometrics, language and picture (`ProfileUpdateApplied`) |
| `AuthScreens.ProfileUpdateApplied` | components/AuthScreens.tsx:291-296 | Merged into any profile, the record sets name to first + " " + last, phone to the mobile number, KYC to true, and the form's other fields; balance, currency, biometrics, language and picture stay as they were |
| `AuthScreens.CompleteProfileScreen.constructor` | components/AuthScreens.tsx:245-264 | The form starts with title Mr, country Saudi Arabia, the email carried over from sign-up, and every other field empty |
| `AuthScreens.CompleteProfileScreen.HandleChange` | components/AuthScreens.tsx:266-268 | A change sets the named field of the form and nothing else |
| `AuthScreens.CompleteProfileScreen.SelectTitle` | components/AuthScreens.tsx:266-268 | Choosing a title sets only the title |
| `AuthScreens.CompleteProfileScreen.HandleSubmit` | components/AuthScreens.tsx:278-301 | An invalid form sets "All fields are mandatory." and calls nothing. A valid form calls login with the mobile number, then update with the record; an earlier error message is not cleared |
| `AuthScreens.CompleteProfileLandsOnLoginAccount` | components/AuthScreens.tsx:286-296 | Run against the store, the two calls leave the form's data, on top of the found or created account, as user, active slot and record under the mobile number's key. The balance is kept and no other record appears |

## Left out

- Virtual cards (issuance, freezing, removal): types.ts declares them, but no code that works on them is part of this model.
- JSON serialisation and `localStorage` mechanics. Storage is a map from full keys to profiles plus the active slot. The source has no error handling around `JSON.parse`, so a corrupt entry would throw; that path is not modelled.
- Floating-point money, `toFixed`/`toLocaleString` formatting, and the Zakat multiplication: balances are exact integer cents.
- Timers, `async`/`await`, React batching, and the stale closure in `updateBalance`, which reads the `user` captured at render. Every operation is atomic on the current state.
- Patch: a key that is present but holds `undefined` is not modelled, because a patch field is either absent or a value. The record built by the profile screen also carries a `mobileNumber` key, which is not a profile field and is dropped here.
- AuthScreens.LoginScreen.HandleSendCode and AuthScreens.LoginScreen.HandleVerify: the guards `phone.length < 8` and `code.length !== 6` count UTF-16 code units, while the model counts characters. A phone or code with characters outside the Basic Multilingual Plane is measured differently: "😀1234" is 6 long in JavaScript, passes `maxLength={6}`, and gets the invalid-code alert there, but the model's length guard stops it without an alert.
- The internals of services/auth.ts (delays, `Date.now()` ids, the unused digits-only normalisation) and services/gemini.ts: the screens take the services' answers as parameters.
- Focus handling beyond the next-box index in `handleOtpChange`, the backspace handler, the intro screen, and what `handleOtpSubmit` does with the code: it calls `login(phone)` and ignores the code.
- Language selection, navigation, and all JSX, styling and routing.

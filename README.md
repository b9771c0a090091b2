# money-tracker core, modelled in Dafny

A model of the stateable logic of a personal-finance mobile application (React Native,
Redux Toolkit, a hosted backend-as-a-service), with proofs about it:

- **the financial statement** (`utils/generatePDF.ts`): the income, expense and balance
  totals, the balance colour, the period line and the one-row-per-transaction table, as data
  (module `Statement`);
- **the transactions store** (`store/transactions/transactionsSlice.ts`): a class whose four
  reducers change the list, the loading flag and the error in place (`TransactionsSlice`);
- **the transaction thunks** (`store/transactions/transactionsThunks.ts`): the sign rule for a
  new amount, and the fixed sequence of store updates around the backend query
  (`TransactionsThunks`);
- **the auth store** (`store/auth/authSlice.ts`): the transition function over its five fields
  for the three setters and the pending/fulfilled/rejected events of `checkSession`, `signIn`,
  `signUp` and `signOut`, and a class that applies it in place (`AuthSlice`);
- **the route guard** (`hoc/withAuth.tsx`): spinner, redirect to `/login`, or the wrapped
  screen (`WithAuth`);
- **the change-password and edit-profile handlers** (`app/change-password.tsx`,
  `app/edit-profile.tsx`): the ordered validation, then the step-by-step updates of the
  screen's fields around the calls into the authentication service (`ChangePassword`,
  `EditProfile`).

Helper modules: `Wrappers` (an `Option` type for `null`/`undefined`), `Backend` (the shapes of
the backend's answers) and `JsString` (JavaScript's `trim` and UTF-16 `length`).

Modelling conventions:

- Amounts are integers (cents). The `type` column is the field `kind`, a free string.
- The backend is an oracle. Every handler that calls it takes the answer as a parameter:
  data or null, a returned error, or a thrown exception. So every proof covers every answer.
- Where the source relies on the order of state updates around a call, a ghost out-parameter
  records what the call saw. For the thunks this is the store at the moment of the query
  (`atQuery`, `atInsert`). For the screens it is the sequence of calls made, each paired with
  the screen's state at that moment (`calls`).
- The statement's income total sums the raw `amount` of "income" rows, with no absolute
  value. A transaction whose type is neither "income" nor "expense" adds to neither total,
  yet its row is drawn as an expense. The model follows the code in both places. Read as
  intended, income would be summed by magnitude and unknown types refused.
  `IncomeIsMagnitudeIff` shows exactly when the raw income total equals the magnitude total:
  when no "income" amount is negative. For the rows, `RowsAddUpToBalance` gives a sufficient
  condition for them to add up to the balance, and `UnknownKindBreaksAgreement` gives a
  counterexample.
- A rejected `signIn` stores the rejection's payload. `signIn`'s thunk throws rather than
  rejecting with a value (`store/auth/signInThunk.ts:12`), so that payload is absent, and a
  failed sign-in leaves `error` empty. The model therefore gives the rejected events an
  optional message.

## Model

| member | source | states |
|---|---|---|
| `JsString.TrimStart` | app/edit-profile.tsx:28 | the result is a suffix of the input; everything dropped is whitespace; it does not start with whitespace |
| `JsString.TrimEnd` | app/edit-profile.tsx:28 | the result is a prefix of the input; everything dropped is whitespace; it does not end with whitespace |
| `JsString.Trim` | app/edit-profile.tsx:38 | `trim()` is an infix of the input with only whitespace removed on either side, and a non-empty result neither starts nor ends with whitespace |
| `JsString.TrimEmptyIffAllWhitespace` | app/edit-profile.tsx:28-31 | the trimmed name is empty exactly when every character is whitespace (both directions) |
| `JsString.TrimIdempotent` | app/edit-profile.tsx:38 | trimming an already trimmed name changes nothing |
| `JsString.Utf16Length` | app/change-password.tsx:37 | `length` counts UTF-16 code units: between the number of characters and twice that, and equal to it exactly when no character is outside the Basic Multilingual Plane |
| `TransactionsSlice.TransactionsStore.constructor` | store/transactions/transactionsSlice.ts:18-22 | the initial store has no transactions, is not loading and has no error |
| `TransactionsSlice.TransactionsStore.SetTransactions` | store/transactions/transactionsSlice.ts:28-30 | the list becomes exactly the payload; loading and error are unchanged |
| `TransactionsSlice.TransactionsStore.AddTransaction` | store/transactions/transactionsSlice.ts:31-33 | the list becomes `[t] + old`: one longer, `t` at index 0, old element `i` at `i + 1`; nothing else changes |
| `TransactionsSlice.TransactionsStore.SetLoading` | store/transactions/transactionsSlice.ts:34-36 | changes only `loading` |
| `TransactionsSlice.TransactionsStore.SetError` | store/transactions/transactionsSlice.ts:37-39 | changes only `error` |
| `TransactionsThunks.StoredAmount` | store/transactions/transactionsThunks.ts:62 | the inserted amount keeps the input's magnitude, is at most 0 for "expense" and at least 0 for every other type |
| `TransactionsThunks.StoredAmountIdempotent` | store/transactions/transactionsThunks.ts:62 | normalising an already normalised amount changes nothing |
| `TransactionsThunks.OrEmpty` | store/transactions/transactionsThunks.ts:25 | `data \|\| []`: the fetched list when there is one, the empty list for null |
| `TransactionsThunks.FetchTransactions` | store/transactions/transactionsThunks.ts:10-33 | the query filters on the given user and sees loading on and no error; success stores the data (an empty list for null) and keeps no error; failure keeps the list and records the message; loading ends off; the action always fulfils (no rethrow) |
| `TransactionsThunks.CreateTransaction` | store/transactions/transactionsThunks.ts:35-84 | the insert carries the normalised amount and the other fields as given, and sees loading on and no error; a returned row is put in front of the list and returned; null data leaves the list; failure keeps the list, records the message and rejects with it; loading ends off |
| `Statement.TotalIncome` | utils/generatePDF.ts:5-7 | the income total sums the raw amounts of "income" rows and never exceeds the sum of their magnitudes |
| `Statement.TotalExpenses` | utils/generatePDF.ts:8-10 | the expense total is never negative |
| `Statement.ComputeTotals` | utils/generatePDF.ts:5-11 | the expense total is never negative, the balance is exactly income minus expenses, and the empty list gives all zeros |
| `Statement.TotalsAppend` | utils/generatePDF.ts:5-10 | both totals split over a concatenation of lists |
| `Statement.TotalsWithout` | utils/generatePDF.ts:5-10 | removing one transaction removes exactly its part of each total |
| `Statement.TotalsPermutationInvariant` | utils/generatePDF.ts:5-10 | any two lists that are permutations of each other have the same totals |
| `Statement.UnknownKindAddsNothing` | utils/generatePDF.ts:5-10 | a transaction of unknown type, at any position, changes neither total |
| `Statement.TotalIncomeCanBeNegative` | utils/generatePDF.ts:5-7 | the income total sums raw amounts, so a negative "income" amount makes it negative |
| `Statement.MagnitudeIncome` | utils/generatePDF.ts:5-7 | the reference income total (the sum of magnitudes) is never negative |
| `Statement.NormalisedIncomeIsMagnitude` | utils/generatePDF.ts:5-7 | on amounts normalised as the create path normalises them, the raw income total equals the sum of magnitudes and is never negative |
| `Statement.IncomeIsMagnitudeIff` | utils/generatePDF.ts:5-7 | the raw income total equals the magnitude total exactly when no "income" amount is negative (both directions) |
| `Statement.RawIncomeDiffersFromMagnitude` | utils/generatePDF.ts:5-7 | without normalisation the raw and magnitude income totals differ |
| `Statement.Capitalize` | utils/generatePDF.ts:96 | the label has the type's length, its first character upper-cased and the rest unchanged |
| `Statement.CapitalizeIdempotent` | utils/generatePDF.ts:96 | capitalising a label twice gives the same label |
| `Statement.CapitalizeKnownKinds` | utils/generatePDF.ts:96 | the two known types are labelled "Income" and "Expense" |
| `Statement.RowFor` | utils/generatePDF.ts:92-101 | a row's sign is '+' and its class is income exactly when the type is "income", '-' otherwise; it shows the magnitude and the capitalised type |
| `Statement.Rows` | utils/generatePDF.ts:92-101 | exactly one row per transaction, in input order |
| `Statement.UnknownKindRenderedAsExpense` | utils/generatePDF.ts:97-98 | an unknown type is drawn with '-' and the expense class yet adds to neither total |
| `Statement.RowsAddUpToBalance` | utils/generatePDF.ts:92-101 | when every type is known and every amount normalised, the signed row amounts add up to the balance |
| `Statement.UnknownKindBreaksAgreement` | utils/generatePDF.ts:97-98 | one unknown-type row makes the rows show -7.00 while the balance is 0 |
| `Statement.PeriodOf` | utils/generatePDF.ts:67 | the period is the first and the last transaction's date, and there is none exactly when the list is empty |
| `Statement.BalanceColour` | utils/generatePDF.ts:81 | the balance is green exactly when it is not negative |
| `Statement.BuildStatement` | utils/generatePDF.ts:5-101 | the statement carries the two totals and their difference, the colour rule, a period exactly for a non-empty list and one row per transaction in order |
| `Statement.ThreeTransactionTotals` | utils/generatePDF.ts:5-11 | income 100.00 with expenses -40.00 and -20.00 gives totals 100.00, 60.00 and balance 40.00 |
| `AuthSlice.UserOf` | store/auth/authSlice.ts:46 | `payload?.user \|\| null`: a user exactly when a session came back, and then the session's user |
| `AuthSlice.Reduce` | store/auth/authSlice.ts:28-89 | the transition function: each event writes only its own fields (identity only through the user setter and the session-bearing events, `loading` only through its setter and the pending and settling sign-in, sign-up and session events, `error` only through its setter and the two rejected events) |
| `AuthSlice.AuthStore.constructor` | store/auth/authSlice.ts:17-23 | no session, no user, not loading, not authenticated, no error |
| `AuthSlice.AuthStore.Dispatch` | store/auth/authSlice.ts:28-89 | handling an action leaves the store in `Reduce` of its old state and the action |
| `AuthSlice.PendingSetsOnlyLoading` | store/auth/authSlice.ts:41-73 | each handled pending event sets `loading` and changes nothing else |
| `AuthSlice.SessionFulfilled` | store/auth/authSlice.ts:44-79 | a fulfilled `checkSession` or `signUp` authenticates exactly when a session came back, stores it and its user, stops loading and keeps the error |
| `AuthSlice.SignInFulfilledAlwaysAuthenticates` | store/auth/authSlice.ts:60-65 | a fulfilled `signIn` authenticates even without a session |
| `AuthSlice.CheckSessionRejectedSignsOut` | store/auth/authSlice.ts:50-55 | a rejected `checkSession` clears session, user and flag, stops loading and keeps the error |
| `AuthSlice.SignInUpRejectedKeepsIdentity` | store/auth/authSlice.ts:66-83 | a rejected `signIn` or `signUp` records its payload and stops loading; session, user and flag are kept |
| `AuthSlice.SignOutClearsIdentity` | store/auth/authSlice.ts:85-89 | a fulfilled `signOut` clears session, user and flag and keeps loading and error |
| `AuthSlice.ErrorWrittenOnlyByErrorActions` | store/auth/authSlice.ts:35-89 | only `setError` and the two rejected events write `error`; every other action keeps it |
| `AuthSlice.ErrorSurvivesRun` | store/auth/authSlice.ts:35-89 | along any run without those actions the error is what it was |
| `AuthSlice.InitialStateConsistent` | store/auth/authSlice.ts:17-23 | the initial state is authenticated exactly when it holds a session, with the session's user |
| `AuthSlice.ConsistencyPreserved` | store/auth/authSlice.ts:29-89 | every transition except `setUser` and a `signIn` fulfilled without a session keeps that consistency |
| `AuthSlice.ConsistentAlongRun` | store/auth/authSlice.ts:29-89 | any run avoiding those two transitions keeps the store consistent |
| `AuthSlice.SignInWithoutSessionIsInconsistent` | store/auth/authSlice.ts:60-65 | a `signIn` fulfilled without a session leaves the store authenticated with neither session nor user |
| `WithAuth.ProtectedRoute` | hoc/withAuth.tsx:15-31 | the spinner exactly while loading; a redirect exactly when not loading with neither user nor flag; the wrapped screen whenever not loading, even when redirecting |
| `WithAuth.Guard` | hoc/withAuth.tsx:10-12 | the guard applied to the store's `loading`, `user` and `isAuthenticated`: spinner exactly while loading, redirect exactly when settled with neither user nor flag |
| `WithAuth.HalfAuthenticatedDoesNotRedirect` | hoc/withAuth.tsx:16 | the flag without a user, or a user without the flag, does not redirect |
| `WithAuth.RedirectIffNoSession` | hoc/withAuth.tsx:15-31 | in a consistent, settled store the guard redirects exactly when no session is held |
| `WithAuth.SpinnerWhilePending` | hoc/withAuth.tsx:21-29 | after any handled pending event the guard shows the spinner and does not redirect |
| `WithAuth.SignOutRedirects` | hoc/withAuth.tsx:15-19 | a settled sign-out redirects to the login screen |
| `WithAuth.CheckSessionDecidesRedirect` | hoc/withAuth.tsx:15-19 | a session check redirects exactly when it finds no session, and always when it is rejected |
| `WithAuth.SignInWithoutSessionStays` | hoc/withAuth.tsx:15-31 | after a sign-in without a session the guard neither redirects nor has a user |
| `ChangePassword.PasswordProblem` | app/change-password.tsx:32-40 | a mismatch is reported first; a matching password under six code units is too short; passing means equal and at least six |
| `ChangePassword.MismatchReportedBeforeLength` | app/change-password.tsx:32-40 | a short mismatching password gets the mismatch message |
| `ChangePassword.BoundaryLengths` | app/change-password.tsx:37-40 | length six passes and length five is refused |
| `ChangePassword.ThreeAstralCharactersAccepted` | app/change-password.tsx:37 | three characters outside the Basic Multilingual Plane count as six and pass |
| `ChangePassword.LoginEmail` | app/change-password.tsx:47 | `user?.email \|\| ""`: the user's address, or empty when there is no user or no address |
| `ChangePassword.ChangePasswordScreen.constructor` | app/change-password.tsx:21-26 | empty fields, not loading, no error, no snackbar |
| `ChangePassword.ChangePasswordScreen.HandleUpdatePassword` | app/change-password.tsx:31-71 | a failed check records its message and makes no call; otherwise re-authentication sees loading on and no error; failure stops before any update with "Current password is incorrect" (or the thrown message); a successful update clears the three fields and shows the snackbar; a failed one records its message; loading ends off |
| `EditProfile.InitialName` | app/edit-profile.tsx:22 | the field starts as the user's `full_name`, or empty when there is none |
| `EditProfile.EditProfileScreen.constructor` | app/edit-profile.tsx:22-25 | the initial name, not loading, no error, no snackbar |
| `EditProfile.EditProfileScreen.HandleUpdateProfile` | app/edit-profile.tsx:27-50 | a blank name is refused with "Name cannot be empty", with no request and no change to loading; otherwise the trimmed name is sent (non-empty, no outer whitespace) while loading is on and the error cleared; success re-checks the session in the auth store and shows the snackbar; failure records its message; loading ends off; the field is never rewritten |
| `EditProfile.DispatchCheckSession` | app/edit-profile.tsx:43 | the auth store receives the pending event and then the event that settles the session check |
| `EditProfile.CheckSessionSettled` | app/edit-profile.tsx:43 | the session check settles as fulfilled with the session found exactly when the lookup answers, and as rejected exactly when it fails |

## Left out

- The per-day chart series, the time-window filter and the spending advice of the tab screens (`app/(tabs)/index.tsx`, `app/(tabs)/transactions.tsx`) are not part of this model.
- The HTML template, the `toFixed(2)` currency strings, `toLocaleDateString()` and `new Date(...)`: these are presentation, locale and floating-point behaviour. Rows and the period carry the raw `created_at` string.
- `Print.printToFileAsync` and the file URI it returns: a call into a native module.
- Statement.PeriodOf: for an empty list the source indexes past the end of the array and prints an invalid date. The model returns no period.
- Statement.Capitalize: `toUpperCase` is modelled for ASCII `a`-`z` only. Full Unicode case mapping, which can change a string's length, is not modelled.
- The backend client and its queries (`lib/supabase.ts`, `lib/api.ts`) and the auth thunks (`store/auth/signInThunk.ts`, `signUpThunk.ts`, `signOutThunk.ts`, `getSession.ts`) are outside the model. Their outcomes are parameters. The descending order of the fetched list is the server's promise and is not assumed.
- Amounts are integer cents. JavaScript numbers (fractions, `NaN`, `-0`) and the `Number(value)` parse of the add-transaction form are not modelled.
- A thrown value's `message` is taken to be a string. JavaScript would give `undefined` for an object without one.
- `console.error` logging, the snackbar's dismissal, the password-visibility toggles, typing into the fields, and navigation (`router.back`, the `router.replace` call itself) are UI bindings. The guard's redirect is modelled as a decision only.
- Concurrency: thunks interleaving, React re-render timing, `useEffect` scheduling and `AppState` listeners. Each handler is modelled as one sequential run.
- Layout and widgets (`components/`, `app/_layout.tsx`, `app/help-support.tsx`, `app/addTransaction.tsx`, `store/store.ts`) are not part of this model.

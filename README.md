# Pix transfer flow and account lifecycle — a Dafny model

This project models the core of a small banking web client (the "bolt" Pix
app). It covers:

- the Pix transfer page's step machine (`form → pin → review`, plus the
  `showReview` flag) and the review card that confirms the transfer;
- the account operations against the `users` and `saldo` tables (login,
  registration, profile update, password change, PIN change);
- the global session store;
- the profile page's password-change panel and its password rules;
- the registration form's submit logic.

The database client becomes a class (`Store.Database`) holding the two tables
as maps. The hashing service becomes a pair of uninterpreted function values
(`Store.Crypto`). Every database call whose failure the code handles gets its
outcome from the caller, as a flag or an error value: the user lookups, the
inserts and updates, and login's balance query. Each event handler is one atomic step.
The step machines are pure transition functions (`Pix.Next`,
`PasswordChange.Next`). They come with a predicate saying which events the
rendered page offers (`Enabled`) and trace lemmas over sequences of offered
events. Each component is also a class whose fields are the component's state
and whose methods are its handlers. The methods of the two step-machine
classes (`Pix.PixPage`, `PasswordChange.PasswordChangePanel`) state their new
state as the transition function applied to the old one. The other methods
state their new state, and that of the tables and session they change, field by
field for each outcome.

Modules, one per source file: `Common` (Option/Outcome/Result and JavaScript
`includes`), `Store` (tables, hashing, `.single()`), `Auth` (`src/lib/auth.ts`),
`PinService`, `AuthStore`, `PasswordChange`, `RegisterForm`, `ReviewCard`, `Pix`.

Amounts are integers in cents, so the fee-text threshold of 25 becomes 2500.

Behaviour of the code worth noting, which the model follows:
- Cancelling keeps the key, amount and description rather than resetting the
  request.
- A wrong old password throws 'Invalid old password' rather than a
  credentials error.
- The password panel does not check the old password at all; only the PIN
  step gates it.
- A failed balance insert at registration throws 'Failed to initialize
  account balance' and leaves the user row in place.
- `Pix.tsx`, `PasswordChange.tsx` and `pinService.changePin` count no failed
  attempts and have no terminal state.
- `calculateTax` (`src/utils/currency`) is kept abstract, so no fee formula is
  modelled.
- `registerUser` ignores the error of its email lookup, and `loginUser` treats
  it like an unknown email. After a failed lookup, registration goes on to
  insert, so a taken email can be registered twice unless the database itself
  rejects the duplicate.

## Model

| member | source | states |
|---|---|---|
| Store.SingleByEmail | src/lib/auth.ts:8-16 | a lookup by email yields a row exactly when one row matches; that row carries the email and is the only one that does |
| Store.SelectSingleByEmail | src/lib/auth.ts:48-52 | the query returns exactly what `.single()` specifies |
| Store.SingleWhenUnique | src/lib/auth.ts:47-56 | when no two rows share an email, the lookup finds a row exactly when some row has the email |
| Auth.LoginUser | src/lib/auth.ts:6-44 | unknown or ambiguous email, a failed lookup and wrong password give the same `InvalidCredentials`; a balance-query error is propagated unchanged; success returns the row's id, name, email, avatar and account with the stored balance (0 when missing or null); nothing is written |
| Auth.RegisterUser | src/lib/auth.ts:46-92 | a taken email found by a successful lookup throws 'Email already registered' with both tables unchanged; a failed lookup counts as no row; a failed user insert writes nothing; otherwise the row holds the password's hash and a null pin; a failed balance insert leaves that row (no rollback); success adds balance 0 for the account; email uniqueness is preserved unless the lookup failed for a taken email, and then it is broken |
| Auth.ProfileUpdate | src/lib/auth.ts:95-101 | only `name` and `avatar_url` change, and only where the patch gives them; email, password, account and pin are untouched |
| Auth.UpdateUserProfile | src/lib/auth.ts:94-104 | a store error is rethrown with no write; otherwise the row with that id gets the profile update; an unknown id changes nothing; the balance table is never touched |
| Auth.ChangeUserPassword | src/lib/auth.ts:106-135 | a failed lookup or a missing user gives 'User not found', wrong old password gives 'Invalid old password', failed update gives 'Failed to update password', none of them writing; success replaces only that row's password by the new password's hash |
| Auth.RegisteredCanLogIn | src/lib/auth.ts:59-73 | for a new email, with hashing and verification agreeing on the password, the inserted row is the one login finds, it passes the login check, and the login view shows balance 0 |
| Auth.ChangedPasswordLogsIn | src/lib/auth.ts:124-131 | after a password change login finds the same row, and the new password passes the login check |
| PinService.ChangePin | src/services/auth/pinService.ts:5-44 | success exactly when no error message; a failed lookup or a missing user gives 'Usuário não encontrado', and a wrong current PIN (checked against the `pin` column only) gives 'PIN atual incorreto', both with no write; a failed update returns the retry message; success sets only that row's pin to the new PIN's hash |
| AuthStore.Merge | src/store/useAuthStore.ts:50-52 | each field present in the patch replaces the user's, each absent one keeps it; an empty patch leaves the user as it is |
| AuthStore.SessionStore.constructor | src/store/useAuthStore.ts:16-17 | starts with no user and not authenticated |
| AuthStore.SessionStore.Register | src/store/useAuthStore.ts:19-28 | a successful registration leaves the session signed out; a failure is rethrown with the session unchanged; the tables change as registration says |
| AuthStore.SessionStore.Login | src/store/useAuthStore.ts:30-38 | success stores the login view and sets authenticated; either failure is rethrown with the session unchanged |
| AuthStore.SessionStore.Logout | src/store/useAuthStore.ts:40-42 | back to no user, not authenticated |
| AuthStore.SessionStore.UpdateProfile | src/store/useAuthStore.ts:44-57 | without a user id nothing happens; a failed write is rethrown with the session unchanged; success merges the patch into the user |
| AuthStore.SessionStore.UpdateBalance | src/store/useAuthStore.ts:59-63 | only the balance changes; a missing user stays missing |
| PasswordChange.MatchesIff | src/components/profile/PasswordChange.tsx:31-44 | the left-to-right character-class scan succeeds exactly when some character lies in the class |
| PasswordChange.ValidatePassword | src/components/profile/PasswordChange.tsx:25-47 | accepts exactly the passwords of length at least 8 with an ASCII upper-case letter, a lower-case letter and a digit; otherwise reports the first broken rule in that order |
| PasswordChange.HandleSubmit | src/components/profile/PasswordChange.tsx:49-74 | the service is called exactly when the two fields match and the password passes every rule, with the user id and the new password; success returns to the initial step with both fields cleared; failure or a refused check keeps the fields |
| PasswordChange.StepGraph | src/components/profile/PasswordChange.tsx:17-23 | the password step is entered only from the PIN step by a PIN success; a PIN error changes nothing; both cancel buttons go to the initial step, the form's one clearing the fields; only a submit in the password step calls the service |
| PasswordChange.SubmitOffered | src/components/profile/PasswordChange.tsx:61-73 | after every run from the start the loading flag is off, so the submit button is offered in every password step reached |
| PasswordChange.PasswordOnlyAfterPin | src/components/profile/PasswordChange.tsx:90-113 | a run from the start that ends in the password step contains a PIN success taken in the PIN step, after which the panel stayed in the password step |
| PasswordChange.ChangeOnlyAfterPin | src/components/profile/PasswordChange.tsx:57-63 | the password service is called only after such a PIN success, and with a password that passes every rule |
| PasswordChange.PasswordChangePanel.constructor | src/components/profile/PasswordChange.tsx:12-15 | initial step, empty fields, not loading |
| PasswordChange.PasswordChangePanel.RequestChange | src/components/profile/PasswordChange.tsx:82 | moves to the PIN step, fields kept |
| PasswordChange.PasswordChangePanel.HandlePinSuccess | src/components/profile/PasswordChange.tsx:17-19 | moves to the password step, fields kept |
| PasswordChange.PasswordChangePanel.HandlePinError | src/components/profile/PasswordChange.tsx:21-23 | the state is unchanged |
| PasswordChange.PasswordChangePanel.CancelPin | src/components/profile/PasswordChange.tsx:104 | back to the initial step, fields kept |
| PasswordChange.PasswordChangePanel.EditNewPassword | src/components/profile/PasswordChange.tsx:121 | sets the new password field |
| PasswordChange.PasswordChangePanel.EditConfirmPassword | src/components/profile/PasswordChange.tsx:135 | sets the confirmation field |
| PasswordChange.PasswordChangePanel.CancelPassword | src/components/profile/PasswordChange.tsx:155-158 | back to the initial step with both fields cleared |
| PasswordChange.PasswordChangePanel.HandleSubmit | src/components/profile/PasswordChange.tsx:49-74 | follows `HandleSubmit`; a call is made only for a matching password that passes every rule, and loading is off afterwards |
| RegisterForm.PreCheck | src/components/auth/RegisterForm.tsx:21-31 | the helper's password error is reported before the mismatch check; a mismatch gives 'As senhas não coincidem'; none means both checks passed |
| RegisterForm.RegisterErrorText | src/components/auth/RegisterForm.tsx:36-42 | the "already registered" text exactly when the thrown message includes 'already registered', otherwise the generic failure text |
| RegisterForm.RegisterErrorsShown | src/components/auth/RegisterForm.tsx:38-41 | a taken email reaches the user as the "already registered" text; either failed insert reaches the user as the generic text |
| RegisterForm.RegisterForm.HandleSubmit | src/components/auth/RegisterForm.tsx:17-44 | clears the error first; a failed check shows its text and calls nothing; a taken email shows the "already registered" text, and a failed user insert the generic text, both with the tables and session unchanged; once the user row is inserted it stays, and a failed balance insert shows the generic text with the session unchanged; success navigates with the session signed out and balance 0 added |
| ReviewCard.FeeRuleText | src/components/pix/review/ReviewCard.tsx:87-89 | the fixed-fee text exactly when the amount is at most 25.00, the percentage text exactly above it |
| ReviewCard.Confirm | src/components/pix/review/ReviewCard.tsx:31-46 | `sendPix` is called exactly when there is a non-empty account and the card is active, and then with the key, the plain amount and the account; otherwise nothing changes; `onSuccess` runs exactly when the call resolved; a failure shows its message, or 'Falha ao enviar PIX' when the message is empty; loading ends off |
| ReviewCard.ReviewCard.constructor | src/components/pix/review/ReviewCard.tsx:25-26 | not loading, no error |
| ReviewCard.ReviewCard.Unmount | src/pages/Pix.tsx:114-122 | a hidden card restarts from the initial state |
| ReviewCard.ReviewCard.HandleConfirm | src/components/pix/review/ReviewCard.tsx:31-46 | the card state, the call and the success flag are those of `Confirm` |
| Pix.StepGraph | src/pages/Pix.tsx:28-73 | every offered event keeps the page invariant; the PIN step is entered only by an accepted submit; the review step only by a PIN success from the PIN step (or a confirmation that stays there); the transfer fields are frozen in flight; only a confirmation in the review step calls `sendPix` |
| Pix.RunInv | src/pages/Pix.tsx:99-122 | after any run of offered events: the card is shown exactly outside the form step, no page error during a flow, a hidden card is idle, nothing is left loading |
| Pix.PinAfterSubmit | src/pages/Pix.tsx:44-45 | reaching the PIN step means the last event was an accepted submit from the form step, with the fields unchanged |
| Pix.ReviewOnlyAfterPin | src/pages/Pix.tsx:102-108 | a run ending in the review step contains an accepted submit immediately followed by a PIN success, after which the page stayed in review with the submitted key, amount and description |
| Pix.SendOnlyAfterPin | src/pages/Pix.tsx:115-122 | `sendPix` is reached only after such a submit and PIN success, with the submitted key and the validated plain amount; the card shows the same tax and total at confirmation as at submission, and the total shown exceeds the amount sent by exactly the tax shown |
| Pix.FieldsResetOnlyOnSuccess | src/pages/Pix.tsx:58-73 | apart from typing and favorites, the fields change only through a successful transfer, which empties them and returns to the form; cancel keeps them, returns to the form and clears the error |
| Pix.PixPage.constructor | src/pages/Pix.tsx:19-25 | empty fields, form step, no review card |
| Pix.PixPage.Settle | src/pages/Pix.tsx:114-122 | the card is reset exactly when it is hidden |
| Pix.PixPage.Edit | src/pages/Pix.tsx:88-99 | sets the four entry fields |
| Pix.PixPage.HandleSelectFavorite | src/pages/Pix.tsx:75-77 | sets only the key |
| Pix.PixPage.HandleInitialSubmit | src/pages/Pix.tsx:28-46 | clears the error; without a user the step and flag are unchanged; an accepted submit shows the card and goes to the PIN step, never to review |
| Pix.PixPage.HandlePinSuccess | src/pages/Pix.tsx:48-50 | sets the review step |
| Pix.PixPage.HandlePinError | src/pages/Pix.tsx:52-56 | form step, card hidden, error set to the message |
| Pix.PixPage.HandleCancel | src/pages/Pix.tsx:58-62 | form step, card hidden, error cleared, key, amount and description kept |
| Pix.PixPage.HandleTransactionSuccess | src/pages/Pix.tsx:64-73 | empties key, amount, formatted amount and description; form step; card hidden |
| Pix.PixPage.Confirm | src/pages/Pix.tsx:115-122 | the card's confirmation, whose success runs `HandleTransactionSuccess`; a call happens only in the review step, with the parsed amount |

## Left out

- The transfer itself (`sendPix` and the ledger debit and credit behind it) is not part of this model. Its effect is reduced to an outcome (resolved, or threw a message) given with the confirm event.
- No fee formula (`calculateTax` is abstract), settlement rule or account-number uniqueness is modelled. Any attempt limit inside the PIN components is not part of this model.
- `calculateTax`, `validateAmount`, `parseFloat` and the `validatePassword` of the shared validation utilities are abstract function values. `formatCurrency` and display formatting are left out.
- Amounts are integers in cents; floating point and NaN are not modelled.
- Salted hashing is nondeterministic. The model's hash is a fixed function value, so it does not capture that two hashes of one secret differ.
- The hashing service's treatment of a null hash is not modelled, so a null `pin` column fails verification.
- `generateAccountNumber` and the database-assigned user id are parameters; the id is required to be new.
- A balance insert for an account number that already has a row overwrites it in the model.
- Database failures are modelled for the inserts and updates, the email lookups of login and registration, the id lookups of the password and PIN changes, and login's balance query. A failed lookup is given as a flag and is read as "no row", as the code does.
- Auth.RegisterUser: email uniqueness is promised only when the email lookup succeeds or no row has the email; the database's own constraints, if any, are not modelled.
- With the real client, `.single()` on a missing `saldo` row reports an error. The model yields 0, following the code's fallback.
- `services/authService.changePassword` (used by the password panel) is not part of this model; it is reduced to a success flag.
- The PIN components (`PinVerification`, `PinInput`) are not part of this model; they appear only as their success and error callbacks.
- Rendering, CSS, toasts, console logging, routing (`navigate` is reduced to a returned flag), locale strings, and the HTML `required`/`minLength` input attributes are left out.
- Favorites (`useFavorites`, the add-favorite form, `showAddFavorite`) are left out; `handleSelectFavorite` is kept.
- `async` handlers are atomic steps, so the loading flag is never seen set between events and the disabled-while-loading button guards nothing observable.
- The race between the email check and the insert is not modelled.
- JavaScript truthiness is modelled only where it matters:
  - an empty account or user id counts as absent;
  - an empty error message counts as none;
  - validator results are `Option` values;
  - a patch field explicitly set to `undefined` is not distinguished from an absent one.
- Password length is counted in Dafny characters, not UTF-16 code units.
- `src/components/navigation/desktop/DesktopSidebar.tsx` and `src/components/profile/ProfileInfo.tsx` are left out: they only render.

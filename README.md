# Bubble master-key screen, modelled in Dafny

Bubble is an Electron password manager whose renderer (`src/renderer/App.tsx`)
keeps the credential list locked behind a master key. This project models the
decision logic of that screen:

- the **strength meter**: the `requirements` table (a digit, a lowercase
  letter, an uppercase letter, a special symbol), the length check (more than
  seven characters) and `getStrength`, which counts the failed checks `m` and
  scores `max(100 - 20*m, 10)`; the step `100 / (requirements.length + 1)` is
  exactly 20, so the model works over `int`;
- the **strength gate** of `getPasswords`: a key scoring below 50 never reaches
  the backend, an error reply leaves the screen locked, and only a reply
  without `error` unlocks it and replaces the list;
- the **confirmation rule** of the two destructive actions (delete one card,
  delete everything): enabled exactly when the box is ticked and the typed key
  equals the session master key; "Remove All Passwords" clears both on open;
- the **shape of `generatePassword`**: 24 characters, each from its charset.

Modules: `StrengthMeter` (strength.dfy), `Generator` (generator.dfy),
`Confirm` (confirm.dfy) and `Session` (session.dfy), where class `Vault` holds
the state of `Main` and class `PasswordCard` that of one card. Each handler
returns the backend requests it sends, in order, and takes the backend's
replies as parameters; the random index of the generator is an arbitrary
choice in `[0, n)`.

Beyond the source's own promises the model proves that the progress bar is red
exactly when the gate refuses the key (no key scores exactly 50), that typing
more characters never lowers the score, that a generated password always
passes the length check but can still be refused by the gate (24 `a`s), and
that the per-card confirmation, unlike the delete-all one, is not cleared when
the card's modal is opened again (`ReopenedCardStaysConfirmed`).

## Model

| member | source | states |
|---|---|---|
| `StrengthMeter.Test` | src/renderer/App.tsx:235-240 | a requirement's pattern matches a key exactly when some character of the key is in the pattern's class (the special-symbol class being the 22 characters of line 239) |
| `StrengthMeter.InClass` | src/renderer/App.tsx:236-239 | the digit, lowercase and uppercase classes are the code-point ranges 48-57, 97-122 and 65-90, and the special-symbol class holds no letter or digit |
| `StrengthMeter.LengthPenalty` | src/renderer/App.tsx:224 | `multiplier` starts at 1 or 0, and at 0 exactly when the key has at least 8 characters |
| `StrengthMeter.FailedRequirements` | src/renderer/App.tsx:226-230 | the loop adds at most one per requirement, so the failed-check count is at most five |
| `StrengthMeter.FailedChecks` | src/renderer/App.tsx:224-230 | the final `multiplier` is at least the length penalty and at most five |
| `StrengthMeter.Score` | src/renderer/App.tsx:232 | `Math.max(100 - (100/5)*m, 10)` is `100 - 20*m` for up to four failed checks and 10 for five |
| `StrengthMeter.Strength` | src/renderer/App.tsx:223-233 | every key scores between 10 and 100 |
| `StrengthMeter.GetStrength` | src/renderer/App.tsx:223-233 | the `multiplier` loop over the table computes the strength of the key, which lies in [10, 100] |
| `StrengthMeter.FailedChecksTable` | src/renderer/App.tsx:224-240 | the failed-check count is the length penalty plus one for each of the four absent classes |
| `StrengthMeter.FullStrengthIff` | src/renderer/App.tsx:224-240 | the score is 100 iff the key is longer than 7 and holds a digit, a lowercase letter, an uppercase letter and a special symbol |
| `StrengthMeter.LowestStrengthIff` | src/renderer/App.tsx:224-232 | the score is 10 iff all five checks fail |
| `StrengthMeter.EmptyKeyScoresTen` | src/renderer/App.tsx:224-232 | the empty key fails all five checks and scores 10 |
| `StrengthMeter.TestAppend` | src/renderer/App.tsx:227 | a class found in a key is still found after text is appended |
| `StrengthMeter.AppendNeverLowers` | src/renderer/App.tsx:224-232 | appending text to a key never lowers its score |
| `StrengthMeter.TypingNeverLowers` | src/renderer/App.tsx:224-232 | typing one more character never lowers the score |
| `StrengthMeter.GateIff` | src/renderer/App.tsx:302 | a key passes the 50% gate iff at most two of the five checks fail |
| `StrengthMeter.BarColor` | src/renderer/App.tsx:251 | teal exactly at 100; any score below 50 is red; yellow only above 50 and short of 100 |
| `StrengthMeter.ColorMatchesGate` | src/renderer/App.tsx:251 | the bar is red iff the gate refuses the key, teal iff no check fails, yellow iff one or two fail |
| `Generator.GeneratePassword` | src/renderer/App.tsx:192-200 | the result has exactly 24 characters, each from the charset literal |
| `Generator.GeneratedPassesLength` | src/renderer/App.tsx:192-200 | a generated password passes the length check and scores at least 20 |
| `Generator.GeneratorCanReachFull` | src/renderer/App.tsx:195 | the charset has a character of every class, so a full-strength result is possible |
| `Generator.GeneratorCanBeWeak` | src/renderer/App.tsx:192-200 | a possible result (24 `a`s) scores below 50 |
| `Confirm.ButtonDisabled` | src/renderer/App.tsx:97 | the same rule as line 408: an unticked box alone disables the button, so does a typed key other than the session key, and the two together enable it |
| `Confirm.ClickGuard` | src/renderer/App.tsx:97-100 | the click handler's guard holds exactly when the button is not disabled |
| `Session.ListDecision` | src/renderer/App.tsx:301-326 | the call is blocked iff three or more checks fail; the screen unlocks iff the key passes and the reply has no error, and then with the reply's records |
| `Session.ListRequests` | src/renderer/App.tsx:302-313 | `getPasswords` sends at most one request, and none exactly when it is blocked |
| `Session.Vault.constructor` | src/renderer/App.tsx:181-190 | the screen starts locked, with an empty key, no records and the delete-all confirmation clear |
| `Session.Vault.TypeMasterKey` | src/renderer/App.tsx:348-351 | typing in the master-key field sets the session key while the screen is locked |
| `Session.Vault.GetPasswords` | src/renderer/App.tsx:301-326 | sends the request only past the gate; unlocks and replaces the records only on a reply without error; otherwise both stay; an unlocked screen stays unlocked; keeps `Valid` (records shown only under a key that passed the gate) |
| `Session.Vault.CreatePassword` | src/renderer/App.tsx:290-300 | sends the new record, whatever the gate, then reloads the list as `getPasswords` does |
| `Session.DeleteFailed` | src/renderer/App.tsx:267 | only a truthy `error` counts as failure: an empty message is taken as success |
| `Session.Vault.DeletePassword` | src/renderer/App.tsx:253-283 | sends the deletion; on a reply with a non-empty error nothing else happens; otherwise (including an empty error) the list is reloaded |
| `Session.Vault.DeleteAllEnabled` | src/renderer/App.tsx:408 | the delete-all button is enabled only when the box is ticked and the typed key is the session key, which on the unlocked screen is never empty |
| `Session.Vault.OpenDeleteAll` | src/renderer/App.tsx:521-525 | opening "Remove All" clears the box and the typed key, so the delete-all button is disabled |
| `Session.Vault.CloseDeleteAll` | src/renderer/App.tsx:382 | closing the modal changes nothing else |
| `Session.Vault.TypeDeleteAllKey` | src/renderer/App.tsx:392 | the typed key is stored; the button is enabled iff the box is ticked and the key matches |
| `Session.Vault.TickDeleteAll` | src/renderer/App.tsx:397-403 | the box is stored; the button is enabled iff it is ticked and the typed key matches |
| `Session.Vault.ClickDeleteAll` | src/renderer/App.tsx:405-420 | a disabled button sends nothing and changes nothing; an enabled one wipes the store, reloads the list and closes the modal |
| `Session.PasswordCard.DeleteEnabled` | src/renderer/App.tsx:97 | the card's delete button is enabled iff the box is ticked and the typed key is the session key |
| `Session.PasswordCard.constructor` | src/renderer/App.tsx:60-63 | a new card has its modal closed and its delete button disabled |
| `Session.PasswordCard.OpenDeleteModal` | src/renderer/App.tsx:157-162 | the trash icon opens the modal and leaves the confirmation as it was |
| `Session.PasswordCard.CloseDeleteModal` | src/renderer/App.tsx:70 | closing the modal changes nothing else |
| `Session.PasswordCard.TypeConfirmKey` | src/renderer/App.tsx:82-84 | the typed key is stored; the button is enabled iff the box is ticked and the key matches |
| `Session.PasswordCard.TickConfirm` | src/renderer/App.tsx:88-90 | the box is stored; the button is enabled iff it is ticked and the typed key matches |
| `Session.PasswordCard.ClickDelete` | src/renderer/App.tsx:95-116 | `deleteFn` receives the card's record and the session key exactly when the button is enabled, and the modal closes with the confirmation kept; otherwise nothing changes |
| `Session.ReopenedCardStaysConfirmed` | src/renderer/App.tsx:157-162 | a card confirmed, closed and opened again has its delete button enabled at once |
| `Session.DeletedCardStaysConfirmed` | src/renderer/App.tsx:99-107 | after a deletion goes through, the card opened again has its delete button enabled at once |
| `Session.ReopenedDeleteAllIsDisabled` | src/renderer/App.tsx:518-525 | for every unlocked screen: confirming with the right key, closing without deleting and opening "Remove All" again leaves the delete-all button disabled |

## Left out

- Rendering, Mantine components, notifications, the progress bar itself, the requirement labels and the clipboard: display only.
- The backend: its replies are parameters and its requests are results. Encryption, storage and the main process are not part of this model.
- src/main/preload.ts is not part of this model; it exposes only `createPassword` and `getPasswords`, while `deletePassword` and `deleteAllPasswords` are modelled as the screen calls them.
- The distribution of `Math.random`: the generator draws an arbitrary index in `[0, n)`.
- Component identity: cards are keyed by list position, so after a deletion React may reuse a card's state for the next record; the model keeps one card object per record and shows the kept confirmation only through `DeletedCardStaysConfirmed`.
- Rejected backend calls: a call whose promise rejects stops its handler (for instance `createPassword` then never reloads the list); every modelled call returns a reply.
- Async ordering and stale closures: each handler runs to completion, and `getPasswords` reads the strength of the current session key.
- `Session.ListDecision`: a reply whose `error` field is the empty string is falsy in JavaScript and would be stored as the list; here every error reply keeps the screen locked, whatever its message.
- The add-password form fields (`newWebsite`, `newPassword`, `newNickname`) and the "Generate Password" button that fills `newPassword`: form plumbing around `createPassword` and `generatePassword`, which are modelled.
- Strings are sequences of characters; JavaScript's UTF-16 code units and `.length` on surrogate pairs are not distinguished.
- Widgets that live in a modal take input only while it is open: their handlers require it.

# jfa-go invite and account core, modelled in Dafny

jfa-go is a user-management front end for a Jellyfin media server. It issues
invite codes, and it creates accounts from them. It links each account to
Discord, Matrix and Telegram identities once those have been verified by a
PIN. It also keeps a few per-account stores: contact addresses, expiry dates
and profiles. This project models the state logic of `api.go` with the HTTP
layer and the external clients removed. A handler becomes a function or a
method. Its answer is a status code or a small outcome value. Every answer
from Jellyfin, Ombi, a chat bot or the file store becomes a parameter.

The modules follow the structure of the program:

- `Basics`: Go's zero-value map read (`MapGet`), `strings.Count` for one character, the success-status test, and the `60*hours + minutes` term.
- `Calendar`: `timeDiff` on civil date-time components. `CalendarDiff` is the specification, and the method `TimeDiff` follows the Go borrow chain statement by statement.
- `Templates`: the variable scanner of `GetCustomEmailTemplate`. It is a method that fills a pre-sized array, and it is proved against a recursive scan function.
- `Invites`: the `Invite` record and `checkInvite` as a function (`Check`). Also the invite that `GenerateInvite` builds, the code redraw loop, the `RemainingUses` display and the `SetNotify` merge of one invite.
- `Records`: the stored identity records (email, Discord, Matrix, Telegram, profile) and the email-field upsert shared by three handlers.
- `Verification`: the three PIN registries as objects. It also holds the Telegram first-match search and swap-with-last removal.
- `Responses`: `respond`/`respondBool`, the status rules of `ApplySettings` and `DeleteUsers`, the save-failure answer of the email handlers, and the `ExtendExpiry` guard.
- `Store`: `app.storage` as a class whose maps the handlers reassign. Its methods are `checkInvite`, `checkInvites`, `GenerateInvite`, `DeleteInvite`, `SetProfile`, `SetNotify`, `SetDefaultProfile`, `DeleteProfile`, the email handlers, `SetContactMethods` and `ExtendExpiry`.
- `Provisioning`: `newUser` and the `NewUser` handler. `NewUserSpec` specifies them on a snapshot of all stores (`World`). The class `App` runs them on the objects, together with the verification handlers (`MatrixCheckPIN`, `TelegramAddUser`, `TelegramVerified`, `TelegramVerifiedInvite`, `DiscordVerifiedInvite`).

Time is an integer count of Unix seconds. An invite has expired when the
current time is strictly after `ValidTill`. Go's zero `time.Time` is
-62135596800, and it is the `ValidTill` of a zero invite. Go's
`AddDate(0, months, days)` is an arbitrary function parameter `addDate`.
The model keeps only the minute offset that the source adds after it.
Go's map iteration order is given explicitly as a sequence (`SetNotify`) or
left to a nondeterministic choice (`checkInvites`, `SetDefaultProfile`).

## Model

| member | source | states |
|---|---|---|
| Responses.Respond | api.go:19-28 | the message is put in Response on 200/204 and in Error on any other code, with the other field empty; `RespondRoundTrip` shows a client gets the message back |
| Responses.RespondRoundTrip | api.go:19-28 | a client reads back exactly the message from the two fields; a non-empty message is in Response exactly on 200/204 |
| Responses.RespondBool | api.go:30-39 | Success is the value and Error its negation, whatever the code; `RespondBoolExclusive` shows exactly one flag is set |
| Responses.RespondBoolExclusive | api.go:30-39 | exactly one of Success and Error is set |
| Calendar.TimeDiff | api.go:62-106 | the borrow chain computes the calendar difference `CalendarDiff`, with sec, min in 0..59, hour in 0..23, day in 0..30, month in 0..11 and year >= 0 |
| Calendar.DiffBounds | api.go:62-106 | the result ranges hold for every pair of valid times |
| Calendar.DiffSymmetric | api.go:66-68 | timeDiff(a, b) == timeDiff(b, a), because the arguments are swapped when a is after b |
| Calendar.DiffZeroIffEqual | api.go:62-106 | the difference is all zeros exactly when the two times are equal |
| Calendar.BorrowDiffYearNonNegative | api.go:69-104 | when a is not after b, the borrows never make the year difference negative |
| Calendar.DaysIn | api.go:95-99 | the length of the month that time.Date(y, M, 32) normalises against is between 28 and 31 days (Gregorian leap rule) |
| Calendar.NormalizedDay | api.go:95-100 | day 32 of a month is normalised to a day 1..31 of the next month, by subtracting the month length |
| Calendar.BeforeTotal | api.go:66-68 | the time order used for the swap is total and antisymmetric |
| Invites.Check | api.go:157-222 | a missing code is invalid and changes nothing; an expired invite is deleted and invalid at any use count; an unused valid invite is unchanged; a used one is deleted at 1 remaining use and otherwise kept with the count decremented (0 stays 0) and one (username, now) pair appended; other codes are untouched |
| Store.Storage.CheckInvite | api.go:157-222 | the in-place update of the invites, the answer and the expiry notices equal those of `Check` |
| Invites.ExpiryRecipients | api.go:168-197 | an expiry notice goes to exactly the administrators whose notify-expiry flag is set, and only with notifications on |
| Invites.Consumed | api.go:205-216 | a kept invite loses one use unless it is at 0, gains exactly one UsedBy entry, and is otherwise unchanged |
| Invites.CheckKeepsUsesNonNegative | api.go:205-210 | checkInvite never takes a use count below zero |
| Invites.UsesExhaust | api.go:157-222 | an unexpired invite with N >= 1 uses admits exactly N consumptions and is invalid afterwards |
| Invites.NoLimitNeverExhausts | api.go:205-214 | a "no limit" invite (0 uses) survives any number of consumptions, stays at 0, and records every user in order |
| Invites.ConsumeAll | api.go:157-222 | repeated consumption yields one answer per consumption |
| Store.Storage.CheckInvites | api.go:108-155 | afterwards exactly the unexpired invites remain, unchanged; notices are sent for exactly the expired ones; the store is saved exactly when something expired |
| Invites.NewInvite | api.go:1081-1101 | single use gives 1 use; multiple uses with no limit give NoLimit and 0 uses, otherwise the requested count; the user-expiry fields are copied only with UserExpiry; an empty profile stays empty, an unknown one becomes "Default"; ValidTill is AddDate plus hours and minutes |
| Invites.SingleUseInviteConsumedOnce | api.go:1092-1094 | a fresh single-use invite is valid once before it expires and deleted by that use |
| Invites.PickCode | api.go:1075-1080 | the code is the first candidate whose first character is not a decimal digit |
| Store.Storage.GenerateInvite | api.go:1066-1153 | the stored code does not start with a digit, and the new invite is stored under it, overwriting any invite already there |
| Invites.DisplayedUses | api.go:1200-1203 | a non-zero RemainingUses is shown as is, and 0 ("no limit") is shown as 1, so a non-negative count is never shown below 1 |
| Store.Storage.DeleteInvite | api.go:1459-1474 | a present code is removed with 200; an absent code gives 400 and nothing changes |
| Store.Storage.SetProfile | api.go:1256-1271 | a non-empty unknown profile gives 500 and nothing changes; otherwise the invite gets the profile, and a missing code gets a zero invite carrying it |
| Invites.MergeFlag | api.go:1432-1441 | a flag is set exactly when the request carries it and it differs from the current value (missing reads as false) |
| Invites.MergeNotify | api.go:1424-1444 | the administrator's entry is created if missing; each of the two notify flags the request carries is set; every other entry and key is kept; changed holds exactly when some carried flag differed |
| Store.NotifyAll | api.go:1400-1448 | a missing code gives 400 and a missing administrator contact gives 500, each stopping the run with earlier entries kept; status 200 exactly when every code exists and the contact is known; the set of codes never changes |
| Store.NotifyAllOthersUnchanged | api.go:1400-1445 | invites the request does not name are unchanged |
| Store.NotifyAllSetsFlags | api.go:1400-1445 | after a successful run with distinct codes, every flag in the request is what the invite now holds for the administrator |
| Store.Storage.SetNotify | api.go:1396-1449 | the loop produces the status and invites of `NotifyAll`, and the invites are saved exactly on success with a changed flag |
| Store.Storage.SetDefaultProfile | api.go:1305-1324 | an unknown name gives 500 with nothing changed; otherwise only that profile is written back, with Admin set, and it becomes the default |
| Store.Storage.DeleteProfile | api.go:1373-1385 | the profile is removed, and the default is cleared exactly when it named that profile |
| Records.ApplyUpdate | api.go:1644-1649 | an update sets one field of the address record and keeps the others |
| Records.UpsertedEntries | api.go:1641-1651 | after the upsert loop an ID has a record exactly when it had one or is both fetched and requested; requested fetched IDs get the field, the rest keep their record |
| Store.Storage.UpsertEmails | api.go:1641-1651 | the loop over the fetched IDs computes `Upserted` |
| Store.Storage.SetAccountsAdmin | api.go:1631-1658 | a failed fetch gives 500 with nothing changed; otherwise the Admin flags are upserted for the fetched IDs, and the answer is the corrected single one (204 on a saved store, 500 otherwise), whose code is the first one the source writes |
| Store.Storage.ModifyLabels | api.go:1668-1695 | a failed fetch gives 500 with nothing changed; otherwise the Label is upserted for the fetched IDs, and the answer is the corrected single one, whose code is the first one the source writes |
| Store.Storage.ModifyEmails | api.go:1705-1740 | a failed fetch gives 500; otherwise the addresses are upserted for fetched IDs and the answer is 200 |
| Store.Storage.SetContactMethods | api.go:2602-2678 | an empty ID gives 400; only records that already exist get their Contact flag, in the order Telegram, Discord, Matrix, email; a failed save gives 500 and stops there; no record is created or removed |
| Store.ExtendedEntries | api.go:846-854 | every listed ID, and no other, gains an expiry: its old one extended, or now extended when it had none; unlisted IDs keep theirs |
| Store.Storage.ExtendExpiry | api.go:836-861 | a request with no positive offset gives 400 with nothing changed; otherwise the loop computes `Extended`, and the answer is 204 or 500 by the save |
| Responses.ApplySettingsStatus | api.go:1979-1982 | 500 exactly when the policy step or the homescreen step failed for as many users as the request lists, 200 otherwise; the two lemmas below show what this means for an empty request and for partial success |
| Responses.ApplySettingsPartialSuccess | api.go:1979-1982 | one listed user on whom both steps succeeded makes the answer 200 |
| Responses.ApplySettingsRepeatedUser | api.go:1979-1982 | the count is taken over the list, so a user listed twice on whom both steps failed is still answered 200 |
| Responses.ApplySettingsEmptyRequest | api.go:1979-1982 | a request naming no users is answered 500 |
| Responses.DeleteUsersAnswerAsWritten | api.go:817-825 | the all-failed branch is taken on an empty request, where it reads index 0 of an empty list |
| Responses.DeleteNobodyAsWritten | api.go:817-820 | an empty DeleteUsers request takes the all-failed branch and panics |
| Responses.DeleteUsersAnswer | api.go:817-825 | the all-failed answer needs a non-empty request where every user failed; a partial failure reports the failed set |
| Responses.DeleteUsersAnswerCorrect | api.go:817-825 | the corrected rule answers 200 exactly when no user failed, and agrees with the source on every non-empty request |
| Responses.EmailStoreResponsesAsWritten | api.go:1652-1657 | a failed save writes a 500 response and then also the 204 success |
| Responses.EmailStoreFailureAnswersTwice | api.go:1652-1657 | the failing save produces [500, 204] |
| Responses.EmailStoreResponses | api.go:1652-1657 | one answer per request, a success exactly when the save succeeded |
| Responses.EmailStoreResponsesAgree | api.go:1689-1694 | the corrected answer equals the source's on a successful save and is its first answer on a failed one |
| Templates.ScanVariables | api.go:2376-2393 | the array has one slot per '{'; the scan succeeds exactly when there are no more '}' than '{'; then the first slots hold the closed entries and the rest are "" |
| Templates.Closed | api.go:2380-2392 | one entry is closed per '}' |
| Templates.ScanFromWellFormed | api.go:2380-2392 | every closed entry ends in '}' and contains no other '}' |
| Templates.ScanFromLength | api.go:2380-2392 | the scan closes one entry per '}' in any state |
| Templates.Padded | api.go:2376 | the pre-sized slice keeps the closed entries in order and leaves the other slots "" |
| Templates.ScanFindsPlaceholders | api.go:2376-2393 | a template of non-nested `{name}` placeholders yields exactly those placeholders, in order, and has one '{' per placeholder |
| Templates.ScannedTemplate | api.go:2376-2393 | on such a template the scan does not fail and every slot holds a placeholder |
| Verification.TokenIndex | api.go:422-428 | the first index whose token equals the PIN, or -1 exactly when none does |
| Verification.FindToken | api.go:2559-2564 | the search loop returns `TokenIndex` |
| Verification.TelegramDaemon.SwapRemove | api.go:586-587 | the slice after swap-with-last and truncation is `SwapRemoved` of the old one |
| Verification.SwapRemovedDropsOne | api.go:2586-2587 | swap-removal shortens the slice by one and removes exactly the token at that index from its multiset |
| Provisioning.GatePassesIff | api.go:339-437 | the checks pass exactly when the user name is free and each enabled provider's check passes |
| Provisioning.GateOrder | api.go:339-437 | the first failing check, in the order existing user, Discord, Matrix, Telegram, decides the error |
| Provisioning.RequiredProviderIff | api.go:352-360 | a provider's "verification" error happens exactly when it is enabled and required, no PIN was given, and the earlier checks passed |
| Provisioning.InvalidPINIff | api.go:361-436 | errorInvalidPIN happens exactly when the first failing provider was given a PIN it does not know (for Matrix, or has not verified) |
| Provisioning.RejectionsLeaveWorld | api.go:339-487 | every refusal except the confirmation gate, including a failed account creation, leaves all invites, registries and links unchanged |
| Provisioning.ConfirmationGateAppendsKey | api.go:438-477 | with confirmation required, one key is appended to the invite's Keys, nothing else changes, and the answer is 401 "confirmEmail" |
| Provisioning.ConfirmedSkipsGate | api.go:438 | a confirmed request behaves as if confirmation were switched off |
| Provisioning.CreatedIff | api.go:338-650 | an account is created exactly when the checks pass, the gate does not apply and the account service succeeds |
| Provisioning.CreationConsumesInvite | api.go:488-523 | creation consumes the invite through one checkInvite(code, true) and applies the invite's profile, with the "Default" fallback |
| Provisioning.CreationUsesUpSingleUseInvite | api.go:488-490 | creating from a valid single-use invite deletes it |
| Provisioning.CreationConsumesPINs | api.go:557-633 | the Discord PIN is deleted only when its links were saved, the Matrix PIN always, and the Telegram token is swap-removed only when its links were saved, taking exactly that token out |
| Provisioning.CreationLinksIdentities | api.go:541-633 | each verified identity is linked to the new account with the requested Contact flag; the address is stored with Contact on; the expiry is AddDate plus 60*hours+minutes minutes when the invite sets one |
| Provisioning.Gate | api.go:339-437 | every refusal of the checks before confirmation is 401, and an existing user name is always refused |
| Provisioning.NewUserSpec | api.go:338-650 | a refusal is 401 or 500; a 500 is "errorUnknown" and changes nothing; a created account has the ID the account service gave; profiles and languages are untouched |
| Provisioning.NewUserHandlerSpec | api.go:659-703 | the handler answers a validation map with 200 or a message with 400, 401 or 500; a failed captcha is 400 with nothing changed; profiles are untouched |
| Provisioning.HandlerCreatesOnlyFromValidInvite | api.go:659-703 | the handler creates an account only from an invite that is present and unexpired at the handler's own check; at newUser's later instant it is used up (deleted once single-use, otherwise one use recorded), or deleted as expired when it expired in between |
| Provisioning.App.Screen | api.go:339-437 | the step-by-step checks give the answer of `Gate` and find the Telegram token newUser links |
| Provisioning.App.NewUser | api.go:338-650 | the state after newUser and its answer are those of `NewUserSpec`; the default profile and the profile map are not touched |
| Provisioning.App.Provision | api.go:488-634 | everything after account creation leaves the state and answer of `Create` |
| Provisioning.App.Answer | api.go:515-541 | the answer carries the chosen profile, which of its parts are applied, and whether a welcome message is sent |
| Provisioning.App.Register | api.go:488-556 | the invite is consumed through checkInvite, the address is stored and the user expiry is set, as `Registered` says |
| Provisioning.App.LinkDiscord | api.go:557-568 | as `DiscordLinked` |
| Provisioning.App.LinkTelegram | api.go:569-589 | as `TelegramLinked` |
| Provisioning.App.LinkMatrix | api.go:624-634 | as `MatrixLinked` |
| Provisioning.App.MatrixCheckPIN | api.go:2819-2842 | an unknown invite gives 401 false; an unknown PIN or one sent to another user gives 200 false; otherwise the PIN is marked Verified and the answer is 200 true; no other PIN changes |
| Provisioning.App.TelegramAddUser | api.go:2551-2591 | empty token or ID gives 400 and an unknown token 500, changing nothing; otherwise the link is set with Contact on, the token is swap-removed only when the save succeeded, and the answer is 200 |
| Provisioning.App.TelegramVerified | api.go:2687-2702 | 200, and true exactly when some verified token equals the PIN |
| Provisioning.App.TelegramVerifiedInvite | api.go:2712-2732 | an unknown invite gives 401 false, otherwise as TelegramVerified |
| Provisioning.App.DiscordVerifiedInvite | api.go:2742-2751 | an unknown invite gives 401 false, otherwise 200 and whether the PIN is verified |

## Left out

- HTTP binding and JSON bodies: each handler takes its request fields as parameters and returns a status (and, where it matters, the response body shape).
- Jellyfin calls (user lookup, creation, policy, configuration, display preferences, the user list) are boolean or optional parameters. So are the Discord role assignment, the captcha and the password validator.
- Ombi: the Ombi user creation and notification linking in newUser, the Ombi part of DeleteUsers, ApplySettings and ModifyEmails, and getOmbiUser are not part of this model. They are calls into a foreign service.
- Messages: construction and sending of expiry, creation, confirmation, welcome, invite and deletion messages, and the goroutines doing it, are I/O. The model returns only who is notified (expiry notices) or whether a welcome is sent.
- JWT signing of the confirmation token is cryptography. The token is an optional parameter (None when signing fails).
- Persistence: load and store calls are file I/O. A store that the source checks is a success parameter; unchecked stores are omitted.
- Locks (`usersLock`) are concurrency and are not modelled.
- Calendar arithmetic: Time.AddDate is an arbitrary function parameter. Locations, daylight saving and the formatting helpers (strftime, prettyTime, formatDatetime) are left out. Calendar.TimeDiff works on civil components already in one location, which step 1 of timeDiff (converting b to a's location) produces.
- GenerateInvite: the SendTo delivery (Discord user search, message sending) is reduced to the resulting SendTo text, a parameter. The random code generator is a sequence of candidate codes.
- GetInvites: only the RemainingUses display is modelled. The rest is DTO assembly with time formatting.
- Store.Storage.SetNotify: does not model that Go stores the administrator's inner settings map into the invite by reference even when no flag changed. The model merges by value and writes the invite back only once some flag has changed.
- Store.Storage.SetAccountsAdmin: answers with the corrected single response. After a failed store the source also writes a 204 (api.go:1652-1657); `Responses.EmailStoreResponsesAsWritten` models that and the contract states that the first code agrees with it.
- Store.Storage.ModifyLabels: answers with the corrected single response. After a failed store the source also writes a 204 (api.go:1689-1694), as for SetAccountsAdmin.
- Provisioning.App.NewUser: reads one instant (`ext.now`) for both the checkInvite inside newUser and the user expiry base (api.go:490, 551); the two clock reads of the source are taken as equal. The handler's own check has its own instant.
- Provisioning.App.NewUser: the localized text of the errorUnknown answer after a failed account creation is a constant.
- Provisioning.App.NewUser: the Discord role is applied before later checks, which may still refuse the request. That role is an external effect and is absent from the state.
- The NewUser handler's final 200/400 split over the password validation map is constant 200 here. A password that fails validation is answered earlier.
- NewUserAdmin, CreateProfile, GetProfiles, GetUsers, EnableDisableUsers, the announcement, custom-email, config, language, update, log and restart handlers, the Telegram PIN and Discord invite handlers, MatrixSendPIN, MatrixLogin, MatrixConnect, DiscordGetUsers and DiscordConnect are outside the core that is modelled. They are thin wrappers around external clients or configuration files.
- Integer widths: Go's int is taken as unbounded. No arithmetic here comes near 64-bit overflow except the seconds of far-future dates, which are not modelled.

## Findings

| source | as written | input that shows it | evidently intended | confidence | as-written member | corrected member |
|---|---|---|---|---|---|---|
| api.go:817-820 | `len(errors) == len(req.Users)` is tested first, then `errors[req.Users[0]]` is read | a DeleteUsers request with an empty user list: 0 == 0 takes the all-failed branch and indexes an empty slice | an empty request deletes nothing and succeeds | high, not executed | Responses.DeleteUsersAnswerAsWritten, Responses.DeleteNobodyAsWritten | Responses.DeleteUsersAnswer, Responses.DeleteUsersAnswerCorrect |
| api.go:1652-1657, 1689-1694 | after a failed store, `respondBool(500, false)` has no `return`, so `respondBool(204, true)` follows | SetAccountsAdmin or ModifyLabels where storeEmails fails: two responses are written, the second claiming success | answer 500 once and stop | high, not executed | Responses.EmailStoreResponsesAsWritten, Responses.EmailStoreFailureAnswersTwice | Responses.EmailStoreResponses, Responses.EmailStoreResponsesAgree |

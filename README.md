# Telegram UI bot: navigation, local store and routing rules

This project models the core of a Telegram "UI bot" in Dafny and proves properties of the model. The bot shows each user one screen at a time (home, menu, plans, settings and so on). It keeps per-user navigation state in a local SQLite store. It routes button presses (`callback_data` tokens) to settings changes, plan purchases, admin actions and signal requests. A small HTTP endpoint relays stored ciphertexts to a core service. A payment stub creates crypto payments that always stay pending.

The model is split into modules that follow the program:

- `UserStore` (user_store.dfy): the three tables `users`, `user_credentials` and `user_states`. They are held by the class `LocalStore` as maps that its methods update in place. Reads create a default profile first, as `ensure_user` does.
- `Navigation` (navigation.dfy): the per-user navigation state (`current_screen`, `nav_stack`) as a pure state machine. It is tied to the `user_states` rows that hold that state.
- `Screens` (screens.dfy): the keyboards `render_screen` and `_nav_kb` build, as data: which buttons, with which actions. The HTML text is abstract.
- `Routing` (routing.dfy): the order in which `callback_router` tells `callback_data` apart, with the round trip between a button's action and its data. Also the root-admin predicate, `_parse_target_id`, the gates of `_handle_signal`, plan prices and the `plan:check` decision.
- `Translation` (translation.dfy): the fallbacks of `tr`, over `str.format` as modelled in `Strings`.
- `Payments` (payments.dfy) and `CredentialRelay` (credential_relay.dfy): the payment stub and the `/get_po_credentials` endpoint, both pure.
- `Transport` (transport.dfy): Telegram and Supabase reduced to logs. A `Gateway` records deletes and sends. A `SignalSink` records inserted `signal_requests` rows.
- `Bot` (bot.dfy): the class `UiBot`, whose methods are `send_ui`, `show_screen`, the branches of `callback_router`, `_handle_signal`, `/signal` and the root-only moderation commands. Each method is proved against a specification function (`ShowSpec`, `BackSpec`, `UiEvents`, `WithSetting`, `OfferedPayment`, `PaidUpgrade`, `SignalGate`, `ModeratedUsers`). Lemmas give those functions their meaning. What a button press does is stated once, branch by branch, by the function `Press`: the users and states tables it leaves, the events it asks of Telegram and the number of messages it sends (`Effect`). Every branch method of the router, and the router itself after deleting the clicked message, ends exactly in that effect. Lemmas about `Press` show that every press keeps the invariant `Contained`: a press touches only the pressing user's rows. It changes a setting only through an accepted value, and the plan and flags only through `plan:select:free` or the root admin's `admin:give:`.

Three behaviours of the code are reproduced as written:

- Signals require the plan `pro` or `vip` (main.py:864), although the keyboards sell only free, long, short and vip. `SoldPlansLongShortBlocked` states the consequence.
- `callback_router` passes `request_type` to `_handle_signal`, which takes no such parameter (main.py:744, 859). The `action:signal` branch therefore ends in a `TypeError` (`Outcome.TypeErrorRaised`) before anything is sent or stored.
- `nav:back` stores the popped stack before `show_screen` checks the ban (main.py:730-731). A banned user therefore loses the tail of the stack while the current screen stays (`BackSpecMeaning`).

Other readings of the code worth knowing:

- `admin:give:<plan>` gives the plan, the admin flag and the unban to the root admin's own profile, not to another user (main.py:772).
- With the stub payment provider, `plan:check` never upgrades (`StubNeverUpgrades`).
- A moderation target of 0 is treated like a missing one (main.py:923).
- api_server.py does not check the caller: its bearer-key check is commented out (api_server.py:33-34), and `request_source` is never read, so the answer never depends on it (`SourceIgnored`). The variant endpoint inside main.py does refuse an unknown `request_source` with 403 (main.py:559-560); that variant is not part of this model.

## Model

| member | source | states |
|---|---|---|
| Strings.ParseDecimalString | main.py:907 | `int(str(n))` gives back n for every integer, the sign included |
| Strings.FormatField | main.py:287 | a template that is a single `{name}` field formats to the argument for `name` |
| Strings.FormatMissingField | main.py:286-289 | a field without a matching argument makes `format` fail |
| Strings.FormatPlain | main.py:287 | a template without braces formats to itself, whatever the arguments |
| Strings.Format | main.py:287 | `str.format` with keyword arguments: a template without braces comes back unchanged; `FormatField`, `FormatMissingField` and `FormatPlain` give the field and failure cases |
| Strings.ParseInt | main.py:907 | `int()` of stripped text: a result is only ever read from text holding a digit; `ParseDecimalString` and `NoDigitNoInt` give the round trip and the failure case |
| Translation.UnknownLanguageUsesRussian | main.py:284 | a language without a table is served exactly as "ru" |
| Translation.MissingKeyUsesRussian | main.py:285 | a key missing from the chosen table, with a non-empty "ru" entry, is served as in "ru" |
| Translation.MissingEverywhereShowsKey | main.py:285-287 | a key without braces found in neither table is shown as the key itself |
| Translation.FormatFailureShowsTemplate | main.py:286-289 | when formatting fails, `tr` returns the raw template |
| Translation.PlainTemplateVerbatim | main.py:286-287 | a template without placeholders is shown verbatim |
| Translation.TableFor | main.py:284 | the user's table when the language has a non-empty one, otherwise the "ru" table |
| Translation.Template | main.py:285 | the template is the key itself or an entry of the chosen or the "ru" table, and is empty only for the empty key |
| Translation.Tr | main.py:283-289 | the formatted template when formatting succeeds, and the raw template when it fails |
| Payments.CreateCryptoPayment | payments.py:31-49 | a new payment is pending, its id is "cp_" plus the 16-hex token, its pay URL is the base plus that id, and user, plan, amount and currency are the arguments (currency "USDT" by default) |
| Payments.CheckCryptoPaymentStatus | payments.py:52-58 | every payment id is reported "pending" |
| Payments.PaymentIdsDistinct | payments.py:36 | distinct tokens give distinct payment ids |
| UserStore.Ensured | user_db_handler.py:116-139 | after `ensure_user` the user has a row: the old one if it existed, the defaults ru/USD/free/0/0 otherwise |
| UserStore.EnsureIdempotent | user_db_handler.py:116-139 | `ensure_user` twice is `ensure_user` once, and no other user's row changes |
| UserStore.SafeFields | user_db_handler.py:167-176 | exactly the arguments named in the seven-column allow-list are kept |
| UserStore.UnlistedFieldsDropped | user_db_handler.py:176-186 | applying all arguments equals applying only the allowed ones |
| UserStore.NoAllowedFieldsNoChange | user_db_handler.py:176-178 | with no allowed argument the profile is unchanged |
| UserStore.SetThenGet | user_db_handler.py:193-232 | a stored value reads back as itself, `None` included |
| UserStore.SetLeavesOthers | user_db_handler.py:201-210 | the upsert leaves every other (user, key) reading as before |
| UserStore.DeleteThenGet | user_db_handler.py:237-248 | after a delete the key reads as the caller's default, and no other row changes |
| UserStore.DropUser | user_db_handler.py:343 | exactly the rows of other users remain, unchanged |
| UserStore.LoginPassword | user_db_handler.py:306-314 | the pair is returned iff the row exists and both halves are non-empty, and then it is exactly the stored pair |
| UserStore.SsidOf | user_db_handler.py:323-331 | the ssid is returned iff the row exists and holds a non-empty ssid |
| UserStore.SaveThenRead | user_db_handler.py:251-316 | saving a non-empty pair and reading it back gives that pair |
| UserStore.EmptyHalfNotReturned | user_db_handler.py:312-314 | a pair with an empty half is not returned |
| UserStore.SavesMergeByField | user_db_handler.py:256-296 | saving the pair keeps the ssid, and saving the ssid keeps the pair |
| UserStore.SsidOnlyRowHasNoPair | user_db_handler.py:285-314 | a row created by an ssid save alone yields no pair but does yield the ssid |
| UserStore.ResetLooksFresh | user_db_handler.py:336-349 | after a reset the user reads as new (default profile, no credentials, default states), and every other user reads as before |
| UserStore.StateIn | user_db_handler.py:217-234 | an absent (user, key) reads as the default; any other answer is the stored JSON value |
| UserStore.WithLoginPassword | user_db_handler.py:256-274 | the saved row holds the given login and password and keeps the old ssid |
| UserStore.WithSsid | user_db_handler.py:281-296 | the saved row holds the given ssid and keeps the old login and password |
| UserStore.NoProfileNoRows | user_db_handler.py:88-107 | under the foreign keys, a user without a profile has no credentials row and no state row, so every state reads as the default |
| UserStore.LocalStore.constructor | user_db_handler.py:66-110 | a new store has three empty tables and satisfies the foreign keys |
| UserStore.LocalStore.EnsureUser | user_db_handler.py:116-139 | the users table becomes `Ensured`, and the other tables are unchanged |
| UserStore.LocalStore.GetUserProfile | user_db_handler.py:142-157 | returns the stored profile or the defaults, leaving a default row behind for a new id |
| UserStore.LocalStore.UpdateUserProfile | user_db_handler.py:160-190 | no arguments: nothing changes; otherwise the row is ensured and the allowed arguments are applied |
| UserStore.LocalStore.SetUserState | user_db_handler.py:193-214 | upserts (user, key) to the value and ensures the user |
| UserStore.LocalStore.GetUserState | user_db_handler.py:217-234 | returns the decoded value, or the default when the row is absent or undecodable |
| UserStore.LocalStore.DeleteUserState | user_db_handler.py:237-248 | removes exactly the (user, key) row |
| UserStore.LocalStore.SaveEncryptedCredentials | user_db_handler.py:251-274 | sets login and password in the user's row, keeping its ssid |
| UserStore.LocalStore.SaveEncryptedSsid | user_db_handler.py:277-298 | sets the ssid in the user's row, keeping login and password |
| UserStore.LocalStore.GetEncryptedCredentials | user_db_handler.py:301-316 | returns `LoginPassword` of the stored row, after ensuring the user |
| UserStore.LocalStore.GetEncryptedSsid | user_db_handler.py:319-333 | returns `SsidOf` of the stored row, after ensuring the user |
| UserStore.LocalStore.ResetUserData | user_db_handler.py:336-349 | deletes the user's states, credentials and profile, without ensuring the user first; afterwards the user has no profile, so by `NoProfileNoRows` no row of theirs is left |
| CredentialRelay.GetPoCredentials | api_server.py:25-57 | success iff the store answers with a pair, carrying the request's user id and that pair unchanged; 404 when it answers with none; 500 "Internal database error" when it raises |
| CredentialRelay.NotFoundIsReraised | api_server.py:41-53 | the 404 raised in the try block reaches the caller unchanged and never becomes a 500 |
| CredentialRelay.SourceIgnored | api_server.py:20-39 | `request_source` does not affect the response |
| CredentialRelay.SavedPairRelayed | api_server.py:39-50 | a saved pair is relayed exactly as saved, not decrypted |
| CredentialRelay.SsidOnlyNotFound | api_server.py:39-42 | a user with only an ssid gets 404 |
| Routing.NavRoundTrip | main.py:737-741 | `nav:<screen>` for a listed screen other than home opens that screen |
| Routing.SetRoundTrip | main.py:747-755 | `set:lang:` and `set:currency:` data carry their code through |
| Routing.AdminGiveRoundTrip | main.py:769-770 | `admin:give:<p>` is routed as a give of p stripped and lower-cased |
| Routing.AdminFlowRoundTrip | main.py:778-779 | `admin:flow:<a>` is routed as a flow start of a stripped |
| Routing.AdminRoundTrip | main.py:761-794 | every normalised admin action routes back to itself |
| Routing.PlanRoundTrip | main.py:796-843 | `plan:select:` and `plan:check:` data carry their argument through |
| Routing.CallbackRoundTrip | main.py:723-843 | the data of every routable action is routed back to that action |
| Routing.AdminPrefixRouted | main.py:761 | data reaches an admin branch iff it starts with "admin:" |
| Routing.ParseCallback | main.py:723-843 | a listed screen is the only target of `nav:`, and data routed to a non-admin branch is exactly that action's data; `CallbackRoundTrip` and `AdminPrefixRouted` give the round trip and the admin prefix |
| Routing.ParseAdminUserId | main.py:66-70 | a configured root-admin id is never 0 |
| Routing.RootAdminFromEnvironment | main.py:66-74 | with ADMIN_USER_ID set to n, user u is the root admin iff n != 0 and u == n |
| Routing.NoRootAdminByDefault | main.py:66-74 | with ADMIN_USER_ID unset nobody is root admin, and user 0 never is |
| Routing.IsRootAdmin | main.py:73-74 | true only for the configured, non-zero id; never when none is configured |
| Routing.ParseTargetId | main.py:903-909 | no arguments give no target |
| Strings.StripKeeps | main.py:907 | every character `strip` returns was in its input |
| Strings.NoDigitNoInt | main.py:906-909 | text without a digit is not a number |
| Routing.NonNumericTargetIgnored | main.py:903-909 | a first argument without a digit gives no target |
| Routing.TargetIdRoundTrip | main.py:903-909 | a first argument that is the decimal form of n gives target n, whatever follows |
| Routing.SignalGate | main.py:859-875 | requires-plan iff the plan is not pro/vip; requires-PO iff it is but there is no pair; unavailable iff both hold but there is no sink; submit iff all three hold |
| Routing.SoldPlansLongShortBlocked | main.py:864 | the sold plans free, long and short never pass the signal plan gate |
| Routing.PlanPrice | main.py:811 | vip costs 25, long and short cost 10 |
| Routing.PaidUpgrade | main.py:848-850 | upgrade iff the status is paid and the pending payment has the checked id, and then to the pending plan |
| Routing.StubNeverUpgrades | main.py:848-855 | with the stub provider, `plan:check` never upgrades |
| Screens.NavKb | main.py:380-386 | no row iff neither control is asked for, and at most one row |
| Screens.NavKbActions | main.py:380-386 | the row holds the back control iff asked, the home control iff asked, and nothing else |
| Screens.ScreenButtonsFollowLayout | main.py:412-489 | a screen's buttons are its descriptor's buttons, row for row, with the same actions |
| Screens.LayoutsProper | main.py:412-489 | every descriptor button routes back to its own action, is not a navigation control, and offers only a sold plan |
| Screens.ScreenButtonsProper | main.py:412-489 | the screen's own buttons are proper and hold no back or home control |
| Screens.ControlRules | main.py:394-396 | on a known screen, back appears iff the stack is non-empty and the screen is not home; home appears iff the screen is not home |
| Screens.FallbackKeyboard | main.py:492-495 | an unrecognised screen renders a single home button and no back control |
| Screens.EveryButtonRoutes | main.py:412-495 | every drawn button carries data the router reads back as that button's action, and offers only a sold plan |
| Screens.RenderKeyboard | main.py:389-400 | the keyboard is inline; on home it is exactly the home buttons; on a known screen it starts with that screen's own buttons; on any other screen it is one row; `ControlRules` and `FallbackKeyboard` give the controls |
| Screens.RenderScreen | main.py:389-400 | the keyboard is `RenderKeyboard` for the profile's language, and an unknown screen shows the fallback text |
| Screens.PoStatusOnlyOnHome | main.py:398-400 | whether PO credentials are stored changes only the home screen |
| Navigation.Last20 | main.py:372 | the stored stack is the last min(n, 20) entries |
| Navigation.Step | main.py:365-374 | an open lands on the target; its stack is emptied first when `clear_stack` is set, then gains the old screen (keeping the last 20) iff it pushes to a different screen; home and back on an empty stack give home with an empty stack; back pops exactly the tail and lands on it |
| Navigation.ClearedHomeIsStart | main.py:723-724 | opening home with the stack cleared and nothing pushed is the same step as `nav:home`, and ends on home with an empty stack |
| Navigation.ClearedOpenStack | main.py:365-374 | a clearing open leaves at most one entry, and none iff it does not push or re-opens the current screen |
| Navigation.StepBounded | main.py:372 | every transition keeps the stack within 20 entries |
| Navigation.RunBounded | main.py:372 | so does every sequence of transitions |
| Navigation.BackUndoesOpen | main.py:727-732 | back after a pushing open of a different screen restores the state, below 20 entries |
| Navigation.FullStackDropsOldest | main.py:369-372 | on a full stack a push drops the oldest entry |
| Navigation.OpenWithoutPush | main.py:369-374 | opening without push, or re-opening the current screen, leaves the stack alone |
| Navigation.MenuPlansBackBack | main.py:723-741 | home, menu, plans, back, back ends on home with an empty stack |
| Navigation.StackAfterWrite | main.py:333-335 | `_nav_stack` reads back a written stack, and the current screen is unaffected |
| Navigation.CurrentAfterWrite | main.py:338-340 | `_current_screen` reads back a written screen, and the stack is unaffected |
| Navigation.ShowStatesStep | main.py:365-374 | the `user_states` writes of `show_screen` make the stored navigation state take one open step |
| Navigation.ShowStatesFrame | main.py:365-374 | those writes touch only the user's `nav_stack` and `current_screen` rows |
| Navigation.ShowStates | main.py:365-374 | after the writes the stored current screen is the target; `ShowStatesStep` and `ShowStatesFrame` give the stack and the frame |
| Transport.Gateway.DeleteMessage | main.py:300-304 | the delete attempt is appended to the log and no message id is used |
| Transport.Gateway.SendMessage | main.py:323-329 | the message is appended with the next message id, which is returned |
| Transport.SignalSink.Insert | main.py:499-506 | the row `{user_id, request_type, "pending"}` is appended iff the insert succeeds, and the result says whether it did |
| Bot.UiEvents | main.py:316-329 | the previous UI message is deleted iff both its chat id and message id are set, then exactly one send follows |
| Bot.ShowSpecMeaning | main.py:343-377 | a banned non-root user gets only the banned message and no state change; anyone else takes one open step, only the nav rows change, and the controls follow the stack |
| Bot.BackSpecMeaning | main.py:727-735 | `nav:back` is one back step for a user who may navigate; for a banned user the pop is stored while the current screen stays |
| Bot.ShowSpec | main.py:343-377 | a blocked user leaves the states as they were; anyone else ends on the target screen; `ShowSpecMeaning` gives the rest |
| Bot.BackSpec | main.py:727-735 | a user who may navigate ends on the top of the old stack, or on home when it was empty; `BackSpecMeaning` gives the rest |
| Bot.Press | main.py:723-856 | at most two messages per press, and a press that sends nothing changes no state and asks nothing of Telegram; `PressContained` and `Dispatch` give the rest |
| Bot.GivePress | main.py:770-774 | the give of a paid plan sends two messages: "admin_done", then home; `GiveContained` and `GivePlan` give the rest |
| Bot.GivePressEnsured | main.py:761-774 | the give's effect is the same whether or not the user's row was ensured first |
| Bot.GiveContained | main.py:770-774 | the give of a paid plan is contained |
| Bot.WithSetting | main.py:747-757 | the language changes only to a catalog language, the currency only to USD/EUR/RUB, and nothing else changes |
| Bot.OfferedPayment | main.py:806-812 | the created payment is pending, for the lower-cased plan, at 25 for vip and 10 otherwise, in USDT |
| Bot.OfferMatchesPending | main.py:811-853 | the offer's check button carries the stored payment's id through the router, and a check upgrades to the chosen plan iff the provider says paid |
| Bot.ModerationEffect | main.py:912-1008 | after a moderation command the target's flag is set (or the target reads as new after a reset), and no third user changes |
| Bot.NavPressContained | main.py:723-741 | every `nav:` press is contained |
| Bot.SettingPressContained | main.py:747-759 | every `set:` press is contained |
| Bot.AdminPressContained | main.py:761-794 | every `admin:` press is contained; a non-root press leaves the states alone |
| Bot.SelectPressContained | main.py:796-840 | every `plan:select:` press is contained; only "free" changes the plan |
| Bot.CheckPressContained | main.py:842-856 | every `plan:check:` press is contained, since the stub provider never reports a payment as paid |
| Bot.PressContained | main.py:704-856 | every press, whatever its data, is contained |
| Bot.AdminPressEnsured | main.py:762-765 | the `admin:` effect is the same whether or not the user's row was ensured first |
| Bot.NavPressSteps | main.py:723-741 | for a user who may navigate, `nav:home`, `nav:back` and `nav:<screen>` are the home, back and pushing open steps of the navigation state machine; for a blocked user home and open move nothing; each sends one message |
| Bot.UiBot.SendUi | main.py:307-330 | the gateway log gains `UiEvents` and the profile records the new chat id and message id, nothing else changes |
| Bot.UiBot.NavStack | main.py:333-335 | returns the stored stack, or [] when absent or not a list |
| Bot.UiBot.CurrentScreen | main.py:338-340 | returns the stored screen, or "home" when absent or not a string |
| Bot.UiBot.Render | main.py:389-400 | returns the keyboard-level rendering of the screen from the profile, the stack and whether a pair is stored |
| Bot.UiBot.Navigate | main.py:365-374 | the states become `ShowStates`: clear, conditional push, truncation, then the target recorded |
| Bot.UiBot.ShowScreen | main.py:343-377 | states and messages are as `ShowSpec` says, and the profile records the sent message |
| Bot.UiBot.OnNavBack | main.py:727-735 | states and messages are as `BackSpec` says |
| Bot.UiBot.StoreSetting | main.py:747-757 | only an accepted code is written to the profile |
| Bot.UiBot.OnSetting | main.py:747-759 | the accepted setting is stored, then the settings screen is shown without push |
| Bot.UiBot.OnPlanSelect | main.py:796-840 | "free" sets the plan and shows plans; an unknown plan only shows plans; a paid plan stores the pending payment and offers it |
| Bot.UiBot.SelectFree | main.py:801-804 | the plan becomes "free", then the plans screen is shown |
| Bot.UiBot.OfferPayment | main.py:811-840 | the pending payment is stored and the offer is sent |
| Bot.UiBot.ApplyPaymentCheck | main.py:848-855 | with an upgrade the plan changes and the pending payment is cleared; otherwise only the pending message is sent |
| Bot.UiBot.OnPlanCheck | main.py:842-856 | with the stub provider, only the pending message is sent and no state changes |
| Bot.UiBot.OnAdmin | main.py:761-794 | the store and the log end as `AdminPress` says: a non-root user gets only "admin_denied"; the root admin's give of a paid plan, flow start, or other press as below; one message is sent per `send_ui` |
| Bot.UiBot.RootAdmin | main.py:769-794 | a give of a paid plan ends as `GivePress`, a flow start stores the flow and sends the prompt, a give of another plan and any other `admin:` data change nothing |
| Bot.UiBot.StartAdminFlow | main.py:778-794 | the admin flow is stored and the prompt for the action is sent with a home control, as one message |
| Bot.UiBot.GivePlan | main.py:769-776 | the admin's own profile gets the plan, the admin flag and the unban, the flow is cleared, "admin_done" is sent, then home is shown with the stack cleared: two messages |
| Bot.UiBot.AcknowledgeGrant | main.py:771-773 | the grant's store writes, then "admin_done" sent as one message |
| Bot.UiBot.GrantPlan | main.py:771-772 | the store writes of a give: plan, admin and unban flags, and a cleared admin flow |
| Bot.UiBot.HandleSignal | main.py:859-883 | the first failing gate decides the message; on submit exactly one `{user, "latest_signal", "pending"}` row is inserted; no state changes |
| Bot.UiBot.SignalCommand | main.py:695-700 | the command message is deleted, then `_handle_signal` runs |
| Bot.UiBot.StartCommand | main.py:575-587 | the user is ensured; the root admin's profile gets `is_admin=1`; the command message, if any, is deleted; home is shown with the stack cleared, as one message; a user who may navigate ends in the start state (home, empty stack) |
| Bot.UiBot.ModerationCommand | main.py:912-1008 | non-root: "admin_denied"; no or zero target: "admin_bad_args"; otherwise the moderation write and "admin_done" |
| Bot.UiBot.Moderate | main.py:927-928 | sets the target's flag after ensuring the target, or resets the target's data |
| Bot.UiBot.RouteNav | main.py:723-741 | the store and the log end as `NavPress` says: `nav:home` shows home with the stack cleared, `nav:back` as `BackSpec`, `nav:<screen>` shows the screen with a push |
| Bot.UiBot.RouteSetting | main.py:747-759 | the store and the log end as `SettingPress` says: the accepted setting, then settings without push |
| Bot.UiBot.RouteSelect | main.py:796-840 | the store and the log end as `SelectPress` says: "free" at once, an unknown plan back to plans, a paid plan stored as pending and offered |
| Bot.UiBot.RouteCheck | main.py:842-856 | the store and the log end as `CheckPress` says for the stub provider's answer |
| Bot.UiBot.Dispatch | main.py:723-856 | the store and the log end as `Press` says for the parsed data; the outcome is a TypeError iff the data is `action:signal` |
| Bot.UiBot.CallbackRouter | main.py:704-856 | the clicked message (if any) is deleted first, in the clicked chat or the user's own; then the store, the log and the message counter end as `Press` says; the outcome is a TypeError iff the data is `action:signal`; credentials never change; every press is contained |

## Left out

- Telegram transport: message text is kept abstract (`Body`), HTML formatting is not modelled, and `query.answer()` is not modelled. A failed delete is recorded as an attempt, since the code ignores the failure.
- Async and threading (`asyncio.to_thread`), `init_db` with its locking and pragmas, SQL text, and the `created_at`/`updated_at` timestamps.
- The payment amount is a whole number (10 or 25). Its text is rendered as Python prints the float (`10.0`).
- The random payment token is a parameter (`token`), checked to be 16 lower-case hex characters.
- `str.strip`, `lower` and `upper` are modelled on ASCII whitespace and letters. `int()` is modelled without underscores or non-ASCII digits.
- Stored JSON values are typed per key (`Value`). A navigation stack holding non-string items, or a pending payment without a `plan` field, cannot be represented. `plan:check` therefore never needs the "pro" default of main.py:850.
- crypto_utils.py and the `/set_po` command (main.py:663-692) are not part of this model. Fernet encryption belongs to a library that is not shown.
- The FastAPI variant inside main.py (main.py:552-571, with its caller allow-list) is not part of this model. Only api_server.py is modelled.
- `/menu`, `/plans` and `/settings` (main.py:639-661) only delete the command message and call `show_screen`; they are not modelled separately. `/admin` (main.py:887-900) is not modelled either: it reads the profile, answers "admin_denied" to anyone but the root admin without deleting the command, and for the root admin deletes the command and sends "admin_help". `/start` is modelled (`StartCommand`).
- `/help`, `/bank`, `/my_longs`, `/my_stats`, `/long` and `/short` are never registered (main.py:1053-1069) and are not modelled. The `/long` and `/short` handlers would hit the same `_handle_signal` TypeError as `action:signal`.
- Handler registration, `run_telegram_bot`, `main`, the Supabase client creation and `health_check` are outside the model. The Supabase client is modelled as present or absent, plus an insert that either succeeds or raises.
- The `admin_flow` state is written but nothing in main.py reads it. The model stores it and proves nothing about its later use.
- Strings.Format: a format spec, a conversion, an index or an attribute (`{name:spec}`, `{name!r}`, `{name[i]}`, `{name.attr}`) is read as part of the field name, so it fails as a missing argument where Python would format it; no template in main.py uses them.
- `callback_router` returns at once when the update carries no callback query (main.py:706-707); the model starts from a press.
- Routing.ParseTargetId: the contract states only the empty-argument case; the round trip for decimal input is `TargetIdRoundTrip`.
- Screens.NavKb: its contract states the shape only; which controls appear is stated by `NavKbActions`.

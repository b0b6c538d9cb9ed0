# replia — a Dafny model of its decision logic

replia is a Next.js app for managing household appliances. It tracks warranties, consumables, memos and household sharing, and offers AI-assisted troubleshooting that escalates to a repair ticket. It has no single central algorithm. Its behaviour lives in small decision functions and component state machines, and this project models them and proves what they promise:

- **`formatDaysRemaining`** (`days_format.dfy`): splits a day count into 365-day years, 30-day months and days, and renders the non-zero parts as 年/ヶ月/日. The source's push-and-join procedure is a method. It is proved equal to a rendering function that a decoder reads back to the original count.
- **Consumable panel** (`consumables.dfy`): next due date, urgency state, attention count and the "replaced today" action. The action updates the component's date map in place and persists it.
- **Warranty reminder panel** (`reminders.dfy`): the select / custom date / save / remove / load state machine, plus `canSave`, `savedLabel` and the expired guard.
- **Memo panel** (`memo.dfy`): the collapsed header preview, verbatim saving on every edit, and restore on load.
- **Household API** (`household.dfy`): invite-code generation from six random draws, join-code normalisation, the `displayName` fallback, and the POST/GET outcome tables.
- **Middleware** (`middleware.ts` → `middleware.dfy`): path classes and the redirect decision.
- **Navigation** (`side_nav.dfy`, `tab_bar.dfy`): the item lists and the active-item predicates.
- **Appliance icon** (`appliance_icon.dfy`): prefix stripping and ordered keyword classification into an icon kind.
- **Appliances, escalation and chat handlers** (`appliances_api.dfy`, `escalation_api.dfy`, `chat_api.dfy`): request defaulting, the rows written, and the mapping from each outcome to a response.

Shared modules:

- `Js`: JavaScript values, truthiness, `||` versus `??`.
- `Text`: `startsWith`, `indexOf`/`includes`, first-occurrence `replace`, `trim` with the ECMAScript whitespace set, ASCII `toUpperCase`, `split('@')[0]`, decimal numerals.
- `Session`: the signed-in user.
- `LocalStore`: the browser's `localStorage`, as a class over a map.

Each route handler is a function. Its inputs are the session, the parsed request body (`None` when it cannot be read), and the results the database and network would give. Its output is the response and the list of writes or calls it makes. Stateful components are classes: each method's contract ties the new state to a pure transition function, and the lemmas are stated over those functions.

## Model

| member | source | states |
|---|---|---|
| DaysFormat.Decompose | lib/utils.ts:8-11 | years·365 + months·30 + days gives back the input; months ≤ 12, days < 30, months·30 + days < 365 |
| DaysFormat.DecomposeInjective | lib/utils.ts:8-11 | distinct positive day counts have distinct (years, months, days) splits |
| DaysFormat.DecomposeCanonical | lib/utils.ts:8-11 | a triple is the split of its own total exactly when months·30 + days < 365 and days < 30 |
| DaysFormat.Part | lib/utils.ts:14-16 | `${n}` and its unit, or nothing for 0; read back by DecodeNumber, units shown exactly when non-zero (ShownIffNonZero) |
| DaysFormat.Rendered | lib/utils.ts:5-18 | empty exactly for non-positive counts (RenderedEmptyIff), decoded back to the count (DecodeRendered), injective (RenderedInjective) |
| DaysFormat.Join | lib/utils.ts:18 | `parts.join('')`; a push grows it by the pushed text (Pushed) |
| DaysFormat.FormatDaysRemaining | lib/utils.ts:5-18 | the conditional pushes and join produce exactly the rendering: empty for days ≤ 0, otherwise the non-zero parts in year, month, day order; the '0日' fallback is never taken |
| DaysFormat.JoinParts | lib/utils.ts:13-18 | pushing the non-zero parts and joining them concatenates the parts in order |
| DaysFormat.Pushed | lib/utils.ts:14-16 | a push appends to the list and grows the join by the pushed text |
| DaysFormat.RenderedEmptyIff | lib/utils.ts:6-18 | the result is empty exactly for non-positive counts |
| DaysFormat.DecodeRendered | lib/utils.ts:5-18 | reading a positive count's rendering back (digits, then unit weight 365/30/1) gives the count |
| DaysFormat.DecodeParts | lib/utils.ts:13-18 | any three rendered components read back to their weighted sum |
| DaysFormat.DecodeNumber | lib/utils.ts:14-16 | one `${n}` followed by its unit reads back as n times the unit's weight |
| DaysFormat.RenderedInjective | lib/utils.ts:5-18 | distinct positive counts render to distinct strings |
| DaysFormat.ShownIffNonZero | lib/utils.ts:14-16 | 年, ヶ月 and 日 each appear exactly when their component is non-zero |
| DaysFormat.DocumentedExamples | lib/utils.ts:2-3 | 280→"9ヶ月10日", 45→"1ヶ月15日", 400→"1年1ヶ月5日", 10→"10日", 365→"1年", 30→"1ヶ月", 0 and −10→"" |
| Text.NatToString | lib/utils.ts:14-16 | `${n}` is a non-empty digit string without a leading zero for n > 0 |
| Text.DigitsRoundTrip | lib/utils.ts:14-16 | the digits of `${n}` denote n |
| Text.LeadingDigits | lib/utils.ts:14-16 | the longest all-digit prefix, stopped by a non-digit |
| Text.LeadingDigitsOf | lib/utils.ts:14-16 | digits followed by a non-digit have exactly those digits as their leading run |
| Consumables.GetStatus | components/ui/ConsumableSection.tsx:47-59 | an item's next date, days left and urgency; the due windows are stated by DueWindows, the effect of a later day by StatusMonotone |
| Consumables.DueWindows | components/ui/ConsumableSection.tsx:47-59 | an undated item is unknown with no date; a dated one is due interval days after its last date, overdue exactly from that day on, and flagged (overdue or soon) exactly from seven days before it |
| Consumables.StatusMonotone | components/ui/ConsumableSection.tsx:50-58 | a later day reduces daysUntil by the elapsed days, and urgency never decreases (ok → soon → overdue) |
| Consumables.Attention | components/ui/ConsumableSection.tsx:62-65 | the result holds exactly the listed items that are overdue or soon, and is no longer than the list |
| Consumables.AttentionSingle | components/ui/ConsumableSection.tsx:62-65 | a one-item list is kept exactly when its item is overdue or soon |
| Consumables.AttentionAppend | components/ui/ConsumableSection.tsx:62-65 | filtering a concatenation is filtering each part in turn, so the result is the flagged items in list order with repeats kept |
| Consumables.OverdueCount | components/ui/ConsumableSection.tsx:62-65 | the size of the attention filter; zero exactly when nothing is flagged (OverdueCountZeroIff), additive over concatenation (OverdueCountAppend), never falling as days pass (OverdueCountMonotone) |
| Consumables.OverdueCountZeroIff | components/ui/ConsumableSection.tsx:62-65 | the count is 0 exactly when no item is overdue or soon |
| Consumables.OverdueCountAppend | components/ui/ConsumableSection.tsx:62-65 | the count of a concatenated list is the sum of the counts |
| Consumables.OverdueCountMonotone | components/ui/ConsumableSection.tsx:54-65 | with no replacement, the count never falls as days pass |
| Consumables.Replaced | components/ui/ConsumableSection.tsx:40 | the item's entry becomes today; the keys gain the item; every other entry is unchanged |
| Consumables.ReplacedResetsClock | components/ui/ConsumableSection.tsx:37-58 | right after a replacement the item is due in exactly its interval; every other item's status is unchanged |
| Consumables.Render | components/ui/ConsumableSection.tsx:62-91 | nothing for an empty list; the badge shows exactly when collapsed with a non-zero count, within 1..length; the open panel lists every item's status in order |
| Consumables.ConsumableSection.constructor | components/ui/ConsumableSection.tsx:26-28 | collapsed, no dates recorded |
| Consumables.ConsumableSection.Load | components/ui/ConsumableSection.tsx:30-35 | a stored date map under `consumables_<id>` replaces the dates; otherwise they are unchanged |
| Consumables.ConsumableSection.MarkReplaced | components/ui/ConsumableSection.tsx:37-45 | the dates become `Replaced(old, id, today)` and the whole map is stored under `consumables_<id>` |
| Consumables.ConsumableSection.Toggle | components/ui/ConsumableSection.tsx:73 | tapping the header flips `isOpen` and changes nothing else |
| Reminders.PresetsShape | components/ui/ReminderSection.tsx:14-18 | three presets with distinct keys, none "custom", 30/90/180 days |
| Reminders.FindIndex | components/ui/ReminderSection.tsx:75 | `find` returns the first preset with the key, or none when no preset has it |
| Reminders.PresetLabel | components/ui/ReminderSection.tsx:75 | the label of the preset with the key, or none exactly when no preset has it |
| Reminders.SavedLabel | components/ui/ReminderSection.tsx:74-76 | present exactly when saved and the selection is truthy; the date for custom, otherwise the label of the preset whose key is the selected string, or "" |
| Reminders.CanSave | components/ui/ReminderSection.tsx:72 | the selection is not `null` (an `undefined` one passes), and a custom choice has a date; stated per key by SelectEnablesSave and ReselectKeepsDate, for an untyped stored entry by UntypedEntryLoads |
| Reminders.Select | components/ui/ReminderSection.tsx:47-50 | selecting a key clears the saved state (EditsHideSavedChoice) and keeps the custom date (ReselectKeepsDate) |
| Reminders.EditCustomDate | components/ui/ReminderSection.tsx:147 | editing the date clears the saved state, so the badge disappears (EditsHideSavedChoice) |
| Reminders.SavedEntry | components/ui/ReminderSection.tsx:52-58 | the entry written holds the selection and the date only for custom; loading it restores the choice and the badge label (SaveThenLoad) |
| Reminders.Save | components/ui/ReminderSection.tsx:59 | saving marks the state saved; for a savable offered key the badge then shows (SaveShowsBadge) |
| Reminders.Remove | components/ui/ReminderSection.tsx:62-68 | removal resets to the initial state: no label, no badge, no enabled control (EditsHideSavedChoice) |
| Reminders.Loaded | components/ui/ReminderSection.tsx:35-45 | a stored entry restores its `type` as it is, the date when truthy, and marks saved; no entry changes nothing (SaveThenLoad, LoadNothing, EmptyLabelHidesBadge, UntypedEntryLoads) |
| Reminders.EditsHideSavedChoice | components/ui/ReminderSection.tsx:47-68 | after a selection, a date edit or a removal there is no saved label and no badge; after a removal the controls show nothing enabled, saved or removable |
| Reminders.ReselectKeepsDate | components/ui/ReminderSection.tsx:47-72 | switching to another option and back to custom keeps the date, so custom is savable again exactly when a date was entered |
| Reminders.SelectEnablesSave | components/ui/ReminderSection.tsx:47-72 | after selecting an offered key, saving is enabled unless it is custom without a date |
| Reminders.SaveThenLoad | components/ui/ReminderSection.tsx:35-59 | save, then load into a fresh panel, restores the choice, the custom date and the badge label |
| Reminders.LoadNothing | components/ui/ReminderSection.tsx:35-45 | loading with no stored entry changes nothing |
| Reminders.View | components/ui/ReminderSection.tsx:70-176 | nothing exactly when expired; the badge is the saved label exactly when that is a non-empty string; controls only when expanded: save enabled iff `canSave`, the saved mark iff saved, remove iff saved with a selection (so whenever there is a badge), the date picker iff custom is chosen |
| Reminders.SaveShowsBadge | components/ui/ReminderSection.tsx:52-95 | saving a savable choice whose key the panel offers shows a non-empty badge, the preset's label or the custom date, and the remove button |
| Reminders.EmptyLabelHidesBadge | components/ui/ReminderSection.tsx:35-45 | a stored custom choice without a date, or an unknown preset key, loads as saved with an empty label: no badge, but the remove button shows |
| Reminders.UntypedEntryLoads | components/ui/ReminderSection.tsx:35-76 | a stored entry without `type` loads as a saved `undefined` selection: no label, badge or remove button, yet saving is enabled and writes the same entry back |
| Reminders.ReminderSection.constructor | components/ui/ReminderSection.tsx:29-33 | collapsed, with the selection `null`, no date and not saved |
| Reminders.ReminderSection.Load | components/ui/ReminderSection.tsx:35-45 | the new state is the load transition of the old one under the `reminder_<id>` entry |
| Reminders.ReminderSection.HandleSelect | components/ui/ReminderSection.tsx:47-50 | the new state is `Select(old, key)` |
| Reminders.ReminderSection.HandleCustomDate | components/ui/ReminderSection.tsx:147 | the new state is `EditCustomDate(old, date)` |
| Reminders.ReminderSection.HandleSave | components/ui/ReminderSection.tsx:52-60 | saved is set, and `{type, customDate only for custom}` is stored under `reminder_<id>` |
| Reminders.ReminderSection.HandleRemove | components/ui/ReminderSection.tsx:62-68 | the entry is deleted and the state reset to a `null` selection, no date, not saved |
| Reminders.ReminderSection.Toggle | components/ui/ReminderSection.tsx:82 | tapping the header flips `isOpen` and changes nothing else |
| Memo.ReplaceNewlines | components/ui/MemoSection.tsx:36 | same length; every line feed becomes a space and every other character is kept |
| Memo.Preview | components/ui/MemoSection.tsx:35-37 | null exactly for a blank memo, otherwise the clipped text (PreviewNoneIffBlank, ShortPreview) |
| Memo.Clip | components/ui/MemoSection.tsx:36 | the first 22 characters with line feeds as spaces, '…' exactly when longer (ClipShape, ClipShort) |
| Memo.PreviewNoneIffBlank | components/ui/MemoSection.tsx:35-37 | the preview is null exactly when the memo is empty or whitespace only |
| Memo.ClipShape | components/ui/MemoSection.tsx:36 | at most 23 characters and no line feed; the first 22 characters with line feeds as spaces, then '…' exactly when the memo is longer than 22 |
| Memo.ClipShort | components/ui/MemoSection.tsx:36 | a memo of at most 22 characters previews without an ellipsis |
| Memo.ShortPreview | components/ui/MemoSection.tsx:35-37 | a non-blank memo of at most 22 characters previews as itself, line feeds as spaces |
| Memo.Loaded | components/ui/MemoSection.tsx:22-27 | a non-empty stored memo replaces the text, so an edit is what a fresh panel loads (EditThenLoad) |
| Memo.EditThenLoad | components/ui/MemoSection.tsx:22-33 | what an edit stores is what a fresh panel loads |
| Memo.MemoSection.constructor | components/ui/MemoSection.tsx:18-20 | collapsed, with an empty memo |
| Memo.MemoSection.Load | components/ui/MemoSection.tsx:22-27 | a non-empty stored memo replaces the text |
| Memo.MemoSection.HandleChange | components/ui/MemoSection.tsx:29-33 | the memo becomes the text, stored verbatim under `memo_<id>`, and nothing else in storage changes |
| Memo.MemoSection.Toggle | components/ui/MemoSection.tsx:43 | tapping the header flips `isOpen` and changes nothing else |
| Text.Trim | components/ui/MemoSection.tsx:35 | empty exactly for whitespace-only strings (TrimEmptyIffBlank), idempotent (TrimIdempotent), removes whitespace around a text (TrimSurrounded) |
| Text.TrimEmptyIffBlank | components/ui/MemoSection.tsx:35 | `trim()` is empty exactly for whitespace-only strings |
| LocalStore.KeysDisjoint | components/ui/ConsumableSection.tsx:32 | the consumables, reminder and memo keys never collide, whatever the product ids |
| LocalStore.KeysInjective | components/ui/MemoSection.tsx:24 | each panel's key determines its product id |
| LocalStore.LocalStorage.Set | components/ui/MemoSection.tsx:32 | `setItem` binds the key and leaves every other entry unchanged |
| LocalStore.LocalStorage.Remove | components/ui/ReminderSection.tsx:64 | `removeItem` deletes the key and leaves every other entry unchanged |
| Household.AlphabetShape | app/api/household/route.ts:47 | 32 distinct characters, none of 0, 1, I, O |
| Household.CodeFrom | app/api/household/route.ts:48-51 | one alphabet character per draw |
| Household.GenerateCode | app/api/household/route.ts:48-51 | the loop yields exactly 6 characters, all from the alphabet, the i-th chosen by the i-th draw |
| Household.CodeFromInjective | app/api/household/route.ts:48-51 | different draws give different codes |
| Household.NormalizeCode | app/api/household/route.ts:82 | `toUpperCase().trim()`; idempotent (NormalizeIdempotent) and maps a generated code typed in any case with spaces back to itself (TypedCodeNormalizes) |
| Household.NormalizeIdempotent | app/api/household/route.ts:82 | upper-casing then trimming a normalised code changes nothing |
| Household.TypedCodeNormalizes | app/api/household/route.ts:82 | a generated code typed in any letter case between whitespace normalises to the code |
| Household.JoinFindsGeneratedCode | app/api/household/route.ts:53-106 | joining with a created household's code, typed in any case with surrounding spaces, finds that household |
| Household.DisplayName | app/api/household/route.ts:41-42 | `full_name` when non-empty, else the e-mail's part before the first '@' when non-empty, else "メンバー"; never empty |
| Household.Post | app/api/household/route.ts:34-110 | the POST outcome table: PostUnauthenticated, CreateOutcome, JoinWithoutCode, JoinNotFound, JoinFound, OtherActionInvalid |
| Household.Create | app/api/household/route.ts:45-74 | the create branch; its outcomes are stated by CreateOutcome |
| Household.Join | app/api/household/route.ts:76-107 | the join branch; its outcomes are stated by JoinWithoutCode, JoinNotFound, JoinFound and JoinFindsGeneratedCode |
| Household.PostUnauthenticated | app/api/household/route.ts:36-37 | no session gives 401 and nothing is written |
| Household.CreateOutcome | app/api/household/route.ts:45-73 | an insert failure gives 500 after the household insert only; success returns the new household with exactly one member, the caller as owner |
| Household.JoinWithoutCode | app/api/household/route.ts:77 | a missing or empty code gives 400 and nothing is written |
| Household.JoinNotFound | app/api/household/route.ts:79-87 | an unknown normalised code gives 404 and nothing is written |
| Household.JoinFound | app/api/household/route.ts:79-106 | a known code inserts the caller as a member; an insert error gives 400 "already joined", otherwise the household and its re-read members |
| Household.OtherActionInvalid | app/api/household/route.ts:109 | any other action gives 400 and nothing is written |
| Household.Get | app/api/household/route.ts:5-30 | household null exactly without a user or a membership; otherwise the row and the member list, `[]` when unreadable |
| Text.ToUpper | app/api/household/route.ts:82 | keeps the length; idempotent (ToUpperIdempotent) |
| Text.ToUpperIdempotent | app/api/household/route.ts:82 | upper-casing twice is upper-casing once |
| Text.TrimIdempotent | app/api/household/route.ts:82 | trimming twice is trimming once |
| Text.TrimSurrounded | app/api/household/route.ts:82 | trimming whitespace around a text with non-whitespace ends gives the text |
| Text.BeforeFirst | app/api/household/route.ts:42 | `split('@')[0]` is a prefix without the separator, ending where the first separator is |
| Middleware.Configured | middleware.ts:12-16 | both the URL and the key are non-empty; without that every request passes (UnconfiguredPassesThrough) |
| Middleware.IsAuthRoute | middleware.ts:38 | `/login` or `/signup` prefix; disjoint from API paths (RouteClassesDisjoint) |
| Middleware.IsApiRoute | middleware.ts:39 | `/api` prefix; never redirected (ApiNeverRedirected) |
| Middleware.IsCallback | middleware.ts:40 | `/auth/callback` prefix; disjoint from the other classes (RouteClassesDisjoint) |
| Text.StartsWith | middleware.ts:38-40 | `startsWith`; two prefixes of one string agree (PrefixesAgree), prefixes differing at an index exclude each other (PrefixesExclusive) |
| Middleware.Decide | middleware.ts:11-56 | only /login or / is ever a target; /login iff configured, auth checked, no user, and the path is not auth, API or callback; / iff configured, a user, and an auth route |
| Middleware.UnconfiguredPassesThrough | middleware.ts:12-16 | without the URL or the key every request passes through |
| Middleware.FailurePassesThrough | middleware.ts:51-56 | a failed auth check passes through |
| Middleware.RouteClassesDisjoint | middleware.ts:38-40 | an API path is neither an auth route nor the callback; the callback is not an auth route |
| Middleware.ApiNeverRedirected | middleware.ts:38-50 | API paths are never redirected |
| Middleware.NoRedirectLoop | middleware.ts:38-50 | a redirect's target passes through for the same caller and differs from the path |
| SideNav.IsActive | components/ui/SideNav.tsx:93-96 | home for / and /chat paths, otherwise the href prefix; at most one item (AtMostOneActive), stable under sub-pages (HomeCoversChat, SubPagesKeepSection) |
| SideNav.HomeCoversChat | components/ui/SideNav.tsx:67-96 | "/" and every path under /chat activate home and only home |
| SideNav.SubPagesKeepSection | components/ui/SideNav.tsx:67-96 | for /my-appliances, /share and /mypage, every page below an active section page keeps that item as the single active one |
| SideNav.AtMostOneActive | components/ui/SideNav.tsx:67-96 | no two items are active for the same path |
| SideNav.Examples | components/ui/SideNav.tsx:93-96 | /register activates nothing; /chat/abc activates home; /share/invite activates share |
| TabBar.IsActive | components/ui/TabBar.tsx:86-89 | home for exactly / and /chat, otherwise the href prefix; at most one tab (AtMostOneActive), implies the side navigation's item (TabActiveImpliesSideNavActive) |
| TabBar.ChatSubPagesActivateNothing | components/ui/TabBar.tsx:6-89 | every path under /chat/ activates no tab |
| TabBar.SubPagesKeepTab | components/ui/TabBar.tsx:6-89 | for /my-appliances and /mypage, every page below an active section page keeps that tab as the single active one |
| TabBar.TabActiveImpliesSideNavActive | components/ui/TabBar.tsx:86-89 | whenever a tab is active, the side-navigation item with the same link is active too |
| TabBar.AtMostOneActive | components/ui/TabBar.tsx:6-89 | no two tabs are active for the same path |
| TabBar.Examples | components/ui/TabBar.tsx:86-89 | /chat/abc and /share activate no tab; /chat activates home |
| ApplianceIcon.Stripped | components/ui/ApplianceIcon.tsx:8 | removes the first 全自動, then the first 液晶 (WasherExample, TelevisionExample, NoKeyword) |
| ApplianceIcon.KindOf | components/ui/ApplianceIcon.tsx:10-76 | the `includes` chain; equal to the first matching rule (KindOfIsFirstRule) |
| ApplianceIcon.Classify | components/ui/ApplianceIcon.tsx:6-76 | the icon kind of a type after stripping (WasherExample, TelevisionExample, GenericExample, NoKeyword) |
| ApplianceIcon.FirstRule | components/ui/ApplianceIcon.tsx:10-68 | the index of the first rule whose keyword occurs, or none exactly when none occurs |
| ApplianceIcon.KindOfIsFirstRule | components/ui/ApplianceIcon.tsx:10-76 | the `includes` chain picks the first matching rule in the order エアコン, 洗濯機, テレビ, 冷蔵庫, レンジ, 掃除機; the default exactly when none matches |
| ApplianceIcon.MicrowaveTestSubsumed | components/ui/ApplianceIcon.tsx:50 | the 電子レンジ test adds nothing to the レンジ test |
| ApplianceIcon.NoKeyword | components/ui/ApplianceIcon.tsx:8-76 | a type in which no prefix or keyword can start is left unstripped and gets the default icon |
| ApplianceIcon.WasherExample | components/ui/ApplianceIcon.tsx:8-29 | 全自動洗濯機 is a washer |
| ApplianceIcon.TelevisionExample | components/ui/ApplianceIcon.tsx:8-38 | 液晶テレビ is a television |
| ApplianceIcon.GenericExample | components/ui/ApplianceIcon.tsx:70-76 | ドライヤー gets the default icon |
| Text.IndexOf | components/ui/ApplianceIcon.tsx:8-10 | the first position where the pattern occurs, or none exactly when it occurs nowhere |
| Text.Includes | components/ui/ApplianceIcon.tsx:10 | some occurrence exists (IncludesIffOccurs); containment is transitive (IncludesTransitive) |
| Text.ReplaceFirst | components/ui/ApplianceIcon.tsx:8 | `replace` with a string pattern; unchanged without an occurrence (ApplianceIcon.NotFound) and only the first occurrence replaced (ReplaceFirstAtStart) |
| Text.ReplaceFirstAtStart | components/ui/ApplianceIcon.tsx:8 | with the pattern at the front, the rest is kept even where it contains the pattern again |
| Text.IncludesTransitive | components/ui/ApplianceIcon.tsx:50 | a text containing a string contains everything that string contains |
| Js.OrDiffersFromCoalesce | app/api/appliances/route.ts:31-36 | `v \|\| d` and `v ?? d` differ exactly when v is falsy, not null or undefined, and different from d |
| AppliancesApi.RowFor | app/api/appliances/route.ts:29-37 | user_id is the session user's; type falls back to その他, brand/model/store to "", purchase date to null (all on falsy); warranty to 12 only on null or undefined |
| AppliancesApi.ZeroWarrantyKept | app/api/appliances/route.ts:35 | an explicit 0 warranty is kept, where `\|\|` would have given 12 |
| AppliancesApi.Get | app/api/appliances/route.ts:5-17 | 401 with no table access without a session; otherwise the caller's rows, `[]` when unreadable |
| AppliancesApi.Post | app/api/appliances/route.ts:20-42 | 401 with no access without a session; one insert of the defaulted row; 500 with the error message on failure, the created row otherwise |
| AppliancesApi.AccessScopedToSession | app/api/appliances/route.ts:13-30 | every table access is scoped to the session user |
| EscalationApi.TicketFor | app/api/escalation/route.ts:32-40 | status "new"; conversation and symptom copied; each optional field null when null or undefined |
| EscalationApi.ProductInfoFor | app/api/escalation/route.ts:56-80 | the looked-up product exactly when the id is truthy and a row is found; otherwise `{userProductId: userProductId ?? ''}` |
| EscalationApi.Post | app/api/escalation/route.ts:5-98 | the outcome table: UnauthenticatedRefused, MissingFieldsRefused, TicketFailureStops, TicketCreated, WebhookFailureIsolated |
| EscalationApi.UnauthenticatedRefused | app/api/escalation/route.ts:10-13 | no session gives 401 and nothing is written |
| EscalationApi.MissingFieldsRefused | app/api/escalation/route.ts:25-27 | a falsy conversation id or symptom gives 400 and nothing is written |
| EscalationApi.TicketFailureStops | app/api/escalation/route.ts:44-47 | a failed ticket insert gives 500 with no conversation update and no notification |
| EscalationApi.TicketCreated | app/api/escalation/route.ts:30-93 | the ticket is inserted with status "new"; the conversation is marked escalated with the summary or null; the webhook gets the ticket id; the reply carries the ticket's id and status |
| EscalationApi.WebhookFailureIsolated | app/api/escalation/route.ts:83-93 | a failing webhook changes neither the response nor any write, only the error log |
| ChatApi.ProductContext | app/api/chat/route.ts:35-37 | empty exactly when `productInfo.name` is not a non-empty string |
| ChatApi.ProductContextShape | app/api/chat/route.ts:35-37 | a named product's context is the header, then brand or "", name and model or "", separated by spaces |
| ChatApi.SystemPrompt | app/api/chat/route.ts:39-49 | the fixed introduction, the product context, then the fixed guidelines |
| ChatApi.SystemPromptInjective | app/api/chat/route.ts:39-49 | different product contexts give different system prompts |
| ChatApi.ForwardedRole | app/api/chat/route.ts:61 | "assistant" is kept; every other role becomes "user" |
| ChatApi.Outgoing | app/api/chat/route.ts:58-64 | the system prompt, then every message in order with its content and forwarded role; length n + 1 |
| ChatApi.OnlyFirstIsSystem | app/api/chat/route.ts:58-64 | only the first outgoing message has the system role |
| ChatApi.Post | app/api/chat/route.ts:15-87 | the outcome table: PostOutcomes, ReplyMapping, MissingKeyReply |
| ChatApi.PostOutcomes | app/api/chat/route.ts:15-87 | 401 iff no session; 400 iff messages are missing or empty; every other outcome a 200 reply; the service is called only with a key and messages, with the assembled list |
| ChatApi.ReplyMapping | app/api/chat/route.ts:70-87 | a thrown error, a non-OK answer and a missing content each map to a fixed reply; present content is returned as is |
| ChatApi.MissingKeyReply | app/api/chat/route.ts:30-33 | without a key the not-configured message is an ordinary reply and the service is not called |

## Left out

- Supabase (auth, every query and insert) is replaced by oracle inputs. The n8n webhook and the OpenAI call are reduced to their observable outcomes. `createClient` throwing, and the cookie plumbing in `middleware.ts`, are not modelled.
- `Math.random` becomes a parameter, a sequence of six draws in [0, 32).
- The household POST takes the six draws as a parameter on every call; only the create branch uses them.
- Dates are integer day numbers. `new Date(...)`, UTC-versus-local midnight, `Math.ceil` over milliseconds, `toISOString` and the `toLocaleDateString` label are not modelled. A stored date that is empty or unparsable is not modelled either: the map holds day numbers.
- The warranty status (`active`/`expiring`/`expired`) is an input. Its rule is computed elsewhere and is not part of this model.
- Storage errors and JSON encoding are not modelled. Storage holds typed entries, and a `localStorage` exception, swallowed by the components, is not modelled. A stored reminder's `type` keeps whatever JSON value it holds, `undefined` when absent; its `customDate`, when present, is taken to be a string. A stored value that is not an object of the writer's shape (a bare JSON number or string under the reminder key, say) is treated as absent.
- Strings are sequences of code points, not UTF-16 units. So `slice(0, 22)` and `length > 22` count characters, which differs from the source only for characters outside the Basic Multilingual Plane.
- `toUpperCase` is modelled for ASCII letters only. Other letters are left as they are, although JavaScript maps some of them (such as full-width Latin letters).
- `trim` uses the ECMAScript whitespace set as listed in `Text.IsWhitespace`.
- Request bodies are typed records of JSON values. A body that cannot be read is `None`. Where the handler has no try/catch, that case is an uncaught error (`Crashed`).
- Not modelled, each because it needs JavaScript behaviour outside this model:
  - a non-array `messages` or a non-string `code`, beyond the `Crashed` outcome;
  - template interpolation of non-string values;
  - numbers other than those passed through untouched.
- Presentational components, all SVG and styling, the `config.matcher` regex, and these are not part of this model: the read-receipt, product-image and debug-env routes, `lib/n8n/webhook.ts`, and the auth callback.
- `isOpen` toggling is modelled (`Toggle`), but the collapsed header markup is not.

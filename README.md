# PromptFence in Dafny

PromptFence is a browser extension and a small admin server. The extension
watches pastes into the prompt fields of AI chat sites. It detects e-mail
addresses, phone numbers and IBANs, and decides from the organisation's rules
whether to allow the paste, warn about it or block it. Its modal can replace
each detected span by a placeholder. The server keeps organisations, users,
their policy configuration and the reported events. It serves the
configuration to the extension, records events and gives admins the event
list and a CSV export.

This project models the decision logic of both halves and proves what that
logic guarantees. It is organised as follows:

- `logic.dfy`: the IBAN check digits (ISO/IEC 7064 MOD 97-10, as ISO 13616-1
  uses it), the detection post-filters, the AI-domain test and the rule
  matcher.
- `known_ibans.dfy`: the IBANs of the extension's test suite, checked
  against that specification.
- `rules.dfy`: the shipped domain list and rule pack.
- `content_policy.dfy`, `anonymize.dfy`, `content_dom.dfy` and
  `content_script.dfy`: the content script.
  - `content_policy.dfy`: the BLOCK > WARN > ALLOW decision, labels and
    placeholders, the context-error test, the chip summary and the
    configuration merge.
  - `anonymize.dfy`: the anonymiser.
  - `content_dom.dfy`: the prompt-field test, the walk up the parent chain and
    the text-field splice.
  - `content_script.dfy`: the state the script keeps between events. It is a
    class whose handlers are specified by pure transitions.
- `rate_limit.dfy`: the per-IP fixed-window limiter (a class over a map) and
  the body-size check.
- `db.dfy`: the tables, the column defaults and CHECK constraints, and the
  lookups.
- `auth.dfy`: the bearer token, install codes, the admin gate and the
  install-code gate with get-or-create of employee users.
- `config_route.dfy`, `events_route.dfy` and `signup_route.dfy`: the three
  API routes. A route is a pure function from the tables and the request to
  the new tables and the reply. Each route also has a method over the
  `Database` class that is proved equal to that function.
- `csv.dfy`: a quote-aware reader of comma-separated lines, used to prove that
  the CSV exports read back as their values.
- `events_page.dfy`: the admin page's event filter and CSV export.
- `text.dfy` and `wrappers.dfy`: the JavaScript string operations the code
  relies on (the `\s` class, case mapping, `trim`, `split`, `join`, `parseInt`),
  plus `Option` and `Result`.

The following are parameters of the model:

- randomness: the eight `Math.random` draws of an install code;
- fresh identifiers (uuids);
- the clock;
- token verification and password hashing;
- the regular-expression candidate extraction of the detector;
- the detector, preset catalogue and data-type table that the content script
  loads from other files.

The model follows the code on these points:

- Both enable flags count as on unless they are literally `false`, and a
  missing configuration counts as both flags on.
- `anonymizeText` sorts the matches itself, so the model accepts them in any
  order.
- The content script keeps module-level mutable state between events, which
  is modelled as a class.

## Model

| member | source | states |
|---|---|---|
| Logic.RemoveWhitespace | extension/src/logic.js:14 | no whitespace character of the JavaScript `\s` class is left; a string without white space is kept whole and one made only of white space vanishes |
| Logic.RemoveWhitespaceAppend | extension/src/logic.js:14 | white space is removed character by character: the result for a concatenation is the results for its parts in order, so every other character is kept in its place |
| Logic.ExpandChar | extension/src/logic.js:31-37 | a letter becomes two digits whose value is its code minus 55 (A=10 … Z=35); any other character is kept |
| Logic.IbanIsValid | extension/src/logic.js:8-46 | returns exactly `IbanValid`: non-empty input whose normalised form has 15–34 characters, the two-letters-two-digits shape, and a digit stream, after rotation and letter expansion, whose value is 1 modulo 97 |
| Logic.ExpandLetters | extension/src/logic.js:29-37 | the loop builds `Expand` of the rearranged string: each letter A..Z replaced by the two digits of 10..35, other characters kept |
| Logic.Mod97 | extension/src/logic.js:39-43 | the digit-by-digit reduction returns the value of the whole digit string modulo 97 |
| Logic.ExpandValue | extension/src/logic.js:29-37 | the decimal value of the expanded digit stream equals the positional value `CheckValue` of the rotated string |
| Logic.IbanValidOfNormal | extension/src/logic.js:17-45 | for an upper-case alphanumeric string, validity is the length bound, the shape and `CheckValue(rotated) % 97 == 1` |
| Logic.IbanWhitespaceInsensitive | extension/src/logic.js:14 | inserting a whitespace character anywhere does not change the verdict |
| Logic.IbanCaseInsensitive | extension/src/logic.js:14 | lower-casing any single letter does not change the verdict |
| Logic.IbanEmptyInvalid | extension/src/logic.js:9-11 | the empty string is not a valid IBAN |
| KnownIbans.IbanDeValid | extension/tests/logic.test.js:19-22 | the German example IBAN is valid |
| KnownIbans.IbanDeAltered | extension/tests/logic.test.js:32-35 | that IBAN with its last digit changed is invalid (remainder 28) |
| KnownIbans.IbanGbValid | extension/tests/logic.test.js:45-48 | the UK example IBAN is valid |
| KnownIbans.IbanFrValid | extension/tests/logic.test.js:50-53 | the French example IBAN is valid |
| Logic.Digits | extension/src/logic.js:72 | the result holds only digits and is no longer than the input; a digit string is kept whole and a string without digits gives the empty string |
| Logic.DigitsAppend | extension/src/logic.js:72 | the digits of a concatenation are the digits of its parts, in order, so every digit of the input is kept |
| Logic.PhoneSeparatorsIgnored | extension/src/logic.js:70-75 | a non-digit separator anywhere in a phone candidate does not change whether it has 8 to 15 digits |
| Logic.HasPhoneCandidate | extension/src/logic.js:69-78 | the early-exit loop finds a candidate exactly when some candidate has 8 to 15 digits |
| Logic.HasValidIban | extension/src/logic.js:83-89 | the early-exit loop finds a candidate exactly when some candidate is a valid IBAN |
| Logic.DetectMatches | extension/src/logic.js:53-92 | empty text gives no hits; the hits are duplicate-free and drawn from EMAIL, PHONE and IBAN; each type is reported exactly when its candidate filter accepts |
| Logic.FirstTriggeredIsFirst | extension/src/logic.js:118-129 | a rule is found exactly when some rule's triggers meet the hits, and it is the first such rule in list order |
| Logic.RuleTriggers | extension/src/logic.js:113-130 | missing or empty hits, or missing rules, give null; otherwise the first triggered rule |
| RulePack.AiDomainsExact | extension/rules.js:6-11 | the AI-domain test with the shipped list accepts exactly the four listed hostnames |
| RulePack.NoSubdomainOfAiDomain | extension/src/logic.js:100-105 | a subdomain of a listed domain is not an AI domain |
| RulePack.PackShape | extension/rules.js:14-22 | the pack is one rule, R1, triggered by EMAIL, PHONE and IBAN, with action BLOCK |
| RulePack.PackSelectsR1 | extension/rules.js:14-22 | with the pack, R1 is selected exactly when a hit is EMAIL, PHONE or IBAN |
| RulePack.DetectionSelectsR1 | extension/tests/logic.test.js:211-233 | any non-empty list of detected types selects R1 |
| RulePack.UnknownSelectsNothing | extension/tests/logic.test.js:240-243 | an unknown type selects no rule |
| ContentPolicy.GetRulesIgnoresPreset | extension/content.js:780-782 | the rules in force do not depend on the preset the configuration names: stored rules win, and without them the personal preset's rules apply whatever preset is named |
| ContentPolicy.DetermineAction | extension/content.js:784-801 | the loop that sorts types into BLOCK and WARN lists returns the decision `Decide` |
| ContentPolicy.TypesMappedToMembers | extension/content.js:789-793 | a type is in an action's list exactly when it was detected and its rule is that action |
| ContentPolicy.DecideBlock | extension/content.js:789-798 | BLOCK exactly when blocking is enabled and a detected type maps to BLOCK; the types are then the BLOCK-mapped ones in input order |
| ContentPolicy.DecideWarnOrAllow | extension/content.js:795-800 | otherwise WARN exactly when warning is enabled and a type maps to WARN, with those types; ALLOW carries no types |
| ContentPolicy.DisabledBlockDrops | extension/content.js:795-800 | with blocking disabled the decision is never BLOCK and no BLOCK-mapped type is reported, not even as a warning |
| ContentPolicy.DecisionTypesMapped | extension/content.js:789-793 | every reported type was detected and its rule is the decided action; types without a WARN or BLOCK rule never appear |
| ContentPolicy.MissingConfigEnables | extension/content.js:795-796 | with no configuration loaded both flags are on and the personal rules decide |
| ContentPolicy.ChipLabelsNonEmpty | extension/content.js:808-810 | no chip is blank: each shows its type's non-empty table label, or else the type id itself |
| ContentPolicy.Placeholder | extension/content.js:812-814 | the type's non-empty placeholder, otherwise `[REDACTED]`; never empty |
| ContentPolicy.AnyPatternIn | extension/content.js:188-190 | true exactly when some pattern, lower-cased, occurs in the message |
| ContentPolicy.IsExtensionContextError | extension/content.js:177-191 | false for a missing or empty message; otherwise true exactly when the lower-cased message contains one of the six lower-cased patterns |
| ContentPolicy.ContextErrorCaseInsensitive | extension/content.js:187 | lower-casing the message first does not change the verdict |
| ContentPolicy.PatternPrefixIsContextError | extension/content.js:179-186 | a message that starts with any listed pattern is a context error |
| ContentPolicy.DistinctProperties | extension/content.js:954 | the de-duplicated types have no repeats and the same members as the input |
| ContentPolicy.ChipsSummary | extension/content.js:954-972 | at most four chips, labelling the first unique types in order; a "+n more" chip exactly when more than four unique types remain, n counting the rest |
| ContentPolicy.MergeSyncDefaults | extension/content.js:739-759 | the merged configuration always has a preset and rules; stored rules win, then the stored preset's rules, then the personal ones; a flag is off only when stored as `false`, and debug mode is on only when stored as `true`; with nothing stored, everything takes its default |
| ContentPolicy.MergedRulesInForce | extension/content.js:780-782 | after a sync load, the rules in force are the merged ones |
| Anonymize.SortDesc | extension/content.js:823 | the sort is a permutation of the matches |
| Anonymize.SortDescSorted | extension/content.js:823 | the sorted matches are in descending start order |
| Anonymize.SortDescStable | extension/content.js:823 | the sort is stable: matches that share a start keep their input order |
| Anonymize.AnonymizeText | extension/content.js:819-831 | the loop returns `Anonymized`; null or empty matches give the text unchanged |
| Anonymize.SpliceAllIsRedact | extension/content.js:825-829 | splicing chained spans from last to first equals the left-to-right reading that replaces each span and keeps the text between them |
| Anonymize.AnonymizedReplacesSpans | extension/content.js:819-831 | for non-empty, in-bounds, non-overlapping spans in any order, every span is replaced by its type's placeholder and every other character is kept |
| Anonymize.AnonymizeEmailInSentence | extension/content.js:819-831 | an address in the middle of a sentence becomes `[EMAIL]` and the rest is unchanged |
| ContentDom.PromptFieldCaseInsensitive | extension/content.js:1103-1113 | the verdict does not depend on the letter case of the tag name or of the `type` property |
| ContentDom.TextareaIsPromptField | extension/content.js:1105-1106 | a `TEXTAREA`, as the page reports it, is a prompt field whatever its attributes |
| ContentDom.InputTypeDecides | extension/content.js:1107-1110 | an `INPUT` of type `Search` is a prompt field, and one of type `password` is refused even when it is editable |
| ContentDom.EditableDivIsPromptField | extension/content.js:1111-1112 | a `DIV` with `contenteditable="plaintext-only"` is a prompt field, and a non-editable one with `contenteditable="false"` is not |
| ContentDom.FirstPromptFieldIsFirst | extension/content.js:1115-1122 | the element found is the first prompt field on the parent chain before the document element, and none is found exactly when there is no such element |
| ContentDom.FindEditableAncestor | extension/content.js:1115-1122 | the walk up the parent chain returns `FirstPromptField` of the chain |
| ContentDom.InsertIntoTextControl | extension/content.js:837-845 | the value becomes the text before the selection, the inserted text and the text after it; the caret sits right after the insertion |
| ContentDom.SplicedValueParts | extension/content.js:839-844 | for an in-range selection, the prefix and suffix are kept, the text lies in between, and the length changes accordingly |
| ContentDom.SpliceAtCaretUndone | extension/content.js:839-844 | inserting at a caret and deleting the inserted range restores the value |
| ContentScript.TearDownClears | extension/content.js:242-302 | after `teardown` the timer, the shadow host and modal, the pending paste, the remembered focus and both listeners are cleared; the configuration and flags are kept; a second teardown changes nothing |
| ContentScript.InvalidateOnce | extension/content.js:196-201 | invalidation disables the script and tears it down once; on a disabled script it changes nothing; twice is the same as once |
| ContentScript.InitialGood | extension/content.js:1099-1171 | the starting state satisfies the invariant; the paste handler is attached exactly on the four AI domains; the storage listener is attached when the runtime is available |
| ContentScript.StepKeepsGood | extension/content.js:222-302 | every event keeps the invariant: a pending paste exists exactly while a detection modal is shown, and a disabled script stays disabled and torn down |
| ContentScript.DisabledFailsOpen | extension/content.js:1131-1135 | a disabled script prevents no paste, shows no modal and inserts nothing |
| ContentScript.PastePrevented | extension/content.js:1131-1168 | a paste is prevented exactly when the handler is attached, the script is enabled, a prompt field is found, the text is non-empty, something is detected and the decision is not ALLOW; the modal then shows the decision and its chips and remembers the paste; otherwise nothing changes |
| ContentScript.BlockModalNeedsChoice | extension/content.js:1073-1091 | a BLOCK modal ignores the backdrop and Escape and closes only on Anonymize or Cancel, and only Anonymize inserts text |
| ContentScript.WarnModalCloses | extension/content.js:1067-1091 | a WARN modal closes on the backdrop, on Escape and on Anonymize, Allow or Close; only Anonymize and Allow insert text |
| ContentScript.AnonymizeWritesPending | extension/content.js:1029-1042 | Anonymize inserts the anonymised pending text into the pending target, returns focus to the remembered element and clears the modal and the pending paste |
| ContentScript.OnboardingOnce | extension/content.js:871-932 | onboarding is shown only to an enabled script whose user has not seen it; dismissing it records that it was seen; once seen it is not shown again |
| ContentScript.SyncLoadedSchedules | extension/content.js:736-763 | the sync load installs the merged configuration, records whether onboarding was seen, and schedules the onboarding timer exactly when it was not seen and the script is enabled |
| ContentScript.ContentScriptState.constructor | extension/content.js:222-232 | the state starts as the initial state for the page's hostname |
| ContentScript.ContentScriptState.TearDown | extension/content.js:242-302 | the new state is `TearDownState` of the old |
| ContentScript.ContentScriptState.HandleContextInvalidation | extension/content.js:196-201 | the new state is `Invalidate` of the old |
| ContentScript.ContentScriptState.OnContextError | extension/content.js:204-217 | the state and the prevented flag follow `Step` for an error event |
| ContentScript.ContentScriptState.ClearModal | extension/content.js:702-712 | the new state is `ClearModalState` of the old |
| ContentScript.ContentScriptState.CloseModalSafely | extension/content.js:308-319 | the modal closes and focus returns to the remembered element |
| ContentScript.ContentScriptState.ShowModal | extension/content.js:937-1094 | the new state is `ShowModalState` of the old |
| ContentScript.ContentScriptState.HandlePaste | extension/content.js:1131-1168 | the state and the prevented flag follow `Step` for the paste, with the prompt field found by walking up from the focused element |
| ContentScript.ContentScriptState.OnLocalLoaded | extension/content.js:728-733 | the state follows `Step` for the local-storage load |
| ContentScript.ContentScriptState.OnSyncLoaded | extension/content.js:736-764 | the new state is `SyncLoadedState` of the old |
| ContentScript.ContentScriptState.OnStorageChanged | extension/content.js:770-775 | the state follows `Step` for a storage change |
| ContentScript.ContentScriptState.ShowOnboarding | extension/content.js:871-932 | the new state is `ShowOnboardingState` of the old |
| ContentScript.ContentScriptState.OnOnboardingTimer | extension/content.js:761-763 | the state follows `Step` for the timer firing |
| ContentScript.ContentScriptState.OnButtonClick | extension/content.js:1029-1071 | the state, the insertion and the refocus follow `ButtonOutcome`; an insertion into a text field splices it as `SplicedValue` |
| ContentScript.ContentScriptState.OnBackdropClick | extension/content.js:1073-1078 | the state and the refocus follow `BackdropOutcome` |
| ContentScript.ContentScriptState.OnKeydown | extension/content.js:1086-1091 | the state and the refocus follow `KeydownOutcome` |
| RateLimit.ClientKeyFirstEntry | app/lib/rateLimit.js:20-21 | the key is the trimmed first entry of `x-forwarded-for`, or `unknown` without the header |
| RateLimit.CheckBounds | app/lib/rateLimit.js:24-49 | limited exactly when the window is open and the count has reached 10, with nothing changed and 0 remaining; otherwise an open window's count grows by one, an expired or missing one restarts at 1 for 60 s, and `remaining` is 10 minus the count; counts stay within 1..10 |
| RateLimit.CheckTouchesOnlyKey | app/lib/rateLimit.js:24-48 | every other key's entry is left exactly as it was |
| RateLimit.ExpiredWindowRestarts | app/lib/rateLimit.js:27-39 | an expired entry is replaced: not limited, 9 remaining, reset 60 s from now |
| RateLimit.OpenWindowCap | app/lib/rateLimit.js:42-49 | within an open window, at most 10 minus the current count further requests are admitted |
| RateLimit.AtMostTenPerWindow | app/lib/rateLimit.js:33-49 | from the request that opens a window, at most 10 requests in that window are admitted |
| RateLimit.RateLimiter.constructor | app/lib/rateLimit.js:5 | the map starts empty |
| RateLimit.RateLimiter.CheckRateLimit | app/lib/rateLimit.js:18-50 | the new map and the verdict are `Check` of the old map for the client key |
| RateLimit.BodySizeRule | app/lib/rateLimit.js:64-77 | oversized exactly when the header is present and `parseInt` gives more than 102400; a missing or non-numeric header gives not oversized with size 0 |
| Db.DefaultConfigChecks | app/lib/db.js:64-80 | the column defaults (EMAIL and PHONE WARN, IBAN BLOCK, three AI tools on, other off) satisfy the CHECK constraints |
| Db.FindUserByHash | app/lib/auth.js:100-102 | the first user of the org with that hash, or none exactly when there is no such user |
| Db.FindOrgByInstallCode | app/lib/auth.js:90-93 | an org with that install code, or none exactly when there is none |
| Db.FindConfig | app/app/api/config/route.js:126 | a config row of that org, or none exactly when there is none |
| Auth.ExtractBearerToken | app/lib/auth.js:66-72 | a token exactly when the header starts with `Bearer `, and then it is the rest of the header |
| Auth.BearerRoundTrip | app/lib/auth.js:66-72 | extracting from `Bearer ` followed by a token gives the token back |
| Auth.CharIndex | app/lib/auth.js:79 | a draw in [0, 1) selects an index inside the 36-character alphabet |
| Auth.GenerateInstallCode | app/lib/auth.js:75-82 | the loop builds 8 characters, each from A–Z and 0–9 |
| Auth.EveryCodeReachable | app/lib/auth.js:75-82 | every 8-character code over the alphabet is produced by some draws |
| Auth.RequireAdminOrder | app/lib/auth.js:125-141 | a missing or empty token gives 401 UNAUTHORIZED, then a failed verification 401 UNAUTHORIZED, then a non-admin role 403 FORBIDDEN; success exactly for a verified admin, with the decoded claims |
| Auth.GetOrCreateUserRows | app/lib/auth.js:96-122 | a known (org, hash) pair adds no row and marks that user installed and seen, keeping every other row; an unknown pair appends one employee row with the extension installed |
| Auth.GetOrCreateUserOnce | app/lib/auth.js:96-122 | after the first call the pair is known, so a second call adds no row |
| Auth.InstallCodeGateOutcome | app/lib/auth.js:144-160 | a missing, empty or unknown code gives 401 INVALID_INSTALL_CODE and writes nothing; a known code admits its org with a user of that org and touches only the users table |
| Auth.AnonymousRequestCreatesUser | app/lib/auth.js:156-157 | without `x-user-hash`, a fresh anonymous hash creates a new user |
| Auth.GetOrCreateUserByInstallCode | app/lib/auth.js:96-122 | the users table and the returned user are `GetOrCreateUser` of the old table; the other tables are kept |
| Auth.RequireInstallCode | app/lib/auth.js:144-160 | the tables and the answer are `InstallCodeGate` of the old tables |
| ConfigRoute.View | app/app/api/config/route.js:29-45 | the reply carries the caller's org and user ids, each of the four `ai_*` integers as a boolean that is true exactly when it is non-zero, the three rule actions and the approved URL |
| ConfigRoute.ViewFor | app/app/api/config/route.js:20-45 | 500 "Config not found" exactly when the org has no configuration row, otherwise 200 with the view of a row of that org |
| ConfigRoute.GetConfigRouting | app/app/api/config/route.js:9-78 | a Bearer header takes only the admin path and writes nothing: a refused admin gets the gate's 401/403 error, an accepted one the config reply for the admin's org and user; without it the install-code gate runs: a refusal gets 401 and leaves the tables as they were, an accepted call gets the config reply for the org whose install code matches and for a user of that org; configs, orgs and events never change |
| ConfigRoute.UpdatesNonEmpty | app/app/api/config/route.js:178-182 | there is something to update exactly when some field is supplied |
| ConfigRoute.ToolUpdatesEffect | app/app/api/config/route.js:139-156 | each supplied AI-tool flag is written as 1 or 0, the others and every other column are kept |
| ConfigRoute.RuleUpdatesEffect | app/app/api/config/route.js:158-171 | each rule given as a non-empty string is written, the others and every other column are kept |
| ConfigRoute.PatchedFields | app/app/api/config/route.js:139-182 | only supplied fields change; a supplied but empty approved URL is stored as null; `updated_at` is touched exactly when some field is updated |
| ConfigRoute.PatchedKeepsChecks | app/app/api/config/route.js:100-121 | a patch that passes validation keeps the row within its CHECK constraints |
| ConfigRoute.PostConfigOutcome | app/app/api/config/route.js:89-187 | a refused admin gate or an invalid rule writes nothing and answers its status (400 for a rule); otherwise 200 with the reply's own timestamp, and the org's config row becomes the patched row (a missing row is first created with the defaults), every other row is kept, and every row still satisfies its constraints |
| ConfigRoute.PushToolUpdates | app/app/api/config/route.js:139-156 | the pushes append exactly the assignments of `ToolUpdates` |
| ConfigRoute.PushRuleUpdates | app/app/api/config/route.js:158-171 | the pushes append exactly the assignments of `RuleUpdates` |
| ConfigRoute.BuildUpdates | app/app/api/config/route.js:135-176 | the built list of assignments is `Updates` of the patch |
| ConfigRoute.HandlePost | app/app/api/config/route.js:89-187 | the new tables and the reply are `PostConfig` of the old tables |
| EventsRoute.ValidateEvent | app/app/api/events/route.js:20-42 | accepted exactly when all six fields are present and truthy, the action is WARN or BLOCK and `dataTypes` is an array; otherwise the first failing check's error in that order |
| EventsRoute.PostEventOutcome | app/app/api/events/route.js:9-76 | a refused install code writes nothing (401); an invalid body answers 400 with only the gate's user write; a valid one appends exactly one event for the org and user and answers 201; orgs and configs never change, and every event satisfies its action constraint |
| EventsRoute.BlockCountEffect | app/app/api/events/route.js:63-74 | the reporting user's `block_count` grows by 1 for BLOCK and not at all for WARN, and its last-seen time is set; every other user is kept |
| EventsRoute.HandlePostEvent | app/app/api/events/route.js:9-76 | the new tables and the reply are `PostEvent` of the old tables |
| EventsRoute.PageNumber | app/app/api/events/route.js:96 | the page is at least 1: the parsed number when it is at least 1, otherwise 1 |
| EventsRoute.PageSize | app/app/api/events/route.js:97 | the limit lies in 1..100: a missing, unparsable or zero value gives 50, 1..100 is kept, larger gives 100, negative gives 1 |
| EventsRoute.PageOfNumeral | app/app/api/events/route.js:96 | a decimal numeral of at least 1 selects that page |
| EventsRoute.PageSizeOfNumeral | app/app/api/events/route.js:97 | a decimal numeral gives 50 for 0, itself within 1..100, and 100 above |
| EventsRoute.TotalPagesCeiling | app/app/api/events/route.js:174 | `totalPages` is the ceiling of total over limit: the pages cover every row and the last page is not empty |
| EventsRoute.PageOfRow | app/app/api/events/route.js:129 | with `offset = (page - 1) * limit`, each row lies on exactly one page, and that page is within `totalPages` |
| EventsRoute.Select | app/app/api/events/route.js:105-120 | no more rows than the table; when every row matches all are kept in order, when none matches none is |
| EventsRoute.SelectMembers | app/app/api/events/route.js:105-120 | the selected rows are exactly the org's events that pass every filter given |
| EventsRoute.SelectAppend | app/app/api/events/route.js:105-131 | the selection is made row by row: selecting from a concatenation gives the selections of its parts in order, so table order and repeated rows are kept for `COUNT(*)` and the page window |
| EventsRoute.Window | app/app/api/events/route.js:136-137 | the consecutive rows from the offset on: `limit` of them when enough remain, every remaining row on a short last page, none past the end |
| EventsRoute.GetEventsScope | app/app/api/events/route.js:87-176 | an admin who does not ask for CSV gets 200 and a JSON listing in which every event is the formatted row of an event of the admin's own org |
| EventsRoute.GetEventsRefused | app/app/api/events/route.js:89-93 | a caller the admin gate refuses gets 401 or 403 and no events |
| EventsRoute.GetEventsCsv | app/app/api/events/route.js:153-166 | an admin who asks for CSV gets 200 and the export of exactly the events the JSON listing of the same query would hold |
| EventsRoute.JsonListingBounds | app/app/api/events/route.js:96-176 | the JSON pagination holds a page of at least 1, a limit in 1..100 and the total of matching rows; `limit` events are listed, or every row left after the offset on the last page |
| EventsRoute.ListedOnItsPage | app/app/api/events/route.js:129-137 | every selected row is listed on the page `PageOfRow` assigns it, at its place in that page, so paging loses no row |
| EventsRoute.JsonListingRows | app/app/api/events/route.js:105-150 | each listed event is the formatted selected row at `offset + k`, an event of the caller's org passing every filter |
| EventsRoute.CsvRowFields | app/app/api/events/route.js:155-157 | a row reads back as its nine values in header order, a missing e-mail as empty, and the quoted data types split back into the list |
| EventsRoute.CsvLines | app/app/api/events/route.js:153-158 | the export is the header followed by exactly one line per event |
| EventsRoute.CsvHeaderColumns | app/app/api/events/route.js:154 | the header lists the nine column names |
| Csv.FieldsOfRow | app/app/api/events/route.js:155-157 | a row of cells without quotes, and without commas outside quoted cells, reads back as the cells' texts |
| SignupRoute.EmailShapeOfParts | app/app/api/signup/route.js:21 | local part, host and top-level part without whitespace or `@`, joined by `@` and `.`, match the e-mail pattern |
| SignupRoute.EmailShapeSplits | app/app/api/signup/route.js:21-27 | an accepted address contains exactly one `@`, so splitting on it gives the local part and the host |
| SignupRoute.SignupDomainIsLowerCasedHost | app/app/api/signup/route.js:49 | the domain is the lower-cased text after the `@` |
| SignupRoute.SignupOrder | app/app/api/signup/route.js:12-58 | missing fields, then a bad e-mail, then a short password give 400; then a registered e-mail, then a taken domain give 409; only success writes anything |
| SignupRoute.SignupCreates | app/app/api/signup/route.js:60-95 | success appends exactly one org with the lower-cased domain and a fresh 8-character install code, one default config and one admin user, and replies 201 with them |
| SignupRoute.SignupKeepsOrgsDistinct | app/lib/db.js:31-38 | signups keep org domains and install codes unique |
| SignupRoute.SecondSignupConflicts | app/app/api/signup/route.js:39-58 | after a signup, a valid second signup with the same e-mail or the same domain gets 409 |
| SignupRoute.HandleSignup | app/app/api/signup/route.js:8-95 | the new tables and the reply are `Signup` of the old tables |
| EventsPage.Keep | app/app/events/page.js:58-63 | an event is kept exactly when the action equals the action filter, the domain contains the domain filter and the data types include the type filter, each only when that filter is set |
| EventsPage.NoFiltersKeepAll | app/app/events/page.js:58-63 | with all filters empty every event is shown |
| EventsPage.FilterIsSubsequence | app/app/events/page.js:58 | the filtered list keeps the events' order and drops some |
| EventsPage.FilterMembership | app/app/events/page.js:58-63 | an event is shown exactly when it was loaded and passes the filters |
| EventsPage.FilterIdempotent | app/app/events/page.js:58-63 | filtering the filtered list again changes nothing |
| EventsPage.CsvRowValues | app/app/events/page.js:68-75 | a row reads back as its six values, with the data types joined by `;` and a missing user id empty |
| EventsPage.ExportCsvLines | app/app/events/page.js:66-77 | the export is the six-column header followed by exactly one line per filtered event, in order |

## Left out

- Rendering is not modelled: the Shadow DOM, styles, icons, the modal and
  onboarding markup, and the settings button.
- The contenteditable branch of `insertTextIntoTarget` (a DOM `Range`
  insertion) is not modelled. Only the text-field splice is.
- The `input` event that `insertTextIntoTarget` dispatches after the splice
  (extension/content.js:845) is not modelled: the page's own listeners are
  outside the model.
- The `try`/`catch` of `insertTextIntoTarget` (extension/content.js:860-864)
  is not modelled: the modelled splice cannot throw, and a throwing DOM is
  outside the model.
- The non-string guards of `ibanIsValid` and `detectMatches`
  (extension/src/logic.js:9-11 and 54-58) are modelled only for the empty
  string: their inputs are `string`s, so a number, an object or `null`,
  which the code answers with `false` or `[]`, cannot be passed.
- Browser runtime wrappers are not modelled: storage reads and writes,
  message passing, the service worker, the options and welcome pages. The
  model receives the results of the storage reads as events.
- The `setTimeout` delays and the asynchronous order of the two storage reads
  are not modelled. Each read and the timer firing are separate events, and
  the stored timer id is a flag.
- The regular expressions that extract e-mail, phone and IBAN candidates are
  parameters. Only the post-filters are modelled.
- The ranged detector, the preset catalogue and the data-type table live in
  files that are not part of this model. They are parameters.
- JWT signing and verification, and bcrypt hashing, are parameters. A token
  is represented by its claims.
- `Math.random`, `uuidv4` and the clock are parameters. POST /api/config
  reads the clock twice: `datetime('now')` for `updated_at` and the reply's
  ISO timestamp are separate parameters.
- SQLite is modelled as four sequences of rows.
  - The events list is not ordered by timestamp: pages are cut from the
    matching rows in table order.
  - The `LIKE '%"X"%'` data-type filter is read as list membership.
  - Primary-key collisions and the unique `org_id` of `org_config` are not
    modelled.
  - An install-code collision at signup is modelled as the 500 reply that
    the unique constraint causes.
- The `500` replies that come from exceptions are not modelled, such as an
  unparsable JSON body or a failed query. The "Config not found" replies of
  GET /api/config are modelled.
- Non-string JSON values are mostly not modelled. Request bodies are
  strings or absent, so a numeric password's missing `length` is left out.
  A truthy non-string rule value is represented by a string other than
  `WARN` and `BLOCK`, which the route refuses with the same 400.
- Page numbers beyond 2^53 are not modelled. Integers are unbounded, so
  floating-point rounding of very large values is not captured.
- JavaScript strings are sequences of UTF-16 code units.
  - `toUpperCase` is exact for ASCII and for the few other characters whose
    upper case is ASCII.
  - `toLowerCase` is exact for ASCII, the Kelvin sign and the dotted capital
    I.
  - Other non-ASCII characters are kept as they are. IBAN verdicts and the
    pattern tests are therefore exact, but a non-ASCII signup domain may be
    lower-cased differently.
- The login, invite, health and users routes, `app/lib/api.js` and the
  React pages other than the events filter and export are not modelled. The
  users route repeats the events route's page clamp.
- ContentScript.ContentScriptState.OnStorageChanged: the new value of
  `hasSeenOnboarding` is reduced to whether it is truthy.
- SignupRoute.Signup: the e-mail test is case-sensitive while the stored
  domain is lower-cased, as in the code. The comparison of e-mails with
  existing users is exact.

# Static content, account-type selection, contact names and history rows: a Dafny model

This project models the small deterministic parts of a React Native wallet app.

- **Static content.** There are three hooks: popups, banners and confirmations. Each hook does four things:
  - publishes its list: popups and banners after the time and platform checks, in ascending priority; confirmations as received;
  - seeds an impression history keyed `${position}-${id}`;
  - records shows in that history;
  - groups the items that pass their balance/earning conditions by display position.

  Each hook's store slice is a class with two fields:
  - `contentList`, the published list;
  - `historyMap`, the impression history.

  The setters are methods that reassign those fields. The filters, the sort and the merges are functions. Three source loops become methods with loop invariants, proved against those functions:
  - the seeding `reduce` and the bucketing `reduce` (shared modules);
  - the batch update of the banner history.
- **Account-type selection.** Clicking a type toggles it in the selected list. A type shows as selected exactly when it is in that list.
- **Contact editing.** This covers:
  - the names a contact may not take;
  - the name validator;
  - the trimming on submit;
  - when the Save button is disabled.
- **History rows.** This covers:
  - when a fee is shown;
  - which counterparty name or address labels the row;
  - what the right-hand column shows.

Modules:
- `Wrappers`: `Option`.
- `Seqs`: a generic `Filter`, proved to keep exactly the passing elements in order.
- `StaticContent`: the item datatypes, the condition filter, the stable priority sort and the bucketing.
- `ContentHistory`: seeding and show recording.
- `PopupContent`, `BannerContent`, `ConfirmationContent`: one store class per hook.
- `SelectAccountType`, `EditContact`, `HistoryItem`.

External inputs are parameters:
- the time predicate `checkPopupExistTime`;
- the evaluators `checkBalanceCondition` and `checkEarningCondition`;
- `Date.now()`;
- `Platform.OS`.

Confirmations are keyed `${position}-${id}` like the other two kinds (useHandleAppConfirmationMap.ts:27).

The seeding callbacks are declared with no dependencies, so they keep the history map they saw when they were created. The model makes that map an explicit argument, `seedBase`.

The condition filter runs over the store's published list. In the app, that list is the hook's own argument.

## Model

| member | source | states |
|---|---|---|
| Seqs.FilterCounts | src/hooks/static-content/useHandleAppPopupMap.ts:26 | `Array.prototype.filter` keeps each passing element as often as it occurs and drops every other element |
| Seqs.FilterMembers | src/hooks/static-content/useHandleAppPopupMap.ts:26 | the filtered list holds exactly the passing elements of the input |
| Seqs.FilterIsSubsequence | src/hooks/static-content/useHandleAppPopupMap.ts:79 | the filtered list keeps the input's relative order |
| Seqs.FilterConcat | src/hooks/static-content/useHandleAppPopupMap.ts:26-28 | filtering a concatenation is concatenating the filtered parts |
| Seqs.FilterNarrower | src/hooks/static-content/useHandleAppPopupMap.ts:79-92 | filtering by a stronger predicate after a weaker one equals filtering by the stronger one alone |
| Seqs.FilterAppend | src/hooks/static-content/useHandleAppPopupMap.ts:79 | filtering a list extended by one element extends the filtered list by that element exactly when it passes |
| StaticContent.ConditionPass | src/hooks/static-content/useHandleAppPopupMap.ts:80-91 | an item with an empty `conditions` object passes; an item fails exactly when both the balance and the earning conditions are present and both checks fail, so an absent condition counts as passed and a condition on its own never excludes an item |
| StaticContent.LoneConditionNeverExcludes | src/hooks/static-content/useHandleAppPopupMap.ts:81-88 | as written, an item carrying at most one of the two conditions always passes the condition filter, whatever that condition's check says |
| StaticContent.LoneFailingBalanceKept | src/hooks/static-content/useHandleAppPopupMap.ts:81-88 | an item whose only condition is a balance condition that fails is kept by the filter as written and excluded by the intended check |
| StaticContent.ConditionPassIntended | src/hooks/static-content/useHandleAppPopupMap.ts:80-91 | the intended check: an item with no condition passes; with both conditions it agrees with the check as written; with one condition it is exactly that condition's result; it never passes an item the check as written rejects |
| StaticContent.EmptinessTestRedundant | src/hooks/static-content/useHandleAppPopupMap.ts:80-91 | the empty-object test changes nothing: the predicate always equals balance-pass OR earning-pass |
| StaticContent.ConditionFilter | src/hooks/static-content/useHandleAppPopupMap.ts:78-93 | keeps exactly the items that pass their conditions, with their multiplicities, as a subsequence of the input (same relative order) |
| StaticContent.ConditionFilterIntended | src/hooks/static-content/useHandleAppPopupMap.ts:79-92 | the filter with the intended check keeps exactly the items that pass it, and equals the filter as written with the wrongly kept items removed, so it is a subsequence of that result |
| StaticContent.InsertByPriorityCounts | src/hooks/static-content/useHandleAppPopupMap.ts:35 | one insertion step of the sort adds exactly the inserted item |
| StaticContent.InsertByPrioritySorted | src/hooks/static-content/useHandleAppPopupMap.ts:35 | inserting into a list sorted by priority keeps it sorted |
| StaticContent.InsertByPriorityStable | src/hooks/static-content/useHandleAppPopupMap.ts:35 | an inserted item goes ahead of the items of equal priority already in the list, which keep their order |
| StaticContent.SortByPriority | src/hooks/static-content/useHandleAppPopupMap.ts:35 | `.sort((a, b) => a.priority - b.priority)`: the result is ascending by priority and a permutation of the input |
| StaticContent.SortByPriorityStable | src/hooks/static-content/useHandleAppPopupMap.ts:35 | the sort is stable: for each priority, the items of that priority keep their input order |
| StaticContent.SubsequenceSorted | src/hooks/static-content/useHandleAppPopupMap.ts:79-101 | dropping items from a list sorted by priority leaves it sorted, so filtering and grouping the published list keep ascending priority |
| StaticContent.InPosition | src/hooks/static-content/useHandleAppPopupMap.ts:97-100 | a position's list holds exactly the items at that position, in input order, and is non-empty when the position occurs |
| StaticContent.BucketsContents | src/hooks/static-content/useHandleAppPopupMap.ts:95-107 | the grouped object has a key for exactly the positions that occur; no list is empty; each list holds exactly that position's items as a subsequence of the input |
| StaticContent.BucketByPosition | src/hooks/static-content/useHandleAppPopupMap.ts:97-101 | the `reduce` that creates a list on first sight of a position and pushes each item onto it builds exactly the grouping specified by `Buckets` |
| StaticContent.BucketsAppend | src/hooks/static-content/useHandleAppPopupMap.ts:98-99 | one more item adds it at the end of its position's list and changes no other list |
| StaticContent.BucketSizesSum | src/hooks/static-content/useHandleAppPopupMap.ts:95-107 | the list lengths add up to the number of items: grouping loses and duplicates nothing |
| ContentHistory.Seeded | src/hooks/static-content/useHandleAppPopupMap.ts:42-53 | `{ ...newData, ...base }`: the keys are the items' `position-id` keys plus the old keys; old entries win; new keys hold `{0, 0}` |
| ContentHistory.SeedNewEntries | src/hooks/static-content/useHandleAppPopupMap.ts:43-52 | the seeding `reduce` writes `{0, 0}` under every item's `position-id` key and under no other key |
| ContentHistory.SeededIdempotent | src/hooks/static-content/useHandleAppPopupMap.ts:53 | seeding again with the same items changes nothing |
| ContentHistory.SeededCoversItems | src/hooks/static-content/useHandleAppPopupMap.ts:42-54 | after seeding, every input item's key is in the history |
| ContentHistory.RecordShow | src/hooks/static-content/useHandleAppPopupMap.ts:66-72 | recording a show needs the key to be present; it adds one to that key's count, sets its last show time to `now`, and keeps every other key and entry |
| ContentHistory.SeedingKeepsRecordedShow | src/hooks/static-content/useHandleAppPopupMap.ts:53 | seeding over a history that already holds a recorded show keeps it: the stored entry wins the merge |
| ContentHistory.SeededWellFormed | src/hooks/static-content/useHandleAppPopupMap.ts:42-56 | seeding over a history with no negative show count leaves none |
| ContentHistory.RecordShowWellFormed | src/hooks/static-content/useHandleAppPopupMap.ts:66-72 | recording a show in a history with no negative show count leaves none |
| ContentHistory.StaleBaseDropsShow | src/hooks/static-content/useHandleAppPopupMap.ts:42-56 | seeding again from a base captured before a show was recorded puts that item back at `{0, 0}`, although the recorded history had a count of 1 |
| ContentHistory.SeedOneItemExample | src/hooks/static-content/useHandleAppPopupMap.ts:42-53 | seeding one item at position "home" with id "1" over an empty history gives exactly `{"home-1": {0, 0}}` |
| PopupContent.ToLowerCase | src/hooks/static-content/useHandleAppPopupMap.ts:30 | lower-casing keeps the length, turns each capital letter into its small letter, leaves no capital letter, and changes no other character |
| PopupContent.ToLowerCaseIdempotent | src/hooks/static-content/useHandleAppPopupMap.ts:30 | lower-casing twice is lower-casing once |
| PopupContent.MatchesPlatform | src/hooks/static-content/useHandleAppPopupMap.ts:28-34 | a popup matches when it targets 'mobile' and, if it names an OS, that name lower-cased equals the runtime OS; with no OS named, 'mobile' alone decides |
| PopupContent.ActivePopups | src/hooks/static-content/useHandleAppPopupMap.ts:26-35 | the published list is ascending by priority and holds each input popup that passes the time check and the platform check, as often as it occurs, and nothing else |
| PopupContent.ActivePopupsStable | src/hooks/static-content/useHandleAppPopupMap.ts:26-35 | popups of equal priority are published in input order |
| PopupContent.PublishedAreSeeded | src/hooks/static-content/useHandleAppPopupMap.ts:58-64 | every published popup has a history entry after seeding |
| PopupContent.PopupStore.SetAppPopupData | src/hooks/static-content/useHandleAppPopupMap.ts:58-64 | `setAppPopupData` publishes the active popups and stores the seeded history; every published popup's key is in the new history; given a seeding base with no negative show count, the store invariant holds (published list sorted by priority, no negative show count, every published key in the history) |
| PopupContent.PopupStore.UpdatePopupHistoryMap | src/hooks/static-content/useHandleAppPopupMap.ts:66-76 | the new history is the old one with one more show of `id` at `now`; `id` must be present; the store invariant is kept |
| PopupContent.PopupStore.AppPopupMap | src/hooks/static-content/useHandleAppPopupMap.ts:78-107 | the grouping of the published popups that pass their conditions; every grouped popup is published and sits under its own position; every position's list is in ascending priority |
| PopupContent.HomeExample | src/hooks/static-content/useHandleAppPopupMap.ts:24-107 | two condition-free "home" popups with priorities 2 and 1, both active, are grouped as `{"home": [item2, item1]}` |
| BannerContent.ActiveBanners | src/hooks/static-content/useHandleAppBannerMap.ts:23-31 | the published list is ascending by priority and holds each input banner that passes the time check and targets 'mobile', with no OS check, as often as it occurs |
| BannerContent.ActiveBannersStable | src/hooks/static-content/useHandleAppBannerMap.ts:25-30 | banners of equal priority are published in input order |
| BannerContent.PublishedAreSeeded | src/hooks/static-content/useHandleAppBannerMap.ts:52-58 | every published banner has a history entry after seeding |
| BannerContent.RecordShownBatch | src/hooks/static-content/useHandleAppBannerMap.ts:59-71 | every listed key gets `{now, old count + 1}`, even when listed twice; unlisted keys are unchanged; no key is added; every listed key must be present; a one-key batch equals a single show |
| BannerContent.BannerStore.SetAppBannerData | src/hooks/static-content/useHandleAppBannerMap.ts:52-58 | `setAppBannerData` publishes the active banners and stores the seeded history (`position-id` keys, old entries win); every published banner's key is in it; given a seeding base with no negative show count, the store invariant holds (published list sorted, no negative show count, every published key in the history) |
| BannerContent.BannerStore.UpdateBannerHistoryMap | src/hooks/static-content/useHandleAppBannerMap.ts:59-74 | the history after a batch: listed keys recorded at `now`, every other entry unchanged, the same key set; the store invariant is kept |
| BannerContent.BannerStore.AppBannerMap | src/hooks/static-content/useHandleAppBannerMap.ts:76-105 | the grouping of the published banners that pass their conditions, in order, under their own positions; every position's list is in ascending priority |
| ConfirmationContent.ConfirmationStore.SetAppConfirmationData | src/hooks/static-content/useHandleAppConfirmationMap.ts:16-45 | publishes the input list unchanged; stores the seeded history keyed `position-id` with old entries winning; every confirmation's key is in it; given a seeding base with no negative show count, the store invariant holds (no negative show count, every published key in the history) |
| ConfirmationContent.ConfirmationStore.UpdateConfirmationHistoryMap | src/hooks/static-content/useHandleAppConfirmationMap.ts:47-57 | one more show of `id` at `now`, every other key unchanged; `id` must be present; the store invariant is kept |
| ConfirmationContent.ConfirmationStore.AppConfirmationMap | src/hooks/static-content/useHandleAppConfirmationMap.ts:59-88 | the grouping of the confirmations that pass their conditions, in order, under their own positions |
| SelectAccountType.Find | src/components/common/SelectAccountType/index.tsx:32 | `find(i => i === key)` finds something exactly when the key is in the list, and what it finds is the key |
| SelectAccountType.Toggle | src/components/common/SelectAccountType/index.tsx:30-40 | a selected key is removed with all its occurrences, the rest keeping their order and counts; an unselected key is appended at the end |
| SelectAccountType.ToggleFlips | src/components/common/SelectAccountType/index.tsx:30-40 | a toggle flips the key's membership and no other key's |
| SelectAccountType.ToggleTwiceAbsent | src/components/common/SelectAccountType/index.tsx:30-40 | toggling an unselected key twice restores the selection |
| SelectAccountType.ToggleTwicePresent | src/components/common/SelectAccountType/index.tsx:30-40 | toggling a selected key twice leaves the list without it plus one copy at the end |
| SelectAccountType.IsSelected | src/components/common/SelectAccountType/index.tsx:71-78 | an item is marked selected exactly when its key is in the selection |
| SelectAccountType.ClickFlipsMark | src/components/common/SelectAccountType/index.tsx:27-78 | a click on an item flips its selected mark |
| EditContact.TrimStart | src/components/Modal/AddressBook/EditContactModal.tsx:66 | `trimStart` removes a whitespace-only prefix and stops at a non-whitespace character |
| EditContact.TrimEnd | src/components/Modal/AddressBook/EditContactModal.tsx:66 | `trimEnd` removes a whitespace-only suffix and stops at a non-whitespace character |
| EditContact.Trim | src/components/Modal/AddressBook/EditContactModal.tsx:91 | the submitted name has no whitespace at either end, and is empty exactly when the input is all whitespace |
| EditContact.TrimIsSlice | src/components/Modal/AddressBook/EditContactModal.tsx:91 | trimming keeps a contiguous slice of the input and cuts only whitespace on each side |
| EditContact.TrimIdempotent | src/components/Modal/AddressBook/EditContactModal.tsx:91 | trimming twice is trimming once |
| EditContact.ExistNames | src/components/Modal/AddressBook/EditContactModal.tsx:62-68 | holds exactly the trimmed names (`''` for a missing name) of the contacts whose address differs from the edited one |
| EditContact.ValidateAsWritten | src/components/Modal/AddressBook/EditContactModal.tsx:70-85 | an empty name is "required"; a non-empty name found in `existNames` as typed, untrimmed, is "must be unique"; any other name is accepted |
| EditContact.ValidateName | src/components/Modal/AddressBook/EditContactModal.tsx:70-94 | the validator judged on the submitted name: "required" exactly when the name is all whitespace; accepted exactly when the trimmed name is non-empty and not taken |
| EditContact.SaveDisabled | src/components/Modal/AddressBook/EditContactModal.tsx:117-131 | Save is enabled exactly when the name field is dirty, nothing is loading, the name is not all whitespace and there are no errors |
| EditContact.SaveButtonDisabled | src/components/Modal/AddressBook/EditContactModal.tsx:190 | `isSaveDisabled \|\| loading` is the same as `isSaveDisabled` |
| EditContact.SaveEnabledSubmitsFreshName | src/components/Modal/AddressBook/EditContactModal.tsx:87-131 | with the intended validator, an enabled Save button submits a non-empty name that no other contact has |
| EditContact.UntrimmedDuplicateAccepted | src/components/Modal/AddressBook/EditContactModal.tsx:77-91 | the validator as written accepts " Alice" beside a contact "Alice"; Save is enabled; the name submitted is "Alice" |
| EditContact.WhitespaceNameAccepted | src/components/Modal/AddressBook/EditContactModal.tsx:73-91 | the validator as written accepts a name of spaces, and the name submitted is empty |
| HistoryItem.IsAbleToShowFee | src/components/common/HistoryItem/index.tsx:32-34 | no fee means no fee shown; with a fee, it is shown exactly when its value is neither `''` nor `'0'` |
| HistoryItem.ZeroFeeCases | src/components/common/HistoryItem/index.tsx:33 | a fee of `'0'` is hidden and a fee of `'0.0'` is shown |
| HistoryItem.CounterpartyLabel | src/components/common/HistoryItem/index.tsx:56-58 | a SEND row shows the sender's name or address and any other row the recipient's; the label is `''` exactly when neither field on that side is a non-empty string |
| HistoryItem.NamePreferred | src/components/common/HistoryItem/index.tsx:56-58 | a non-empty name wins over the address |
| HistoryItem.LabelReadsOneSide | src/components/common/HistoryItem/index.tsx:56-58 | the label of a SEND row does not depend on the recipient fields, and that of any other row does not depend on the sender fields |
| HistoryItem.RightPart | src/components/common/HistoryItem/index.tsx:65-93 | with balances shown: the fee amount is rendered exactly when `isAbleToShowFee` holds, and then its value is neither `''` nor `'0'`; otherwise a 20-point spacer is rendered; with balances hidden, the placeholder is told whether the fee is shown (`isAbleToShowFee`) |

## Left out

- `Date.now()`, `Platform.OS` and the external predicates are inputs. These are `checkPopupExistTime`, `checkBalanceCondition` and `checkEarningCondition`; their bodies are not part of this model.
- BannerContent.RecordShownBatch: uses one clock reading, `now`, for the whole batch. The source calls `Date.now()` once per listed key, so in the app the times may differ by milliseconds.
- StaticContent.SortByPriority: is an insertion sort. Since ECMAScript 2019, `Array.prototype.sort` must be stable, so any conforming engine gives the same result. Priorities are integers here; the comparator's floating-point subtraction is not modelled.
- PopupContent.ToLowerCase: lower-cases ASCII capitals only. `String.prototype.toLowerCase` also maps non-ASCII letters. OS names are ASCII.
- The three setters require a seeding base with no negative show count. The base is a history map the store built itself, where counts start at 0 and only grow.
- The condition filter: the store methods `AppPopupMap`, `AppBannerMap` and `AppConfirmationMap` use the check as written (`StaticContent.ConditionPass`), since they model the app as it runs. The intended check (`StaticContent.ConditionPassIntended`, `StaticContent.ConditionFilterIntended`) is stated beside it; see "## Findings".
- Redux dispatch, selectors, `useCallback`/`useMemo` memoisation and re-render timing are left out. The store is plain fields.
  - The stale history map read by the dependency-free seeding callbacks is the explicit `seedBase` argument.
- ContentHistory.SeedingKeepsRecordedShow: holds only when the seeding base already contains the recorded show. In the app, the seeding callbacks are created once with `[]` dependencies and spread the history map they captured then. A later `setAppPopupData`, `setAppBannerData` or `setAppConfirmationData` therefore puts every entry back to what the captured map held, and to `{0, 0}` for a key it lacked, and drops keys that neither it nor this data holds, losing the shows recorded since; `ContentHistory.StaleBaseDropsShow` states this. Whether the authors meant this cannot be told from the code, so it is not listed as a finding.
- The hooks run the condition filter over their argument `appPopupData` (and its banner and confirmation counterparts); the model runs it over the store's `contentList`. This rests on that argument being the list that `updateAppPopupData` writes, because the provider that calls the hooks is not part of this model.
- ContentHistory.Key: is not injective, because `position` or `id` may contain `-`. Two items can share a key. The model keeps the source's behaviour, including that collision, and proves no uniqueness.
- The item fields that only the external time predicate reads are an opaque map. These include the time window and the display limits.
- Condition payloads, and the yield positions the evaluators read, are opaque. So is the payload of each condition object key other than the two known keys; only the number of those other keys is kept.
- SelectAccountType.Toggle: the `KeypairType` values are a type parameter. The account types are non-empty strings, so `find` returning a match is the same as membership.
  - The list of items (Substrate/Ethereum) and their labels and icons are rendering only.
  - The selection is a value, so the previous list is never mutated; the copy in the source has the same effect.
- EditContact: the `loading` state is an input. So are the dirty flag and the error state that `react-hook-form` keeps. The asynchronous edit and remove calls, the toasts and the modal are not modelled.
- HistoryItem: icons, status colours, `displayData`, the chain logo, the amount formatting of `Number` and the `HideBalanceItem` rendering are not modelled. `TransactionDirection` values other than SEND behave as RECEIVE.
- The other screens and components next to these files are not part of this model. Their behaviour is navigation, camera access, timers, asynchronous bridge calls, floating-point price arithmetic or rendering.

## Findings

| source | as written | input that shows it | evidently intended | confidence | as-written member | corrected member |
|---|---|---|---|---|---|---|
| src/hooks/static-content/useHandleAppPopupMap.ts:88 | a missing condition counts as passed and the two results are OR-ed, so a condition on its own can never exclude an item; the same code is at useHandleAppBannerMap.ts:79-86 and useHandleAppConfirmationMap.ts:62-69 | a popup whose `conditions` hold only `condition-balance`, with `checkBalanceCondition` returning false: it is kept | exclude an item whose only condition fails, by OR-ing only the conditions present | not executed | StaticContent.LoneFailingBalanceKept | StaticContent.ConditionPassIntended |
| src/components/Modal/AddressBook/EditContactModal.tsx:77 | the uniqueness check compares the name as typed, but the name saved is trimmed (line 91) | another contact named "Alice"; the user types " Alice": validation passes, Save is enabled, and "Alice" is saved a second time | compare the trimmed name with `existNames`, so that no two contacts end up with the same saved name | not executed | EditContact.UntrimmedDuplicateAccepted | EditContact.ValidateName |
| src/components/Modal/AddressBook/EditContactModal.tsx:73 | the "required" check tests the raw string, so a name of spaces validates. Save is disabled for it (line 122), but the keyboard submit at line 164 is not guarded by the button | the user types "  " and submits from the keyboard: validation passes and the empty name is saved | reject a name that is empty after trimming | not executed | EditContact.WhitespaceNameAccepted | EditContact.ValidateName |

# crew-dashboard core, modelled in Dafny

This project models the parts of the crew dashboard that hold logic rather than layout:

- **The mock back end for activities** (`mock/activity.ts`). It keeps a module-level list of activities. `getActivities` filters that list by keyword, status, type and a date window, optionally sorts it by one column given as a JSON sorter, and returns one page of the result. `postActivities` creates, updates or deletes entries.
- **The mock back end for managed users** (`mock/managedUsers.ts`). It works the same way with a keyword, status and role filter, a comparator that lets missing values tie, and its own defaults on create.
- **The event list page's response helpers** (`src/pages/event/list/index.tsx`):
  - `normalizeEventItem` reads every field of an event from the first of a list of alias keys that is not null or undefined (a `??` chain).
  - `extractEventList`, `resolveResponseSuccess` and `resolveResponseTotal` find the list, the success flag and the total in several response shapes.
  - `buildEventPayload` sends each form value under its base key and under every alias key.
- **The policy page** (`src/pages/policy/index.tsx`). The policy is kept as lists of paragraphs and clauses. The edit form shows each list as one text: paragraphs are joined with a blank line, clauses with a line break. Saving splits the texts back into lists and trims the two single-line fields, falling back to the defaults when they are blank.

Modules:

| file | module | what |
|---|---|---|
| `js.dfy` | `Js` | JavaScript value semantics the code relies on: `||` on optional strings, `toLowerCase`, `includes`, `trim`, `localeCompare`, `String(n)`, `join`, `split` on one character |
| `seqs.dfy` | `Seqs` | `filter`, `map`, `slice`, the page arithmetic, and `Array.prototype.sort` as a stable insertion sort, both as a function and as an in-place method on an array |
| `activity_mock.dfy` | `ActivityMock` | `filterActivities`, `getActivities`, `postActivities`; the module-level list is the field of class `Store` |
| `managed_users_mock.dfy` | `ManagedUsersMock` | `getManagedUsers`, `postManagedUsers`; the same shape |
| `event_list.dfy` | `EventList` | `parseDateValue`, `normalizeEventItem` with `toNumber`, `extractEventList`, `resolveResponseSuccess`, `resolveResponseTotal` |
| `event_payload.dfy` | `EventPayload` | `buildEventPayload` |
| `policy.dfy` | `Policy` | `splitByLineBreak`, `splitByParagraph`, `usePolicyFormInitialValues`, `handleSave` |

The environment is passed in as parameters:

- The date library (`dayjs(v).isValid()` / `valueOf()`) becomes a function `parse` from text to optional epoch milliseconds.
- `toISOString()` becomes a function `iso`.
- `Date.now()` becomes a natural number `now`.
- `Number(s)` restricted to finite results becomes a function `number`.

In `EventList` these are gathered in the datatype `Host`.

## Model

| member | source | states |
|---|---|---|
| Js.OrElse | mock/activity.ts:180-186 | `s \|\| fallback` on an optional string: the string when it is present and non-empty, the fallback when it is undefined or empty |
| Js.ToLower | mock/activity.ts:68-73 | lower-casing keeps the length and maps each character through the (ASCII) lower-case table |
| Js.Includes | mock/activity.ts:71-73 | `hay.includes(needle)` is true exactly when `needle` occurs in `hay` at some index |
| Js.Trim | src/pages/policy/index.tsx:22 | the trimmed text has no leading or trailing white space and is no longer than the input; that only white space is removed is stated by Js.TrimIsSlice |
| Js.TrimEmptyIffBlank | src/pages/policy/index.tsx:107-109 | `trim()` gives '' exactly when every character of the text is white space |
| Js.TrimIsSlice | src/pages/policy/index.tsx:22 | the trimmed text is a contiguous slice of the input, and everything cut off before and after it is white space |
| Js.TrimmedIsFixpoint | src/pages/policy/index.tsx:22 | trimming a text that is already trimmed changes nothing |
| Js.CompareStrings | mock/activity.ts:123-125 | `localeCompare` gives -1, 0 or 1, and 0 exactly for equal texts |
| Js.CompareStringsAntisymmetric | mock/activity.ts:123-125 | swapping the operands of `localeCompare` negates the result |
| Js.CompareStringsTransitive | mock/activity.ts:123-125 | the string order is transitive |
| Js.NatToString | mock/activity.ts:175 | `` `${Date.now()}` `` is a non-empty string of decimal digits |
| Js.SplitOn | src/pages/policy/index.tsx:21 | `split('\n')` gives at least one piece, and no piece contains the separator |
| Js.JoinSplitOn | src/pages/policy/index.tsx:21 | joining the pieces of `split(sep)` with `sep` gives back the original text |
| Js.SplitOnJoin | src/pages/policy/index.tsx:74-78 | splitting a join of separator-free pieces gives back exactly those pieces |
| Seqs.Filter | mock/activity.ts:69-83 | `filter` keeps only elements that satisfy the predicate, keeps every one that does, and keeps their order (a subsequence) |
| Seqs.FilterCount | mock/activity.ts:69-83 | `filter` keeps every copy of a passing value and no copy of a failing one: the count of any value in the result is its count in the input, or 0 |
| Seqs.FilterKeepsExactly | mock/activity.ts:224 | an element is in the filtered list if and only if it satisfies the predicate |
| Seqs.FilterTwice | mock/activity.ts:69-83 | two successive filters are one filter by the conjunction |
| Seqs.Map | mock/activity.ts:200-215 | `map` keeps the length and applies the function at every index |
| Seqs.Slice | mock/activity.ts:154 | `slice(start, end)` holds the elements at `[start, end)` clipped to the list, in order |
| Seqs.PageNumber | mock/activity.ts:152 | `Number(current) \|\| 1` is at least 1 and is the requested page when that is not 0 |
| Seqs.PageSize | mock/activity.ts:153 | `Number(pageSize) \|\| 10` is at least 1 and is the requested size when that is not 0 |
| Seqs.Page | mock/activity.ts:154 | a page holds at most `size` elements, the ones from offset `(page - 1) * size` on, and is empty past the end |
| Seqs.PagesPartition | mock/activity.ts:154 | the first n pages laid end to end are the first `n * size` elements: pages neither overlap nor skip |
| Seqs.AllPagesGiveEverything | mock/activity.ts:154 | enough pages together give back the whole list |
| Seqs.SortSpec | mock/activity.ts:94-104 | the sorter is used only when its first entry has a non-empty key and order, and then it is that entry |
| Seqs.InsertIsPermutation | mock/activity.ts:105 | inserting an element adds exactly that element |
| Seqs.SortedByIsPermutation | mock/activity.ts:105 | sorting only reorders: the result is a permutation of the input |
| Seqs.InsertKeepsOrder | mock/activity.ts:105 | inserting into an ordered list keeps it ordered, for an antisymmetric comparator |
| Seqs.SortedByIsOrdered | mock/activity.ts:105 | for an antisymmetric comparator, no two neighbours in the sorted list are out of order |
| Seqs.SortedByOrderedIsIdentity | mock/activity.ts:105 | sorting a list that is already in order leaves it unchanged (the sort is stable) |
| Seqs.SortedByIdempotent | mock/activity.ts:105 | sorting twice is sorting once |
| Seqs.SortInPlace | mock/activity.ts:105-126 | the in-place array sort leaves the array equal to the sorted list of its old contents |
| Seqs.InsertAt | mock/activity.ts:105 | one insertion pass moves `a[i]` into the ordered prefix and leaves the rest of the array alone |
| Seqs.SortedCopy | mock/activity.ts:105 | sorting a copy of a list gives the sorted list |
| ActivityMock.InWindow | mock/activity.ts:85-92 | an activity is in the window exactly when both bounds and its start are valid dates and its start lies between them, both ends included |
| ActivityMock.MatchingSelects | mock/activity.ts:65-92 | the four filter stages together are one filter by "every supplied criterion holds" |
| ActivityMock.MatchingIsSubsequence | mock/activity.ts:65-92 | the filtered list keeps the original order and holds an activity if and only if it meets every supplied criterion |
| ActivityMock.DescendSwapsOperands | mock/activity.ts:116-125 | any order other than 'ascend' compares with the operands swapped |
| ActivityMock.ComparatorAntisymmetric | mock/activity.ts:105-126 | the comparator is antisymmetric for every key and order |
| ActivityMock.ListedIsPermutation | mock/activity.ts:94-133 | sorting only reorders the filtered activities, and without a usable sorter the filtered list is returned as it is |
| ActivityMock.ListedIsOrdered | mock/activity.ts:94-131 | with a usable sorter, no two neighbours in the result are out of order by its comparator |
| ActivityMock.ListedSortsMatching | mock/activity.ts:94-131 | with a usable sorter, the result is the filtered list sorted by the comparator |
| ActivityMock.SortedByParticipants | mock/activity.ts:118-122 | sorting by participants orders the counts ascending for 'ascend' and descending otherwise |
| ActivityMock.SortByParticipants | mock/activity.ts:118-122 | the listed activities are ordered by participant count in the requested direction |
| ActivityMock.CompareDates | mock/activity.ts:108-117 | two valid dates compare by the difference of their times, reversed for descending order |
| ActivityMock.SortedByDate | mock/activity.ts:108-117 | when every value of the key is a valid date, the sort orders them by time in the requested direction |
| ActivityMock.SortByDate | mock/activity.ts:108-117 | the listed activities are ordered by time when every filtered value of the key is a valid date |
| ActivityMock.UnknownKeyKeepsOrder | mock/activity.ts:123-125 | a sort key that is no field of an activity ties everything, so the filtered order is kept |
| ActivityMock.FilterActivities | mock/activity.ts:55-134 | the staged filtering and sorting loop returns the filtered list, sorted when a usable sorter is given |
| ActivityMock.NewActivity | mock/activity.ts:174-190 | a created activity takes its id from the clock, its stamps from now, and each default ('online', 'draft', '未指定', '待定', 0, now, now plus two hours) when the body leaves the field out |
| ActivityMock.Merge | mock/activity.ts:200-211 | an update keeps the id; each of title, type, status, organizer, location, description and `createdAt` is the body's when the body carries it and the stored one otherwise; the stored participants and times are kept when the body's are 0 or empty; `updatedAt` is stamped |
| ActivityMock.UpdateAll | mock/activity.ts:200-215 | the list after an update has the same length and ids; every entry with the id becomes its merge with the body, and every entry with another id is unchanged |
| ActivityMock.LastWithId | mock/activity.ts:201-213 | the index of the last entry with the id, -1 exactly when no entry has it; no later entry has the id |
| ActivityMock.LastMerged | mock/activity.ts:199-216 | the returned activity is undefined exactly when no entry has the id, and otherwise is the merge of the LAST entry with that id (ids from the clock can repeat) |
| ActivityMock.DeleteRemovesExactly | mock/activity.ts:219-224 | deleting keeps the order and removes an activity if and only if its id is listed |
| ActivityMock.Store.List | mock/activity.ts:136-163 | the GET response holds the page of the listed activities, the total of the filtered ones, the normalised page and size, and success |
| ActivityMock.Store.Create | mock/activity.ts:174-192 | a post puts the new activity at the head of the list |
| ActivityMock.Store.Update | mock/activity.ts:194-217 | an update without an id is a 400 that changes nothing; otherwise the list is merged and the merged activity returned |
| ActivityMock.Store.Delete | mock/activity.ts:218-226 | a delete keeps exactly the activities whose id is not in `ids`, or the one `id` when `ids` is missing |
| ActivityMock.Store.Handle | mock/activity.ts:165-231 | the POST handler dispatches on `method`; an unknown method answers success and changes nothing |
| ManagedUsersMock.MatchingSelects | mock/managedUsers.ts:56-75 | the keyword, status and role stages together are one filter by "every supplied criterion holds" |
| ManagedUsersMock.MatchingIsSubsequence | mock/managedUsers.ts:56-75 | the filtered list keeps the original order and holds a user if and only if it meets every supplied criterion |
| ManagedUsersMock.DescendSwapsOperands | mock/managedUsers.ts:94-102 | any order other than 'ascend' compares with the operands swapped |
| ManagedUsersMock.ComparatorAntisymmetric | mock/managedUsers.ts:88-105 | the comparator is antisymmetric for every key and order |
| ManagedUsersMock.ListedIsPermutation | mock/managedUsers.ts:77-110 | sorting only reorders the filtered users, and without a usable sorter the filtered list is kept |
| ManagedUsersMock.ListedIsOrdered | mock/managedUsers.ts:77-110 | with a usable sorter, no two neighbours in the result are out of order by its comparator |
| ManagedUsersMock.ListedSortsMatching | mock/managedUsers.ts:77-110 | with a usable sorter, the result is the filtered list sorted by the comparator |
| ManagedUsersMock.CompareDates | mock/managedUsers.ts:94-98 | two valid dates compare by the difference of their times, reversed for descending order |
| ManagedUsersMock.SortedByDate | mock/managedUsers.ts:94-98 | when every value of the key is a valid date, the sort orders them by time in the requested direction |
| ManagedUsersMock.SortByDate | mock/managedUsers.ts:94-98 | the listed users are ordered by time when every filtered value of the key is a valid date |
| ManagedUsersMock.MissingKeyKeepsOrder | mock/managedUsers.ts:91-93 | when no filtered user has a value for the key, everything ties and the filtered order is kept |
| ManagedUsersMock.NewUser | mock/managedUsers.ts:135-147 | a created user takes its id from the clock, its creation stamp from now, and the defaults 'viewer', 'pending' and now for a missing role, status and last login |
| ManagedUsersMock.Merge | mock/managedUsers.ts:159-165 | an update keeps the id; each of name, email, phone, department, notes and `createdAt` is the body's when the body carries it and the stored one otherwise; the stored role, status and last login are kept when the body's are empty |
| ManagedUsersMock.UpdateAll | mock/managedUsers.ts:157-169 | the list after an update has the same length and ids; every entry with the id becomes its merge with the body, and every entry with another id is unchanged |
| ManagedUsersMock.LastWithId | mock/managedUsers.ts:158-167 | the index of the last entry with the id, -1 exactly when no entry has it; no later entry has the id |
| ManagedUsersMock.LastMerged | mock/managedUsers.ts:156-170 | the returned user is undefined exactly when no entry has the id, and otherwise is the merge of the LAST entry with that id (ids from the clock can repeat) |
| ManagedUsersMock.DeleteRemovesExactly | mock/managedUsers.ts:173-178 | deleting keeps the order and removes a user if and only if its id is listed |
| ManagedUsersMock.Store.List | mock/managedUsers.ts:42-123 | the GET response holds the page of the listed users, the total of the filtered ones, the normalised page and size, and success |
| ManagedUsersMock.Store.Create | mock/managedUsers.ts:134-149 | a post puts the new user at the head of the list |
| ManagedUsersMock.Store.Update | mock/managedUsers.ts:151-171 | an update without an id is a 400 that changes nothing; otherwise the list is merged and the merged user returned |
| ManagedUsersMock.Store.Delete | mock/managedUsers.ts:172-180 | a delete keeps exactly the users whose id is not in `ids`, or the one `id` when `ids` is missing |
| ManagedUsersMock.Store.Handle | mock/managedUsers.ts:125-186 | the POST handler dispatches on `method`; an unknown method answers success and changes nothing |
| EventList.Coalesce | src/pages/event/list/index.tsx:85-97 | a `??` chain gives the first operand that is neither null nor undefined, or the last operand when all are; its result is nullish only when every operand is |
| EventList.ChainFirstPresent | src/pages/event/list/index.tsx:162-170 | a chain whose first key is present reads that key |
| EventList.ChainAllAbsent | src/pages/event/list/index.tsx:182-187 | a chain none of whose keys exists is undefined |
| EventList.ToNumber | src/pages/event/list/index.tsx:99-108 | a number is kept, a string goes through `Number` and is kept only when finite, and anything else is undefined |
| EventList.ParseDateValue | src/pages/event/list/index.tsx:70-82 | undefined, null and '' give undefined; a valid date gives its ISO text; an invalid string is kept as it is; anything else is undefined |
| EventList.FallbackId | src/pages/event/list/index.tsx:171 | the made-up id is never empty |
| EventList.EventId | src/pages/event/list/index.tsx:162-171 | the id is `String` of the first id alias present; with no id alias present it is the made-up id; so it is empty only when some id alias holds a value that prints as '' |
| EventList.EventTitle | src/pages/event/list/index.tsx:173-181 | the title is the first title alias present, or '未命名 Event' when there is none |
| EventList.NormalizeReadsKind | src/pages/event/list/index.tsx:182-187 | the type is the first present of its six aliases |
| EventList.NormalizeReadsStatus | src/pages/event/list/index.tsx:188-194 | the status is the first present of its seven aliases |
| EventList.NormalizeReadsOrganizer | src/pages/event/list/index.tsx:195-205 | the organizer is the first present of its aliases |
| EventList.NormalizeReadsLocation | src/pages/event/list/index.tsx:206-215 | the location is the first present of its aliases |
| EventList.NormalizeReadsDescription | src/pages/event/list/index.tsx:219-227 | the description is the first present of its aliases |
| EventList.NormalizeReadsParticipants | src/pages/event/list/index.tsx:85-97 | the participant count is `toNumber` of the first present of its aliases |
| EventList.NormalizeReadsStartTime | src/pages/event/list/index.tsx:110-123 | the start time is `parseDateValue` of the first present of its aliases |
| EventList.NormalizeReadsEndTime | src/pages/event/list/index.tsx:124-139 | the end time is `parseDateValue` of the first present of its aliases |
| EventList.NormalizeReadsCreatedAt | src/pages/event/list/index.tsx:141-150 | the creation time is `parseDateValue` of the first present of its aliases |
| EventList.NormalizeReadsUpdatedAt | src/pages/event/list/index.tsx:151-160 | the update time is `parseDateValue` of the first present of its aliases |
| EventList.EmptyTitleIsKept | src/pages/event/list/index.tsx:173-181 | an empty title is kept, because `??` only skips null and undefined |
| EventList.FallbackIdShape | src/pages/event/list/index.tsx:171 | with no id alias, the id is the title, a dash, and the start value or else the clock |
| EventList.RawList | src/pages/event/list/index.tsx:236-253 | no response gives []; an array is used as it is; otherwise the first present list key is used when it holds an array, and [] otherwise |
| EventList.ExtractEventList | src/pages/event/list/index.tsx:233-258 | the events are the normalised entries of the raw list, in order, with an empty id dropped and every entry with a non-empty id kept; each event occurs as many times as among the normalised entries |
| EventList.EntryWithoutIdIsKept | src/pages/event/list/index.tsx:255-257 | an entry with no id alias is never dropped, because its made-up id is non-empty |
| EventList.ResolveSuccess | src/pages/event/list/index.tsx:260-265 | no response and an array both count as success; otherwise `success`, or true when it is null or undefined |
| EventList.TotalCandidates | src/pages/event/list/index.tsx:277-284 | the total is looked up at the seven listed paths, in order |
| EventList.ResolveTotal | src/pages/event/list/index.tsx:267-287 | no response or an array gives the fallback; otherwise the first present total path, and in any case either the fallback or one of the paths' values |
| EventList.TotalFallbackWhenAbsent | src/pages/event/list/index.tsx:277-286 | with none of the total paths present, the fallback is returned |
| EventPayload.BaseRecord | src/pages/event/list/index.tsx:295-305 | the base payload maps each of the nine base keys to its column's value |
| EventPayload.AliasRecord | src/pages/event/list/index.tsx:307-332 | the alias object maps every title, organizer, location, participant and description alias to its column's value |
| EventPayload.TitleAliasRecord | src/pages/event/list/index.tsx:308 | `name` carries the title |
| EventPayload.OrganizerAliasRecord | src/pages/event/list/index.tsx:309-313 | the five organizer aliases carry the organizer |
| EventPayload.LocationAliasRecord | src/pages/event/list/index.tsx:314-319 | the six location aliases carry the location |
| EventPayload.ParticipantAliasRecord | src/pages/event/list/index.tsx:320-327 | the eight participant aliases carry the participant count |
| EventPayload.DescriptionAliasRecord | src/pages/event/list/index.tsx:328-331 | the four description aliases carry the description |
| EventPayload.FillStartAliases | src/pages/event/list/index.tsx:334-342 | the seven start assignments add exactly the start aliases, each holding the start time |
| EventPayload.FillEndAliases | src/pages/event/list/index.tsx:344-352 | the seven end assignments add exactly the end aliases, each holding the end time |
| EventPayload.BuildEventPayload | src/pages/event/list/index.tsx:289-358 | the method builds the payload in which every base key and alias holds its column's value |
| EventPayload.ParticipantsFanOut | src/pages/event/list/index.tsx:293-327 | the participant count, 0 when missing, is sent under every participant key |
| EventPayload.StartAliasSentIffSet | src/pages/event/list/index.tsx:334-342 | a start alias is sent if and only if a date range was picked |
| EventPayload.EndAliasSentIffSet | src/pages/event/list/index.tsx:344-352 | an end alias is sent if and only if a date range was picked |
| EventPayload.BaseKeysKept | src/pages/event/list/index.tsx:354-357 | every base key is in the final payload and holds its base value (that no alias has a base key's JSON name is EventPayload.KeyNameInjective) |
| EventPayload.KeyNameInjective | src/pages/event/list/index.tsx:295-352 | no two keys of the payload share a name, so no spread or assignment overwrites another field |
| Policy.SplitParagraphs | src/pages/policy/index.tsx:27 | `split(/\n{2,}/)` gives at least one piece, the first a prefix of the text, and no piece contains two newlines in a row |
| Policy.LineBreakGivesClauses | src/pages/policy/index.tsx:19-23 | every element of `splitByLineBreak` is non-empty, trimmed and on one line |
| Policy.ParagraphGivesParagraphs | src/pages/policy/index.tsx:25-29 | every element of `splitByParagraph` is non-empty, trimmed and free of blank lines |
| Policy.ParagraphAfter | src/pages/policy/index.tsx:27 | the regular expression splits at a run of two or more newlines, taking the whole run, between pieces that do not end or start with one |
| Policy.RunFirst | src/pages/policy/index.tsx:27 | a text that starts with a run of two or more newlines splits into an empty first piece and the split of the rest |
| Policy.SplitParagraphsJoin | src/pages/policy/index.tsx:27 | splitting paragraphs joined with a blank line gives back the paragraphs |
| Policy.LineBreakRoundTrip | src/pages/policy/index.tsx:74-78 | clauses joined with '\n' and split again by `splitByLineBreak` come back unchanged |
| Policy.ParagraphRoundTrip | src/pages/policy/index.tsx:73 | paragraphs joined with '\n\n' and split again by `splitByParagraph` come back unchanged |
| Policy.LineBreakIdempotent | src/pages/policy/index.tsx:19-23 | splitting, joining and splitting again gives the same clauses as splitting once |
| Policy.ParagraphIdempotent | src/pages/policy/index.tsx:25-29 | splitting, joining and splitting again gives the same paragraphs as splitting once |
| Policy.CleanKeepsTrimmed | src/pages/policy/index.tsx:22-23 | trim-and-filter leaves a list of non-empty trimmed texts unchanged |
| Policy.TrimOr | src/pages/policy/index.tsx:107-113 | `text.trim() \|\| fallback` is the fallback for a blank text and the non-empty trimmed text otherwise |
| Policy.HandleSave | src/pages/policy/index.tsx:100-119 | a form that fails validation leaves the content as it was; a valid one stores the trimmed retention and last-updated texts, or the defaults when they are blank |
| Policy.FallbacksAreSingleTexts | src/pages/policy/index.tsx:56-67 | the default retention text and last-updated date are non-empty and trimmed |
| Policy.TrimOrIsSingleText | src/pages/policy/index.tsx:107-113 | with a non-empty trimmed fallback, the saved single text is non-empty and trimmed |
| Policy.SaveKeepsWellFormed | src/pages/policy/index.tsx:100-119 | after any save, every list holds clauses or paragraphs and both single texts are non-empty and trimmed |
| Policy.SaveUnchangedKeeps | src/pages/policy/index.tsx:70-82 | saving the form exactly as it is opened leaves well-formed content unchanged |
| Policy.SaveIsStable | src/pages/policy/index.tsx:89-114 | after a save, opening the form and saving again changes nothing |

## Left out

- Express requests and responses, `url.parse` of the query string, and the generated sample data are not modelled. The handlers take the parsed query, the body, the clock and the date functions as parameters, and return the JSON they would send as a datatype.
- `JSON.parse` of the sorter is modelled as its outcome: either the parsed list of `[key, order]` entries, or a parse failure that leaves the list unsorted.
- `toLowerCase` is modelled for ASCII letters only. `localeCompare` is modelled as code-point order, not locale collation.
- Seqs.SortedBy: `Array.prototype.sort` is modelled as a stable insertion sort. The engine's algorithm gives the same result for a consistent comparator but may differ for an inconsistent one, such as a date key where only some values are valid dates.
- Seqs.PageNumber: `current` and `pageSize` are natural numbers, so a negative page or size, which `Number(current) || 1` would pass on to `slice` as negative bounds, is not modelled. The same holds for Seqs.PageSize.
- Numbers are unbounded integers. Fractional numbers, `NaN` and floating-point rounding are not modelled. A body's `participants` is already a number; `Number(body.participants)` on text is not modelled.
- `parse`, `iso`, `number` and `now` stand for dayjs, `toISOString`, `Number` and `Date.now`. Their own behaviour is not modelled.
- ActivityMock.NewActivity: requires a title. The record type holds it as a string; the source would store `undefined` when the body lacks one.
- ActivityMock.Store.Create: requires a title, for the same reason.
- ActivityMock.Store.Handle: requires a title when the method is 'post', for the same reason.
- ManagedUsersMock.NewUser: requires a name and an email. The record type holds them as strings; the source would store `undefined` when the body lacks them.
- ManagedUsersMock.Store.Create: requires a name and an email, for the same reason.
- ManagedUsersMock.Store.Handle: requires a name and an email when the method is 'post', for the same reason.
- ActivityMock.Merge: every field of an activity that a body carries is merged, `createdAt` included. Keys that are no field of an activity, which `...body` would also copy onto the record (`method`, `ids`, any other), are dropped. A body value of `null` is not distinguished from a missing one.
- ManagedUsersMock.Merge: the same holds for users.
- ActivityMock.InWindow: follows the code. When either bound is not a valid date, every activity is dropped, because comparisons with an invalid date are false.
- EventList: JSON key order, `String()` of fractional numbers, and objects with a custom `toString` are not modelled.
- EventPayload.BuildEventPayload: the payload is a map from keys to values. The order of keys in the sent JSON is not modelled. `undefined` values are kept as `None` entries, where `JSON.stringify` would leave them out.
- A round trip from `buildEventPayload` back through `normalizeEventItem` is not stated. Normalising does not restore the form's date range and description alias in a way worth a lemma.
- Policy.HandleSave: React state, the modal, `message.success` and the asynchronous `validateFields` are not modelled. Validation is modelled as antd's `required` rule, which rejects only an empty text; a text of white space passes.
- Policy.WellFormed: it is not proved of the default policy content. The default texts are long literals, and the verifier cannot check them character by character for line breaks. Only the two fallback texts are shown to be non-empty and trimmed.
- `openEditModal` and `handleCancel` only open and close the modal, and are not modelled.

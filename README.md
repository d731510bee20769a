# Green Dashboard pages: a Dafny model

This project models the logic inside three pages of the Green Dashboard admin
front end, with the markup stripped away.

- **Notifications page.** A list of notification records is held as page state. Three handlers replace the list: mark one as read, mark all as read, and delete one. A drop-down chooses which notifications are shown. Three counters summarise the list. Each notification's type and priority map to an icon and a border colour.
- **Users page.** The user table shows the users whose name or e-mail contains the search term, ignoring case, and whose status matches the status drop-down. The footer reports how many of the users are shown. Each row's avatar holds the initials of the user's name.
- **Settings page.** The page state is a two-level settings object, category then key then value. `updateSetting` replaces one value by copying and overriding. Toggle rows get a heading derived from their camelCase key. The appearance panel lists every appearance setting except the theme. The active tab selects the panel.

The modules are:

- `Collections`: the behaviour of `Array.prototype.filter` and `Array.prototype.map`, and order-preserving subsequences.
- `Text`: ASCII `toLowerCase`, `includes` on strings, and `trim` with the JavaScript white-space set.
- `Records`: a plain JavaScript object as an insertion-ordered list of properties, updated by the spread `{...obj, [key]: value}`. It also gives the object's reading as a finite map.
- `Notifications`: the pure transitions, views and counters, plus the class `NotificationCenter` that holds the page state.
- `Users`: pure functions only.
- `Settings`: the pure update, label and dispatch functions, plus the class `SettingsPanel` that holds the page state.

The page state, which the source keeps in React `useState` hooks, becomes the fields of `NotificationCenter` and `SettingsPanel`. Each handler becomes a method that replaces a field. That method is proved equal to a pure function of the old state, and the lemmas about that function carry the properties.

## Model

| member | source | states |
|---|---|---|
| Collections.Filter | src/pages/Notifications.tsx:127 | `filter` keeps no more elements than it is given, and every element it keeps satisfies the predicate |
| Collections.Map | src/pages/Notifications.tsx:117-123 | `map` keeps the length and applies the function to each element in place |
| Collections.FilterIsSubsequence | src/pages/Notifications.tsx:130-134 | the result of `filter` is an order-preserving subsequence of its input |
| Collections.FilterMembership | src/pages/Users.tsx:97-103 | an element is in the filtered array exactly when it is in the input and satisfies the predicate |
| Collections.FilterKeepsAll | src/pages/Notifications.tsx:130-134 | filtering returns the whole array exactly when every element passes |
| Collections.FilterEmpty | src/pages/Notifications.tsx:296 | filtering returns nothing exactly when no element passes |
| Collections.FilterAgree | src/pages/Users.tsx:97-103 | predicates that agree on every element filter alike |
| Collections.FilterMonotone | src/pages/Users.tsx:97-103 | a stronger predicate keeps a subsequence of what a weaker one keeps |
| Collections.FilterPartition | src/pages/Notifications.tsx:126-128 | filters by a predicate and by its complement together account for every element |
| Collections.FilterConcat | src/pages/Notifications.tsx:130-134 | filtering distributes over concatenation |
| Collections.FilterIdempotent | src/pages/Notifications.tsx:130-134 | filtering twice by one predicate equals filtering once |
| Collections.SubsequenceLength | src/pages/Users.tsx:246 | a subsequence is never longer than the sequence it comes from |
| Collections.SubsequenceReflexive | src/pages/Notifications.tsx:133 | every sequence is a subsequence of itself |
| Collections.SubsequenceMembers | src/pages/Users.tsx:97-103 | every element of a subsequence occurs in the original |
| Text.LowerChar | src/pages/Users.tsx:98-99 | ASCII `toLowerCase` of one character: a capital becomes the small letter at the same place in the alphabet, and any other character is unchanged |
| Text.Lower | src/pages/Users.tsx:98-99 | `toLowerCase` keeps the length and lowers each character in place |
| Text.LowerIdempotent | src/pages/Users.tsx:98-99 | lowering twice equals lowering once |
| Text.LowerSlice | src/pages/Users.tsx:98-99 | lowering commutes with taking a slice |
| Text.LowerContains | src/pages/Users.tsx:98-99 | if a string contains another, their lower-case forms do too |
| Text.ContainsTransitive | src/pages/Users.tsx:98-99 | `includes` is transitive |
| Text.ContainsFirstChar | src/pages/Notifications.tsx:201 | a non-empty needle whose first character does not occur in the haystack is not included |
| Text.ContainsEmpty | src/pages/Users.tsx:98-99 | every string includes the empty string |
| Text.Contains | src/pages/Users.tsx:98-99 | `includes`: the needle occurs at some offset; its properties are in `LowerContains`, `ContainsTransitive`, `ContainsFirstChar` and `ContainsEmpty` |
| Text.Trim | src/pages/Settings.tsx:170 | `trim`: the left trim of the right trim; specified by `TrimStart`, `TrimEnd` and `TrimSpec` |
| Text.TrimStart | src/pages/Settings.tsx:170 | the result is a suffix of the input, everything dropped is white space, and the result does not start with white space |
| Text.TrimEnd | src/pages/Settings.tsx:170 | the result is a prefix of the input, everything dropped is white space, and the result does not end with white space |
| Text.TrimSpec | src/pages/Settings.tsx:170 | `trim` leaves no white space at either end and removes nothing but white space |
| Text.TrimStartKeeps | src/pages/Settings.tsx:170 | dropping leading white space keeps every other character, in order |
| Text.TrimEndKeeps | src/pages/Settings.tsx:170 | dropping trailing white space keeps every other character, in order |
| Text.TrimOfTrimmed | src/pages/Settings.tsx:170 | `trim` leaves a string with no white space at its ends unchanged |
| Records.Keys | src/pages/Settings.tsx:166 | `Object.keys` in insertion order; specified by `KeysAt` and `PutKeys` |
| Records.AsMap | src/pages/Settings.tsx:60-68 | the object read as a finite map, the first property of a key winning; related to the ordered object by `LookupAsMap` and `PutAsMap` |
| Records.Lookup | src/pages/Settings.tsx:64 | `obj[k]` is defined exactly when the object has the key `k`, and then it is that property's value |
| Records.Put | src/pages/Settings.tsx:61-67 | the spread update keeps the length when the key exists, appends the property when it does not, and introduces no other property |
| Records.LookupAsMap | src/pages/Settings.tsx:60-68 | with unique keys, reading a property agrees with the object's map view |
| Records.PutLookupSame | src/pages/Settings.tsx:66 | after `{...obj, [k]: v}`, `k` reads as `v` |
| Records.PutLookupOther | src/pages/Settings.tsx:65 | after `{...obj, [k]: v}`, every other key reads as before |
| Records.PutIdempotent | src/pages/Settings.tsx:60-68 | the same spread update applied twice equals applying it once |
| Records.PutKeys | src/pages/Settings.tsx:61-67 | an existing key keeps its place, a new key is appended, and no other key moves, so the `Object.entries` order is kept |
| Records.PutUnique | src/pages/Settings.tsx:61-67 | the spread update keeps keys unique |
| Records.KeysAt | src/pages/Settings.tsx:166 | `Object.keys` lists each property's key at its own position |
| Records.PutAsMap | src/pages/Settings.tsx:60-68 | seen as a map, the spread update is exactly the map update `m[k := v]` |
| Notifications.GetIcon | src/pages/Notifications.tsx:92-103 | `success`, `warning` and `error` each get their own icon and nothing else does; every other type gets the info icon; each icon has its shape's colour |
| Notifications.PriorityColor | src/pages/Notifications.tsx:105-114 | red exactly for `high`, yellow exactly for `medium`, blue exactly for everything else |
| Notifications.SeedNotifications | src/pages/Notifications.tsx:17-90 | the initial list, record for record; `SeedUniqueIds` proves its ids unique |
| Notifications.MarkedAsRead | src/pages/Notifications.tsx:116-120 | the list after `markAsRead(id)`; specified by `MarkAsReadSpec` and the lemmas after it |
| Notifications.AllMarkedRead | src/pages/Notifications.tsx:122-124 | the list after `markAllAsRead()`; specified by `MarkAllAsReadSpec` |
| Notifications.Deleted | src/pages/Notifications.tsx:126-128 | the list after `deleteNotification(id)`; specified by `DeleteSpec` |
| Notifications.View | src/pages/Notifications.tsx:130-134 | `filteredNotifications`; specified by `ViewSpec` |
| Notifications.UnreadCount | src/pages/Notifications.tsx:136 | `unreadCount`; specified by `CountsSpec` |
| Notifications.HighCount | src/pages/Notifications.tsx:190 | the "High Priority" card; specified by `CountsSpec` |
| Notifications.IsToday | src/pages/Notifications.tsx:201 | the "Today" test: the time mentions `hour` or `minute`; illustrated by `TodayExamples` and `DayAgoNotToday` |
| Notifications.TodayCount | src/pages/Notifications.tsx:201 | the "Today" card, the number of entries passing `IsToday`; bounded by the total in `CountsSpec` |
| Notifications.MarkAsReadSpec | src/pages/Notifications.tsx:116-120 | `markAsRead(id)` keeps length and order; each entry keeps every field except that `read` becomes true where the id matches |
| Notifications.MarkAsReadIdempotent | src/pages/Notifications.tsx:116-120 | marking the same id twice equals marking it once |
| Notifications.MarkAsReadAbsent | src/pages/Notifications.tsx:116-120 | marking an id no entry has leaves the list unchanged |
| Notifications.MarkAsReadUnreadCount | src/pages/Notifications.tsx:116-120 | the unread count drops by exactly the number of unread entries with that id |
| Notifications.MarkAsReadUnreadCountUnique | src/pages/Notifications.tsx:136 | with unique ids, marking an unread entry lowers the badge by one |
| Notifications.MarkAsReadUnreadBounds | src/pages/Notifications.tsx:116-120 | with unique ids, marking any id read lowers the unread count by at most one and never raises it |
| Notifications.DeleteRemovesAtMostOne | src/pages/Notifications.tsx:126-128 | with unique ids, deleting any id removes at most one entry and keeps the ids unique |
| Notifications.TodayCountUnchangedByRead | src/pages/Notifications.tsx:116-124 | marking one or all entries read leaves the "Today" count (line 201) unchanged |
| Notifications.AtMostOneWithId | src/pages/Notifications.tsx:17-90 | with unique ids, at most one entry has a given id |
| Notifications.MarkAllAsReadSpec | src/pages/Notifications.tsx:122-124 | `markAllAsRead` keeps length, order and every field but `read`; every entry is read afterwards, so `unreadCount` is 0 |
| Notifications.MarkAllAsReadCoversEveryId | src/pages/Notifications.tsx:122-124 | marking all as read agrees, entry by entry, with marking that entry's own id |
| Notifications.DeleteSpec | src/pages/Notifications.tsx:126-128 | deletion leaves an order-preserving subsequence in which no survivor has the id; a record survives exactly when it was there with another id; kept plus removed entries account for the whole list |
| Notifications.DeleteAbsent | src/pages/Notifications.tsx:126-128 | deleting an id no entry has is a no-op |
| Notifications.DeleteIdempotent | src/pages/Notifications.tsx:126-128 | deleting twice equals deleting once |
| Notifications.DeleteUnique | src/pages/Notifications.tsx:126-128 | with unique ids, deleting an entry's id removes exactly that one entry, and the ids stay unique |
| Notifications.SubsequenceUnique | src/pages/Notifications.tsx:126-128 | a subsequence of a list with unique ids has unique ids |
| Notifications.MarkAsReadKeepsIds | src/pages/Notifications.tsx:116-124 | marking one or all as read keeps the ids unique |
| Notifications.ViewSpec | src/pages/Notifications.tsx:130-134 | the view is an order-preserving subsequence; `unread` shows exactly the unread entries and `high` exactly the high-priority ones, each as many times as the list holds them (the view and its complement together account for every entry); any other value shows the whole list |
| Notifications.CountsSpec | src/pages/Notifications.tsx:136 | the unread count is the length of the `unread` view and the high count that of the `high` view, neither above the total; the unread count is 0 exactly when every entry is read |
| Notifications.SeedUniqueIds | src/pages/Notifications.tsx:17-90 | the initial list has unique ids |
| Notifications.TodayExamples | src/pages/Notifications.tsx:201 | times given in minutes or hours count towards "Today" |
| Notifications.DayAgoNotToday | src/pages/Notifications.tsx:201 | "1 day ago" does not count towards "Today" |
| Notifications.NotificationCenter.constructor | src/pages/Notifications.tsx:16-90 | the page starts with the initial list and the filter `all`, and its ids are unique |
| Notifications.NotificationCenter.SetFilter | src/pages/Notifications.tsx:219 | choosing a filter changes only the filter |
| Notifications.NotificationCenter.MarkAsRead | src/pages/Notifications.tsx:116-120 | the list becomes the old list with `read` set where the id matches, entry by entry; the ids stay unique; the unread count falls by at most one; the filter is unchanged |
| Notifications.NotificationCenter.MarkAllAsRead | src/pages/Notifications.tsx:122-124 | every entry becomes read, and nothing else about it changes; the ids stay unique; the unread count is 0; the filter is unchanged |
| Notifications.NotificationCenter.DeleteNotification | src/pages/Notifications.tsx:126-128 | the list becomes an order-preserving subsequence of the old one, holding exactly the old records with another id and at most one entry fewer; the ids stay unique; the filter is unchanged |
| Notifications.NotificationCenter.Visible | src/pages/Notifications.tsx:130-134 | what the list section shows: the view of the current list under the current filter, specified by `ViewSpec` |
| Users.MatchesSearch | src/pages/Users.tsx:98-99 | the search half of the predicate: name or e-mail contains the term, all lower-cased |
| Users.MatchesStatus | src/pages/Users.tsx:100-101 | the status half: `all`, or the lower-cased status equals the selected value as given |
| Users.FilteredUsers | src/pages/Users.tsx:97-103 | `filteredUsers`; specified by `FilteredUsersSpec` and the lemmas after it |
| Users.FilteredUsersSpec | src/pages/Users.tsx:97-103 | the table is an order-preserving subsequence of the users and never longer than the total; a user is shown exactly when both the search and the status accept it, as many times as the list holds them (shown plus hidden users are all of them) |
| Users.StatusFilterExact | src/pages/Users.tsx:100-101 | under any status other than `all`, every user shown has exactly that lower-cased status |
| Users.ActiveIsNotInactive | src/pages/Users.tsx:100-101 | `active` matches `Active` and not `Inactive`, and `inactive` does not match `Active` |
| Users.UppercaseStatusShowsNobody | src/pages/Users.tsx:100-101 | a selected status holding an upper-case letter, other than `all`, shows nobody, because the selected value is not lower-cased |
| Users.EmptySearchShowsAll | src/pages/Users.tsx:97-103 | with an empty search and `all`, every user is shown, in order |
| Users.NarrowingSearch | src/pages/Users.tsx:98-99 | when the old search term occurs in the new one, the new table is a subsequence of the old one and no longer |
| Users.SearchIgnoresCase | src/pages/Users.tsx:98-99 | a search term and its lower-case form show the same users |
| Users.Split | src/pages/Users.tsx:187 | `split(' ')` yields at least one piece, and no piece contains a space |
| Users.FirstChars | src/pages/Users.tsx:187 | `.map(n => n[0]).join('')`; related to word starts by `FirstCharsSplit` |
| Users.Initials | src/pages/Users.tsx:187 | the avatar text; specified by `InitialsAreWordStarts` |
| Users.JoinSplit | src/pages/Users.tsx:187 | joining the pieces of `split(' ')` with spaces gives the name back |
| Users.SplitJoin | src/pages/Users.tsx:187 | splitting space-joined pieces without spaces gives the pieces back |
| Users.SplitWord | src/pages/Users.tsx:187 | a leading word without spaces extends the first piece of the split |
| Users.FirstCharsSplit | src/pages/Users.tsx:187 | the first characters of the split pieces are the characters that begin a word |
| Users.InitialsAreWordStarts | src/pages/Users.tsx:187 | the initials are the first character of every space-separated word, in order; empty pieces add nothing |
| Users.WordStartsBounds | src/pages/Users.tsx:187 | there are never more initials than characters, and no initial is a space |
| Users.InitialsExample | src/pages/Users.tsx:187 | `Sarah Johnson` gives `SJ` |
| Settings.InitialSettings | src/pages/Settings.tsx:19-50 | the initial settings object, category for category and value for value; `InitialSettingsSpec` proves it well formed |
| Settings.CategoryOf | src/pages/Settings.tsx:64 | `prev[category]`, a missing category spreading as nothing |
| Settings.Updated | src/pages/Settings.tsx:60-68 | the object after `updateSetting(c, k, v)`; specified by `UpdateThenGet`, `UpdateFrame`, `UpdateIdempotent`, `UpdateKeepsOrder`, `UpdateWellFormed` and `UpdateAsNested` |
| Settings.UpdateThenGet | src/pages/Settings.tsx:60-68 | after `updateSetting(c, k, v)`, `settings[c][k]` is `v` |
| Settings.UpdateFrame | src/pages/Settings.tsx:61-67 | every other category reads as before, and so does every other key of `c` |
| Settings.UpdateIdempotent | src/pages/Settings.tsx:60-68 | applying the same update twice equals applying it once |
| Settings.UpdateKeepsOrder | src/pages/Settings.tsx:61-67 | categories and the keys of the updated category keep their order; a new one is appended |
| Settings.UpdateWellFormed | src/pages/Settings.tsx:60-68 | the update keeps keys unique at both levels and keeps every category |
| Settings.UpdateAsNested | src/pages/Settings.tsx:60-68 | read as a map of maps, the update is `m[c := m[c][k := v]]`, with a missing category read as empty |
| Settings.SpaceBeforeCapitals | src/pages/Settings.tsx:170 | `key.replace(/([A-Z])/g, ' $1')`; specified by the four `SpaceBeforeCapitals…` lemmas |
| Settings.KeyLabel | src/pages/Settings.tsx:285 | the toggle heading, the replacement then `trim`; specified by `KeyLabelSpec` and the lemmas after it |
| Settings.SpaceBeforeCapitalsLength | src/pages/Settings.tsx:170 | the replacement adds exactly one character per upper-case letter |
| Settings.SpaceBeforeCapitalsOnlySpaces | src/pages/Settings.tsx:170 | the replacement adds only white space; the other characters are the key's, in order |
| Settings.SpaceBeforeCapitalsCapitals | src/pages/Settings.tsx:170 | every upper-case letter of the result comes right after a space |
| Settings.SpaceBeforeCapitalsEnds | src/pages/Settings.tsx:170 | the result starts with the key's first character, or with a space and that character if it is a capital, and ends with the key's last character |
| Settings.SpaceBeforeCapitalsConcat | src/pages/Settings.tsx:170 | the replacement distributes over concatenation |
| Settings.NoCapitalsUnchanged | src/pages/Settings.tsx:170 | without upper-case letters the replacement changes nothing |
| Settings.KeyLabelSpec | src/pages/Settings.tsx:170 | the label has no white space at either end and differs from the key only in white space |
| Settings.KeyLabelLength | src/pages/Settings.tsx:285 | for a key starting in lower case with no white space at its ends, the label is as long as the key plus its capitals |
| Settings.KeyLabelCapitalFirst | src/pages/Settings.tsx:285 | a key starting with a capital loses the leading space, so its label is one shorter |
| Settings.KeyLabelNoCapitals | src/pages/Settings.tsx:285 | a key without capitals and without white space at its ends is its own label |
| Settings.CapitalisedWord | src/pages/Settings.tsx:170 | a word whose only capital is its first letter gets one space in front |
| Settings.KeyLabelTwoWords | src/pages/Settings.tsx:170 | a two-word camelCase key is labelled as its two words separated by one space |
| Settings.KeyLabelCamelCase | src/pages/Settings.tsx:170 | `emailNotifications` is labelled `email Notifications` |
| Settings.KeyLabelLowerCase | src/pages/Settings.tsx:285 | `animations` is labelled `animations` |
| Settings.Toggles | src/pages/Settings.tsx:281 | the appearance entries without `theme`; specified by `TogglesSpec` |
| Settings.TogglesSpec | src/pages/Settings.tsx:281 | the toggle list is an order-preserving subsequence of the appearance entries; it has no `theme` and holds every other entry |
| Settings.TabContent | src/pages/Settings.tsx:382-397 | `notifications`, `security`, `appearance` and `data` each select their own panel and nothing else does; `profile` and every unknown id select the profile panel |
| Settings.TabsReachEveryPanel | src/pages/Settings.tsx:52-58 | the five tab ids reach all five panels, a different one each |
| Settings.InitialSettingsSpec | src/pages/Settings.tsx:19-50 | the initial object has all five categories, with unique keys at both levels |
| Settings.DefaultsUnique | src/pages/Settings.tsx:19-50 | each initial category has unique keys |
| Settings.InitialToggles | src/pages/Settings.tsx:281 | initially the appearance panel lists every appearance setting but the theme |
| Settings.SettingsPanel.constructor | src/pages/Settings.tsx:17-50 | the page starts on the profile tab, with the password hidden and the initial, well-formed settings |
| Settings.SettingsPanel.UpdateSetting | src/pages/Settings.tsx:60-68 | the settings become the updated object, in which the written key reads as the new value; other categories and other keys are unchanged; well-formedness is kept; the tab and the password eye are unchanged |
| Settings.SettingsPanel.SelectTab | src/pages/Settings.tsx:412 | clicking a tab changes only the active tab |
| Settings.SettingsPanel.ToggleShowPassword | src/pages/Settings.tsx:140 | the eye button flips only the password visibility |
| Settings.SettingsPanel.Content | src/pages/Settings.tsx:382-397 | the panel shown for the active tab, specified by `TabContent` |
| Settings.SettingsPanel.AppearanceToggles | src/pages/Settings.tsx:281 | the toggle rows of the current appearance settings, specified by `TogglesSpec` |

## Left out

- The time-range aggregation helpers imported from `src/utils/dataUtils` are not part of this model. Their source is not available, so their behaviour cannot be stated.
- Markup is not modelled: JSX, Tailwind class strings, the lucide-react icon components, and the `capitalize` CSS on the toggle labels. An icon is modelled as its shape and its colour class.
- The other pages and components are not modelled: routing, layout, chart wrappers, stat cards and the static mock tables. They hold constants, floating-point display formatting and calls into chart libraries.
- React hooks, re-rendering and event objects are not modelled. State is held in explicit fields, and each handler is a method called with the value the event carries.
- The user list of the Users page (src/pages/Users.tsx:34-95) is not modelled. The filter and initials are proved for every list of users.
- `Users.FirstChar`: takes the first character as a whole Unicode scalar value. JavaScript's `n[0]` (src/pages/Users.tsx:187) takes the first UTF-16 code unit, so for a name starting outside the Basic Multilingual Plane the source shows a lone surrogate where the model shows the whole character. The same holds of every string in the model: lengths and offsets count characters, not UTF-16 code units.
- `Settings.SettingsPanel.UpdateSetting`: the source accepts a value of any type (src/pages/Settings.tsx:60). The model narrows it to a checkbox state or a text value (`Flag` or `Choice`), the two kinds the page passes.
- The priority badge ternary in the notification rows (src/pages/Notifications.tsx:258-264) is presentation only and is not modelled.
- `Text.Lower`: models `toLowerCase` on ASCII letters only. Other characters are left unchanged, whereas JavaScript also lowers non-ASCII letters.
- The white space that `trim` removes is a fixed character set: the ECMAScript white-space and line-terminator characters, with Unicode category Zs taken as the characters it holds today.
- `Records.Keys`: keeps insertion order for every key. JavaScript lists integer-like keys first in ascending order, but the settings objects have none.
- `Settings.KeyLabelCamelCase`: the example is stated for the key written as `"email" + "Notifications"`, which is the same string as `emailNotifications`.
- `Users.InitialsExample`: proves one name, not the initials of every seeded user.
- The three counters are not proved for the literal initial list. `Notifications.SeedUniqueIds` proves the list's ids are unique.

# QuickPay contacts and payment selection, modelled in Dafny

QuickPay is a React Native payment front-end. Almost all of it is
presentation. This project models the part that holds state and makes
decisions:

- the **contacts screen** (`ContactScreen`): the contact list, the
  add-contact form in a modal, its Save guard, `handleAdd`, `toggleModal`,
  the load effect run on mount and the persist effect that writes the whole
  list under the key `contacts` after every change;
- the **dashboard** (`DashboardScreen`): it re-reads the stored list on
  every focus and falls back to the empty list when the value is missing or
  empty, the read fails or the text does not parse;
- the **contacts preview** (`ContactsSection`): the first six contacts, the
  total count, the "View All"/"Add" label and the empty state;
- the **contact card** (`ContactCard`): the `Contact` record, `getInitials`,
  and the press handler that hands the card's contact to `onPay`;
- the **pay screen** (`PayScreen`): the Bank/UPI selector and its dropdown,
  the amount, the remark, the Pay guard and the routing fields shown for
  each method;
- the **bottom tabs** (`BottomTabs`): the selected tab, the Scan button
  that navigates instead of selecting, the screen shown and the focused
  button.

Screens whose fields change in place are classes (`ContactScreen`,
`DashboardScreen`, `PayScreen`, `BottomTabs`). Their methods say exactly
what the new state is. The view logic is made of pure functions. The
JavaScript built-ins they use are written out in `Builtins`: `slice(0, k)`,
`split(' ')`, `join`, an ASCII `toUpperCase`, and `toString` on the clock
reading. The device store is a `DeviceStore` object holding a map from keys
to strings. The contacts screen and the dashboard share one store. JSON is
abstract: a stored string is either the serialisation of a contact list
(`ContactsJson`) or text that does not parse as one (`OtherText`). Reads and
writes can fail, and a flag parameter says when they do. `Date.now()` is a
parameter `now`. Alerts and navigation requests are recorded in a log
(`effects`, `navigations`).

`AppFlow` puts the screens together. One flow saves a draft on the contacts
screen, then refocuses the dashboard, which reads the list back. A second
flow adds two contacts and checks that the newest comes first.

Behaviour of the code worth knowing before reading the model:

- The two screens load the list differently. When the read fails or the
  text does not parse, the dashboard shows the empty list
  (`LoadedOrEmpty`), but the contacts screen keeps the list it had
  (`LoadedOrKept`).
- Ids come from `Date.now().toString()`, so two contacts added in the same
  millisecond share one (`NewContactIds`).
- Only the form's Save button checks the name and mobile number
  (`Draft.CanSave`); `handleAdd` accepts any draft.
- On the contacts screen, a successful load replaces the list, and that
  fires the persist effect, which writes the value back. The write stores
  the value that was just read, so the store does not change
  (`ContactScreen.ContactScreen.Load`).
- The confirmation alert's text is kept as the source file writes it. The
  file holds the rupee sign double-encoded, as `â‚¹` (`PayScreen.PaidPrefix`).

## Model

| member | source | states |
|---|---|---|
| `Builtins.Take` | app/components/ContactsSection.tsx:27 | `slice(0, k)` returns a prefix of its input of length min(k, n) |
| `Builtins.Split` | app/components/ContactCard.tsx:33 | `split(sep)` gives one more piece than there are separators |
| `Builtins.JoinSplit` | app/components/ContactCard.tsx:33 | joining the pieces of a split with the separator gives back the original string |
| `Builtins.SplitJoin` | app/components/ContactCard.tsx:33 | splitting a join of separator-free pieces gives back those pieces (the inverse direction) |
| `Builtins.SplitPiecesFree` | app/components/ContactCard.tsx:33 | no piece of a split contains the separator |
| `Builtins.FirstChar` | app/components/ContactCard.tsx:34 | `p[0]` gives at most one character: the piece's first character, or nothing (standing for `undefined`) exactly when the piece is empty |
| `Builtins.FirstChars` | app/components/ContactCard.tsx:34 | `.map(p => p[0])` gives one entry per piece, each the first character of that piece |
| `Builtins.Concat` | app/components/ContactCard.tsx:36 | `join('')` is as long as all pieces together and starts with the first piece |
| `Builtins.ConcatShort` | app/components/ContactCard.tsx:34-36 | joining pieces of at most one character each gives at most one character per piece, which bounds the initials at two |
| `Builtins.ToUpperCase` | app/components/ContactCard.tsx:37 | upper-casing maps each character to its upper case and keeps the length |
| `Builtins.NumberToString` | app/screens/ContactScreen.tsx:115 | the printed clock reading is a non-empty string of decimal digits with no leading zero |
| `Builtins.NumberToStringRoundTrip` | app/screens/ContactScreen.tsx:115 | reading the printed digits back gives the clock reading |
| `Builtins.NumberToStringInjective` | app/screens/ContactScreen.tsx:115 | different clock readings print as different id strings |
| `ContactCard.Initials` | app/components/ContactCard.tsx:31-37 | `getInitials` has at most two characters |
| `ContactCard.InitialsAgree` | app/components/ContactCard.tsx:31-37 | `getInitials` equals an independent rule: the upper-cased first character unless it is a space, then the character after the first space unless that is missing or a space |
| `ContactCard.InitialsOfFullName` | app/screens/ProfileScreen.tsx:50-55 | "Javed Khan" gives "JK", the initials the profile screen shows for its user |
| `ContactCard.InitialsWithLeadingSpace` | app/components/ContactCard.tsx:33-35 | " Javed Khan" gives "J": the empty first piece adds nothing but uses one of the two places |
| `ContactCard.InitialsOfShortNames` | app/components/ContactCard.tsx:31-37 | an empty name gives no initials; a single word gives its upper-cased first letter |
| `ContactCard.Press` | app/components/ContactCard.tsx:55 | pressing the card calls `onPay` with the card's own contact |
| `ContactCard.IndexOf` | app/components/ContactCard.tsx:33 | the position of the first space, or the length when there is none; nothing before it is a space |
| `Storage.Truthy` | app/screens/ContactScreen.tsx:105 | the `str &&` test (also `if (raw)` at DashboardScreen.tsx:26) fails only on the empty string: a serialised array or any non-empty text passes |
| `Storage.Parse` | app/screens/ContactScreen.tsx:105 | `JSON.parse` succeeds exactly on a serialised contact array, and gives back that array; the empty string never parses |
| `Storage.Stringify` | app/screens/ContactScreen.tsx:111 | the serialised list is truthy and parses back to the same list |
| `Storage.StringifyParse` | app/screens/ContactScreen.tsx:105 | a list parsed from a stored value serialises back to that value |
| `Storage.DeviceStore.GetItem` | app/screens/ContactScreen.tsx:104 | a read fails exactly when told to; otherwise it yields the stored value, or absent when the key is missing |
| `Storage.DeviceStore.SetItem` | app/screens/ContactScreen.tsx:111 | a successful write replaces the key's value; a failed write changes nothing |
| `ContactScreen.Draft.With` | app/screens/ContactScreen.tsx:79 | editing one input sets that field and leaves the other six as they were |
| `ContactScreen.Draft.CanSave` | app/screens/ContactScreen.tsx:88 | the Save guard `form.name && form.mobile` holds exactly when both are non-empty strings, so the freshly mounted empty form cannot be saved |
| `ContactScreen.FormFieldsCoverDraft` | app/screens/ContactScreen.tsx:37-65 | the form has seven inputs, one per draft field, none twice, and it starts with all of them empty |
| `ContactScreen.NewContact` | app/screens/ContactScreen.tsx:115 | the new contact's id is the printed clock reading, and all its other fields are the submitted draft |
| `ContactScreen.NewContactIds` | app/screens/ContactScreen.tsx:115 | two new contacts share an id exactly when they were created at the same clock reading |
| `ContactScreen.Prepend` | app/screens/ContactScreen.tsx:115 | adding makes the list one longer, puts the new contact first and keeps the old entries in order behind it |
| `ContactScreen.AddTwiceOrder` | app/screens/ContactScreen.tsx:114-115 | adding A and then B gives [B, A] ahead of the old list |
| `ContactScreen.LoadedOrKept` | app/screens/ContactScreen.tsx:103-107 | a present, non-empty, parsable value replaces the list; an absent or empty value, a failed read or a parse error keeps it |
| `ContactScreen.LoadAfterWrite` | app/screens/ContactScreen.tsx:103-112 | loading the value the persist effect wrote gives back the written list |
| `ContactScreen.ContactScreen.constructor` | app/screens/ContactScreen.tsx:96-99 | the screen starts with an empty list, the modal hidden and an empty form |
| `ContactScreen.ContactScreen.Persist` | app/screens/ContactScreen.tsx:110-112 | the whole list is serialised under the one key; a failed write is dropped |
| `ContactScreen.ContactScreen.Load` | app/screens/ContactScreen.tsx:103-107 | the list becomes `LoadedOrKept` of the read outcome, and the store keeps its value after the echo write |
| `ContactScreen.ContactScreen.HandleAdd` | app/screens/ContactScreen.tsx:114-117 | the list becomes the new contact followed by the old list; the modal closes; the whole new list is persisted |
| `ContactScreen.ContactScreen.ToggleModal` | app/screens/ContactScreen.tsx:119-133 | visibility flips; opening mounts an empty form; the list is untouched |
| `ContactScreen.ContactScreen.EditField` | app/screens/ContactScreen.tsx:74-79 | typing into an input of the open form updates only that field |
| `ContactScreen.ContactScreen.Cancel` | app/screens/ContactScreen.tsx:84-86 | Cancel from the open form closes it and leaves the list alone |
| `ContactScreen.ContactScreen.Save` | app/screens/ContactScreen.tsx:87-88 | Save submits exactly when name and mobile are both non-empty, and then adds, closes and persists; otherwise the list, the open modal, the typed form and the store all stay as they were |
| `ContactScreen.ContactScreen.PressCard` | app/screens/ContactScreen.tsx:135-144 | pressing a card requests the pay screen with that very contact |
| `ContactScreen.ContactScreen.PressBack` | app/screens/ContactScreen.tsx:148 | the header's back arrow requests going back and changes nothing else |
| `Navigation.PayCallback` | app/screens/ContactScreen.tsx:139 | the `onPay` both list screens pass their cards requests the pay route carrying exactly the pressed contact (also DashboardScreen.tsx:97) |
| `ContactsSection.Inline` | app/components/ContactsSection.tsx:27 | the preview holds the first min(6, n) contacts, in the list's order |
| `ContactsSection.Render` | app/components/ContactsSection.tsx:37-66 | the count is the full list's length; the label is "View All" exactly when there are more than six contacts, else "Add"; the empty state shows exactly when the list is empty, otherwise exactly the preview rows |
| `ContactsSection.PressRow` | app/components/ContactsSection.tsx:29-35 | pressing preview row i calls `onPay` with the i-th contact of the whole list, unchanged |
| `DashboardScreen.LoadedOrEmpty` | app/screens/DashboardScreen.tsx:23-33 | a present, non-empty, parsable value becomes the list; an absent or empty value, a failed read and a parse error all give the empty list |
| `DashboardScreen.DashboardLoadIsLoadFromEmpty` | app/screens/DashboardScreen.tsx:23-33 | the dashboard's load is the contacts screen's load started from an empty list; the contacts screen either keeps its list or agrees with the dashboard |
| `DashboardScreen.DashboardScreen.constructor` | app/screens/DashboardScreen.tsx:21 | the dashboard starts with an empty list |
| `DashboardScreen.DashboardScreen.OnFocus` | app/screens/DashboardScreen.tsx:35-39 | every focus replaces the list with `LoadedOrEmpty` of a fresh read; the old list plays no part |
| `DashboardScreen.DashboardScreen.Section` | app/screens/DashboardScreen.tsx:94-98 | the preview is rendered from the dashboard's whole list |
| `DashboardScreen.DashboardScreen.ViewAll` | app/screens/DashboardScreen.tsx:96 | the preview's button requests the contacts screen |
| `DashboardScreen.DashboardScreen.PayFromRow` | app/screens/DashboardScreen.tsx:97 | a preview row requests the pay screen with the i-th contact of the list |
| `PayScreen.ShownFields` | app/screens/PayScreen.tsx:118-161 | UPI shows the contact's UPI id and Bank shows its account number and IFSC, each blank when missing; nothing but the method and the contact decides this |
| `PayScreen.PaidMessage` | app/screens/PayScreen.tsx:62 | the confirmation starts with the prefix and the amount, ends with the contact's name, has the length of its parts with " via " and " to " between them, and is never the empty-amount alert |
| `PayScreen.PayScreen.constructor` | app/screens/PayScreen.tsx:43-48 | the screen starts with method Bank, dropdown closed and empty amount and remark, and keeps the contact it was given |
| `PayScreen.PayScreen.AvatarInitials` | app/screens/PayScreen.tsx:66-71 | the avatar's initials follow the same rule as `getInitials` |
| `PayScreen.PayScreen.Fields` | app/screens/PayScreen.tsx:117-161 | the UPI field shows exactly when the method is UPI |
| `PayScreen.PayScreen.PressSelector` | app/screens/PayScreen.tsx:88-91 | tapping the selector toggles the dropdown and leaves the method unchanged |
| `PayScreen.PayScreen.ChooseMethod` | app/screens/PayScreen.tsx:101-108 | choosing an item sets the method to it and closes the dropdown |
| `PayScreen.PayScreen.EditAmount` | app/screens/PayScreen.tsx:164-173 | typing sets the amount and nothing else |
| `PayScreen.PayScreen.EditNote` | app/screens/PayScreen.tsx:177-187 | typing sets the remark and nothing else |
| `PayScreen.PayScreen.HandlePay` | app/screens/PayScreen.tsx:60-64 | an empty amount only alerts "Enter an amount"; any other amount alerts a confirmation naming amount, method and contact, then goes back once; the state is unchanged |
| `PayScreen.PayScreen.PressBack` | app/screens/PayScreen.tsx:75 | the header's back arrow goes back and changes nothing else |
| `BottomTabs.RenderScreen` | app/screens/BottomTabs.tsx:72-81 | each tab has its own screen: Dashboard and Profile show their views, and only Scan gives the empty placeholder |
| `BottomTabs.Buttons` | app/screens/BottomTabs.tsx:91-130 | the bar has one button per tab, in order: the Scan button for Scan, and for each other tab a button focused exactly when it is selected |
| `BottomTabs.OneFocusedTab` | app/screens/BottomTabs.tsx:114-126 | with a selection other than Scan, exactly one button is focused, and it is the selected tab's |
| `BottomTabs.BottomTabs.constructor` | app/screens/BottomTabs.tsx:53 | the selection starts at Dashboard |
| `BottomTabs.BottomTabs.PressTab` | app/screens/BottomTabs.tsx:114-119 | pressing Dashboard or Profile selects it and keeps the selection off Scan |
| `BottomTabs.BottomTabs.PressScan` | app/screens/BottomTabs.tsx:56-70 | pressing Scan requests the Scan route and leaves the selection unchanged |
| `BottomTabs.BottomTabs.Screen` | app/screens/BottomTabs.tsx:72-81 | while the selection is never Scan, the Scan placeholder is never rendered |
| `BottomTabs.BottomTabs.Bar` | app/screens/BottomTabs.tsx:91-131 | the bar has three buttons with the Scan button in the middle |
| `AppFlow.TypeDraft` | app/screens/ContactScreen.tsx:71-80 | typing each input of the open form in turn leaves the form equal to the typed draft |
| `AppFlow.SaveThenRefocus` | app/screens/DashboardScreen.tsx:23-39 | after a save on the contacts screen, the refocused dashboard shows the new contact in front of what was stored; an invalid draft leaves the stored list as it was |
| `AppFlow.SaveTwoThenRefocus` | app/screens/ContactScreen.tsx:114-116 | two contacts saved in turn come back from storage newest first |

## Left out

- Animations, layout and styling in every file: timing curves, springs, interpolation, `Dimensions` and the responsive sizes are floating-point presentation.
- `AsyncStorage` and `JSON` are modelled abstractly. The store is a map updated at once. JSON text is either a serialised contact list, exactly as `JSON.stringify` writes it, or text that does not parse.
- `Storage.Parse`: stored text that parses to a list but is not what `JSON.stringify` writes (extra whitespace, another writer's formatting) has no faithful value in the model: written as `OtherText`, it counts as a parse failure, although `JSON.parse` would accept it. The contacts screen's echo write would rewrite such text in canonical form, so `ContactScreen.ContactScreen.Load`'s "store unchanged" holds only under this abstraction.
- `Storage.Parse`: JSON that parses to something other than an array (`"null"`, `"5"`) is counted as a parse failure, although the contacts screen would put that value into its state.
- `DashboardScreen.LoadedOrEmpty`: on the dashboard, non-array JSON such as `"null"` becomes `setContacts(null)` (DashboardScreen.tsx:26), and then `contacts.slice` throws while the preview renders (ContactsSection.tsx:27). The model turns it into the empty list instead.
- The `console.warn` in the dashboard's `catch` (DashboardScreen.tsx:30) is a log line only and is not modelled.
- Asynchrony: each read and write completes immediately and in call order. On mount, the contacts screen starts its load and also persists its initial empty list. Which of the two reaches the store first is left open, and the model does not include the mount-time write of the empty list.
- `ContactScreen.NewContact`: ids are not claimed to be unique. Two contacts added in the same millisecond share an id, and `NewContactIds` states exactly when that happens.
- `ContactCard.Initials`: upper-cases ASCII letters only. Full Unicode `toUpperCase` can change a string's length. JavaScript's `p[0]` takes a UTF-16 code unit, while the model takes a whole Unicode character.
- `PayScreen.PayScreen.ChooseMethod`: requires the dropdown to be open, because its items are rendered only then. `ContactScreen.ContactScreen.EditField`, `Save` and `Cancel` require the modal to be visible for the same reason.
- The Pay button makes no payment, only an alert. The dashboard header's notification button navigates to a route the stack does not declare, and it is not modelled.
- The list keys (`keyExtractor` on `id` or `mobile`), icons, the `Header` component and the expense cards are rendering only.
- Login, splash, scan and profile screens, the navigation stack wiring and the colour constants are not part of this model. The profile screen's initials chain is covered by `ContactCard.InitialsOfFullName`.
- Passing a contact to the pay screen hands over an immutable value in the model. The pay screen holds it in a `const` field, so no handler can change it.

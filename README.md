# Local-services marketplace: provider search and profile settings

This project models the two pieces of sequential logic in the marketplace front end:

- **Provider search** on the "Browse Service Providers" page. A static catalog of
  provider cards is narrowed by a search box and a category selector. A provider
  passes the text test when its lower-cased name or specialty contains the lower-cased
  query. It passes the category test when "all" is selected or its category equals the
  selection exactly. The two tests are joined by AND (`Services.Filter`).
- **User settings**. A stored `profiles` row, in which any column may be null, is
  turned into the fully populated profile the form edits (`UserSettings.Normalize`).
  Text columns fall back with `||`, so null, undefined and `""` all take the default.
  Notification flags fall back with `??`, so a stored `false` is kept. The save
  payload writes back every editable field except `email`. Each activity-log entry's
  action type is shown with underscores turned into spaces and upper-cased
  (`UserSettings.ActivityLabel`).

Modules:

- `Wrappers` holds `Option`, used for nullable columns.
- `JsStrings` holds the JavaScript string operations the pages use: ASCII
  `toLowerCase`/`toUpperCase`, `includes`, and a global one-character `replace`.
  `includes` is proved equal to "occurs at some position".
- `Services` holds the provider record, the catalog and the filter.
- `UserSettings` holds the profile, the row, the update payload, normalisation and the
  activity label.

## Model

| member | source | states |
|---|---|---|
| JsStrings.IncludesIff | src/pages/Services.tsx:86-87 | `includes` holds exactly when the query occurs at some position of the text. |
| JsStrings.Includes | src/pages/Services.tsx:86-87 | `includes` holds for the empty query and never for a query longer than the text. |
| JsStrings.Lower | src/pages/Services.tsx:86-87 | `toLowerCase` keeps the length and lower-cases each character: an ASCII capital becomes its small letter, and every other character is kept. |
| JsStrings.Upper | src/pages/UserSettings.tsx:428 | `toUpperCase` keeps the length and upper-cases each character: an ASCII small letter becomes its capital, and every other character is kept. |
| JsStrings.ReplaceAll | src/pages/UserSettings.tsx:428 | `replace(/_/g, " ")` keeps the length, puts a space at every position that held `_`, and keeps every other character. |
| JsStrings.IncludesPatternPrefix | src/pages/Services.tsx:86-87 | A text that contains a query also contains every prefix of it. |
| JsStrings.LowerConcat | src/pages/Services.tsx:86-87 | Lower-casing a concatenation lower-cases each part. |
| JsStrings.LowerOfUpper | src/pages/Services.tsx:86-87 | Lower-casing gives the same string whether the input was upper-cased, lower-cased or neither. |
| Services.MatchesSearch | src/pages/Services.tsx:86-87 | The text test holds exactly when the lower-cased query occurs somewhere in the lower-cased name or somewhere in the lower-cased specialty. |
| Services.MatchesCategory | src/pages/Services.tsx:88 | With "all" every provider passes the category test; otherwise a provider passes exactly when its category equals the selection. |
| Services.Filter | src/pages/Services.tsx:85-90 | The listing is never longer than the catalog, and every listed provider is in the catalog and passes both tests. |
| Services.FilterMembership | src/pages/Services.tsx:85-90 | A provider is listed if and only if it is in the input and passes both the text test and the category test. |
| Services.FilterMultiplicity | src/pages/Services.tsx:85-90 | Each matching provider appears as often as in the input; a non-matching one never appears. |
| Services.FilterIsMatchingSubsequence | src/pages/Services.tsx:85-90 | The listing is the input taken at the strictly increasing positions whose provider matches, and at all of them: nothing is reordered, duplicated or dropped. |
| Services.FilterNeutral | src/pages/Services.tsx:82-90 | With the page's initial state (empty query, category "all") the whole catalog is listed. |
| Services.EmptyQueryMatchesEveryone | src/pages/Services.tsx:86-87 | The empty query passes every provider's text test. |
| Services.EmptyQueryIsCategoryOnly | src/pages/Services.tsx:86-88 | With an empty query a provider is listed exactly when it is in the input and passes the category test. |
| Services.FilterRefines | src/pages/Services.tsx:85-90 | Filtering a listing with a stricter test gives the same as filtering the input with that test. |
| Services.FilterIdempotent | src/pages/Services.tsx:85-90 | Filtering a listing again with the same query and category leaves it unchanged. |
| Services.LongerQueryNarrows | src/pages/Services.tsx:86-87 | Extending the query gives the shorter query's listing, filtered further. |
| Services.QueryCaseInsensitive | src/pages/Services.tsx:86-87 | Lower-casing or upper-casing the query does not change the listing. |
| Services.NoProvidersFoundIff | src/pages/Services.tsx:177-183 | The "no providers found" message shows exactly when no input provider passes both tests; an unmatched query gives an empty listing, not an error. |
| Services.FilterStep | src/pages/Services.tsx:85-90 | Filtering from any position lists the provider there if it matches, followed by the listing from the next position. |
| Services.SecondAndFourthOfSix | src/pages/Services.tsx:86-88 | With an empty query, six providers of which only the second and fourth have the selected category give exactly those two, in order. |
| Services.OnlyFirstOfFour | src/pages/Services.tsx:86-88 | With an empty query, four providers of which only the second has the selected category give exactly that one. |
| Services.CatalogShape | src/pages/Services.tsx:12-79 | The catalog holds six providers with ids 1 to 6 in order, each in one of the five categories the selector offers. |
| Services.HomeServicesListing | src/pages/Services.tsx:24-56 | In the catalog, "Home Services" with an empty query lists provider 2 and then provider 4. |
| Services.CategoryIsCaseSensitive | src/pages/Services.tsx:88 | "home services" (wrong case) matches no catalog provider: the category test is exact. |
| UserSettings.OrElse | src/pages/UserSettings.tsx:90-97 | `||` on a nullable string keeps non-empty text and falls back on null, undefined and "". |
| UserSettings.Coalesce | src/pages/UserSettings.tsx:100-102 | `??` on a nullable flag keeps any stored value and falls back only on null or undefined. |
| UserSettings.NormalizeNotifications | src/pages/UserSettings.tsx:98-108 | A null or non-object column gives the defaults (email on, push on, SMS off). An object has each flag read with `??` against its default. |
| UserSettings.Normalize | src/pages/UserSettings.tsx:89-110 | The loaded profile never has an empty language, timezone, theme or privacy level. |
| UserSettings.NormalizeTextColumns | src/pages/UserSettings.tsx:90-94 | Full name, email, phone, bio and picture URL read as the stored text, or "" when null. |
| UserSettings.NormalizeDefaultedColumns | src/pages/UserSettings.tsx:95-109 | Language, timezone, theme and privacy level read as "en", "UTC", "system" and "standard" when null or "", and as the stored text otherwise. |
| UserSettings.NormalizeNotificationColumn | src/pages/UserSettings.tsx:98-108 | A null or non-object column gives email on, push on and SMS off. In an object each absent flag takes its default independently, and each stored flag is kept. |
| UserSettings.StoredFalseIsKept | src/pages/UserSettings.tsx:99-103 | Flags stored as `false` load as `false`, not as the defaults. |
| UserSettings.NormalizeGivesInitialProfile | src/pages/UserSettings.tsx:47-110 | A row loads as the page's initial profile exactly when its text columns are blank, its defaulted columns are blank or hold the defaults, and its notification settings read as the defaults. |
| UserSettings.InitialProfile | src/pages/UserSettings.tsx:47-62 | The page's starting profile is exactly what an all-null row loads as, so the fallbacks and the initial state agree. |
| UserSettings.SavePayload | src/pages/UserSettings.tsx:135-145 | The payload copies the nine editable fields unchanged. Its type has no email field, so email is never sent. |
| UserSettings.ApplyUpdate | src/pages/UserSettings.tsx:133-146 | The update leaves the stored email untouched. |
| UserSettings.SavePayloadIgnoresEmail | src/pages/UserSettings.tsx:135-145 | The save payload does not depend on the profile's email. |
| UserSettings.SaveThenLoad | src/pages/UserSettings.tsx:89-145 | Saving a profile and loading the row back returns that profile if and only if the stored email reads as the profile's email and none of language, timezone, theme or privacy level is empty. |
| UserSettings.LoadSaveLoadIsStable | src/pages/UserSettings.tsx:89-145 | Loading, saving unchanged and loading again gives the first loaded profile. |
| UserSettings.ActivityLabel | src/pages/UserSettings.tsx:428 | The label has the action type's length, contains no `_` and no lower-case letter; each `_` becomes a space and every other character is upper-cased. |
| UserSettings.ProfileUpdatedLabel | src/pages/UserSettings.tsx:158 | The entry written on save, "profile_updated", is shown as "PROFILE UPDATED". |
| UserSettings.ActivityLabelIdempotent | src/pages/UserSettings.tsx:428 | Labelling a label changes nothing. |
| UserSettings.ActivityLabelIgnoresCase | src/pages/UserSettings.tsx:428 | Action types that differ only in letter case get the same label. |

## Left out

- All backend calls are not modelled: the profile select and update, the activity-log insert and select, and the activity-logger hook. They are network I/O. `ApplyUpdate` stands for the row the store holds after a successful update; the rest of the store's behaviour is not modelled.
- The branches of `fetchProfile` are not modelled: on a load error or an empty result the profile is left as it was. So is the loading flag of `handleSaveProfile`. Both are React state updates around network calls.
- The form's field-edit handlers (`setProfile({ ...profile, field: value })`) and all rendering, routing, toasts and navigation are not modelled. They are UI plumbing.
- The ordering and limit of the activity-log query are applied by the backend, so they are not modelled.
- Date formatting of log entries (`toLocaleString`) is not modelled. It depends on locale and platform.
- The admin password gate and session storage, the booking form reset, the static home-page data and the category links are not modelled. They hold no logic the listing uses.
- JsStrings.LowerOfUpper: case mapping is ASCII only. JavaScript's `toLowerCase`/`toUpperCase` follow full Unicode, where a few characters change length (for example "ß" upper-cases to "SS").
- Services.QueryCaseInsensitive: holds for ASCII case mapping only. Under JavaScript's mapping the query "ß" upper-cases to "SS", which lower-cases to "ss", not "ß".
- UserSettings.ActivityLabelIgnoresCase: holds for ASCII case mapping only. Under JavaScript's mapping "İ" lower-cases to two code points.
- UserSettings.ActivityLabel: the length-preservation claim holds for ASCII case mapping only, for the same reason.
- UserSettings.NormalizeNotificationColumn: a JSON array passes the page's object test and reads as an object with every flag absent, which is `Object(None, None, None)` here. Non-boolean flag values inside the object are not modelled; flags are `Option<bool>`.
- Provider ratings are kept as tenths (4.9 as 49) because the filter never reads them; floating point is not modelled.

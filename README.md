# friends-map in Dafny

A model of the logic inside the friends-map browser application. The app shows
contacts ("friends") as pins on a map and lets the user search them. Friends come
from a published spreadsheet or are added through a form. An access-key gate
comes before everything else.

The model covers four components, one module each:

- `FriendsMap` (src/components/FriendsMap.tsx)
  - The geocoding pass. A friend keeps its own coordinates when both are truthy and not NaN. Otherwise its
    "Present Address" is geocoded, and a failed lookup gives 0.
  - The zero filter: a friend with a 0 `lat` or a 0 `lng` is dropped.
  - The `filtered` search memo.
  - The `bounds` memo and the fit-to-bounds action.
  - The component's `query` and `friendsWithCoords` state, as a class.
- `KeycloakBackdrop` (src/components/KeycloakBackdrop.tsx): the access-key gate. It is a three-field state
  machine with a submit transition and an edit transition.
- `AddFriendForm` (src/components/AddFriendForm.tsx): the form state, the map-click handler and the guarded
  submission.
- `Home` (src/pages/Home.tsx): the page's friend list and modal flag, `addFriend`, and the mapping done when the
  spreadsheet has been parsed.

Supporting modules:

- `Wrappers`: `Option`.
- `Coordinates`: JavaScript numbers as the app uses them (`NaN`, infinities, finite reals), with truthiness and
  `=== 0`. Also `LatLng` pairs.
- `Friends`: one record type. Its string properties sit in a map and `lat`/`lng` sit apart. The spreadsheet's
  shape ("Name", "Present Address", ...) and the form's shape ("id", "name", "city", ...) are both sets of keys
  of this map.
- `Text`: `trim` with the ECMAScript white-space set, ASCII `toLowerCase`/`toUpperCase`, and `includes`.
- `Seqs`: `Array.prototype.filter` and its order-preserving-subsequence lemmas.

Parameters stand in for the foreign calls:

- the geocoder (`getCoordsFromAddress`) is `Geocoder = Option<string> -> Option<LatLng>`;
- JavaScript's `Number` on a cell is `number: string -> Num`;
- `LatLngBounds.isValid` is `isValid: seq<LatLng> -> bool`;
- `Date.now().toString()` is an arbitrary `id` string;
- the `REACT_APP_ACCESS_KEY` environment variable is an `Option<string>` passed to the gate's constructor.

Behaviour of the code that a reader might not expect, all of it modelled as written:

- The access key is not compared case-insensitively. Only the input is upper-cased
  (src/components/KeycloakBackdrop.tsx:17), so a configured key with a lower-case letter can never be matched
  (`KeycloakBackdrop.LowerCaseKeyLocksOut`).
- Friends are not required to have finite coordinates. The only filter is `lat !== 0 && lng !== 0`
  (src/components/FriendsMap.tsx:133). A NaN pair from the geocoder is stored (`FriendsMap.GeocodedNaNIsStored`),
  and infinite coordinates pass through. A single 0 coordinate is enough to drop a friend; a (0, 0) pair is not
  needed.
- The geocoder is called even for an absent address. The model passes it `None`, and the oracle decides.
- The fallback view is centre (20.5937, 78.9629) at zoom 4 (src/components/FriendsMap.tsx:84, 94).

## Model

| member | source | states |
|---|---|---|
| `FriendsMap.Resolve` | src/components/FriendsMap.tsx:123-130 | A friend with usable coordinates comes back unchanged, whatever the geocoder would answer. Any other friend keeps every string property, and its `lat`/`lng` become the geocoder's pair, or 0 each when the geocoder returns nothing. |
| `FriendsMap.ResolveAll` | src/components/FriendsMap.tsx:122-131 | One resolved friend per input friend, at the same position. |
| `FriendsMap.StoredFromInput` | src/components/FriendsMap.tsx:120-134 | The stored list is never longer than the input. Its k-th element is the resolved form of the input friend at the k-th stored position, and the positions increase. A position is stored exactly when its resolved friend has neither a zero `lat` nor a zero `lng`. Every friend with usable coordinates is stored. A friend the geocoder cannot find is never stored. |
| `FriendsMap.AllUsableStoredUnchanged` | src/components/FriendsMap.tsx:124-133 | When every friend already has usable coordinates, the stored list equals the input list. |
| `FriendsMap.GeocodedNaNIsStored` | src/components/FriendsMap.tsx:128-133 | A NaN pair from the geocoder survives the zero filter. |
| `FriendsMap.MatchesIff` | src/components/FriendsMap.tsx:145-146 | A friend matches exactly when the trimmed, lower-cased query occurs at some position of its lower-cased name or of its lower-cased address. A missing address counts as ''. |
| `FriendsMap.FilteredSpec` | src/components/FriendsMap.tsx:143-147 | `filtered` is an order-preserving subsequence of the stored list: the k-th result is the friend at the k-th kept position, and a position is kept exactly when its friend matches the query. A friend is in it exactly when it is stored and matches the query. |
| `FriendsMap.BlankQueryKeepsAll` | src/components/FriendsMap.tsx:145-146 | An empty or all-white-space query keeps every friend, in order. |
| `FriendsMap.FilteredAsWritten` | src/components/FriendsMap.tsx:143-147 | The memo as written throws exactly when some friend has no "Name" property. Otherwise it yields the same list as `Filtered`. |
| `FriendsMap.Bounds` | src/components/FriendsMap.tsx:151-155 | Bounds are null exactly when nothing is shown. Otherwise they are built from exactly the shown friends' `[lat, lng]` pairs, in order. |
| `FriendsMap.FitMapToBounds` | src/components/FriendsMap.tsx:89-95 | The map fits the bounds, with padding 50, exactly when bounds exist and are valid. Otherwise the view resets to India at zoom 4. |
| `FriendsMap.EmptySearchFallsBack` | src/components/FriendsMap.tsx:151-155 | With no friend shown, the fit action resets to India at zoom 4, whatever the validity test says. |
| `FriendsMap.FriendsMap.constructor` | src/components/FriendsMap.tsx:106-107 | The query starts empty and the stored list starts empty. |
| `FriendsMap.FriendsMap.OnQueryChange` | src/components/FriendsMap.tsx:109-110 | The query becomes the typed text. The stored list is untouched. |
| `FriendsMap.FriendsMap.GeocodeFriends` | src/components/FriendsMap.tsx:120-136 | The stored list becomes the geocoded, zero-filtered input. It is no longer than the input and holds no zero coordinate. The query is untouched. |
| `FriendsMap.FriendsMap.ShownBounds` | src/components/FriendsMap.tsx:143-155 | The component's bounds are null exactly when its filtered list is empty. |
| `Text.Trim` | src/components/FriendsMap.tsx:145 | `trim` gives the slice of the input between a cut prefix and a cut suffix that are both all white space. It gives '' exactly when every character is white space; a non-empty result neither starts nor ends with white space. |
| `Text.TrimStart` | src/components/FriendsMap.tsx:145 | The result is a suffix of the input, and every character cut off is white space. |
| `Text.TrimEnd` | src/components/FriendsMap.tsx:145 | The result is a prefix of the input, and every character cut off is white space. |
| `Text.IncludesIff` | src/components/FriendsMap.tsx:145-146 | `includes` holds exactly when the needle occurs at some position. |
| `Text.IncludesEmpty` | src/components/FriendsMap.tsx:145-146 | Every string includes ''. |
| `Text.Lower` | src/components/FriendsMap.tsx:145-146 | Lower-casing keeps the length and maps each character on its own: an ASCII capital becomes its small letter (code point + 32), every other character is kept. No upper-case letter is left. |
| `Text.Upper` | src/components/KeycloakBackdrop.tsx:17 | Upper-casing keeps the length and maps each character on its own: an ASCII small letter becomes its capital (code point - 32), every other character is kept. No lower-case letter is left. |
| `Text.LowerOfUpper` | src/components/KeycloakBackdrop.tsx:17 | Lower-casing an upper-cased string gives the same as lower-casing the string itself. |
| `Text.UpperOfLower` | src/components/KeycloakBackdrop.tsx:17 | Upper-casing a lower-cased string gives the string upper-cased. |
| `Seqs.Filter` | src/components/FriendsMap.tsx:133 | A filter result is no longer than its input, and each element satisfies the predicate. |
| `Seqs.FilterPositions` | src/components/FriendsMap.tsx:143-144 | The k-th kept element is the input element at the k-th kept position. Positions increase. A position is kept exactly when its element satisfies the predicate. |
| `Seqs.FilterMembership` | src/components/FriendsMap.tsx:143-144 | An element is kept exactly when it is in the input and satisfies the predicate. |
| `Seqs.FilterKeepsAll` | src/components/FriendsMap.tsx:133 | If every element satisfies the predicate, filtering changes nothing. |
| `KeycloakBackdrop.CorrectKey` | src/components/KeycloakBackdrop.tsx:8 | The key is the environment value when it is set and non-empty. Otherwise it is 'YHK'. |
| `KeycloakBackdrop.Submit` | src/components/KeycloakBackdrop.tsx:15-22 | If the upper-cased input equals the key, the gate becomes authenticated and nothing else changes. Otherwise the error flag is set, and the authenticated flag and the input are unchanged. |
| `KeycloakBackdrop.Edit` | src/components/KeycloakBackdrop.tsx:36-39 | The input becomes the typed text and the error is cleared. The authenticated flag is unchanged. |
| `KeycloakBackdrop.AuthenticationIsSticky` | src/components/KeycloakBackdrop.tsx:15-39 | After any sequence of submits and edits, an authenticated gate stays authenticated. |
| `KeycloakBackdrop.ErrorOnlyForWrongKey` | src/components/KeycloakBackdrop.tsx:15-39 | Every transition keeps this invariant: the error flag is set only while the typed input does not unlock. |
| `KeycloakBackdrop.TypeThenSubmit` | src/components/KeycloakBackdrop.tsx:11-39 | From the initial state, typing a text and submitting it authenticates exactly when that text unlocks. |
| `KeycloakBackdrop.LowerCaseKeyLocksOut` | src/components/KeycloakBackdrop.tsx:8-17 | A key with a lower-case letter is matched by no input. |
| `KeycloakBackdrop.DefaultKeyUnlocksIff` | src/components/KeycloakBackdrop.tsx:8-17 | With the default key, an input unlocks exactly when it is y/Y, h/H, k/K, in that order. |
| `KeycloakBackdrop.Render` | src/components/KeycloakBackdrop.tsx:24-44 | The children are rendered exactly when authenticated. Otherwise the form shows the typed input and the error state. |
| `KeycloakBackdrop.KeycloakBackdrop.constructor` | src/components/KeycloakBackdrop.tsx:8-13 | Starts not authenticated, with an empty input, no error and the configured key. |
| `KeycloakBackdrop.KeycloakBackdrop.HandleSubmit` | src/components/KeycloakBackdrop.tsx:15-22 | The new state is `Submit` of the old state, and authentication is never lost. |
| `KeycloakBackdrop.KeycloakBackdrop.OnInputChange` | src/components/KeycloakBackdrop.tsx:36-39 | The new state is `Edit` of the old state with the typed text. |
| `AddFriendForm.NewFriend` | src/components/AddFriendForm.tsx:46-55 | The record has exactly the keys id, name, city, phone, email and status, holding the given values. Its `lat`/`lng` are the marker's. It has no "Name" or "Present Address". |
| `AddFriendForm.AddFriendForm.constructor` | src/components/AddFriendForm.tsx:23-28 | The text fields start empty, the status starts 'offline' and there is no marker. |
| `AddFriendForm.AddFriendForm.SetName` | src/components/AddFriendForm.tsx:65 | Only the name changes. |
| `AddFriendForm.AddFriendForm.SetCity` | src/components/AddFriendForm.tsx:68 | Only the city changes. |
| `AddFriendForm.AddFriendForm.SetPhone` | src/components/AddFriendForm.tsx:71 | Only the phone changes. |
| `AddFriendForm.AddFriendForm.SetEmail` | src/components/AddFriendForm.tsx:74 | Only the email changes. |
| `AddFriendForm.AddFriendForm.SetStatus` | src/components/AddFriendForm.tsx:77 | Only the status changes. |
| `AddFriendForm.AddFriendForm.OnMapClick` | src/components/AddFriendForm.tsx:30-34 | The marker becomes the clicked pair, replacing any earlier one. Nothing else changes. |
| `AddFriendForm.AddFriendForm.HandleSubmit` | src/components/AddFriendForm.tsx:39-58 | With no marker, it alerts and submits nothing. With a marker, it submits exactly one record, whose name, city, phone, email and status are the form's and whose `lat`/`lng` are the marker's. It changes no form state. |
| `Home.CellNumber` | src/pages/Home.tsx:24-25 | A missing cell coerces to NaN. A present one coerces by `Number`. |
| `Home.CoerceRow` | src/pages/Home.tsx:22-26 | The record keeps every column except `lat`/`lng`, with the same values. Its `lat`/`lng` are the coerced cells. |
| `Home.CoerceRows` | src/pages/Home.tsx:22-26 | One coerced record per row, in row order. |
| `Home.RowWithoutLatIsGeocoded` | src/pages/Home.tsx:24 | A row with no `lat` cell never passes the map's usable-coordinates test. |
| `Home.Home.constructor` | src/pages/Home.tsx:13-14 | The list starts empty and the form starts closed. |
| `Home.Home.OnSheetParsed` | src/pages/Home.tsx:20-28 | The list becomes the coerced rows. The modal flag is unchanged. |
| `Home.Home.AddFriend` | src/pages/Home.tsx:32-35 | The new friend is appended at the end: the length grows by one and the old list is the prefix. The form closes. |
| `Home.Home.OpenForm` | src/pages/Home.tsx:53 | The form opens. The list is unchanged. |
| `Home.Home.CloseForm` | src/pages/Home.tsx:62 | The form closes. The list is unchanged. |
| `Home.SubmittedFriendBreaksSearch` | src/components/FriendsMap.tsx:143-147 | A form-submitted friend at a marker with non-zero coordinates is in the list the map stores. After that, the search memo as written throws for every query. |

## Left out

- Async ordering. The `Promise.all` batch is one atomic step. A stale batch overwriting a newer one is not modelled.
- The debounced `onSearch` callback and its timer (src/components/FriendsMap.tsx:11-17, 109-117, 138-140). These are timers and calls into the parent.
- src/components/geocoding.ts (the Nominatim fetch and `parseFloat`). Only its contract is modelled: the geocoder parameter.
- Leaflet: `L.latLngBounds` extent math, padding, `setView`/`fitBounds`, tiles, markers and popups.
- `onMapCreated` (src/components/FriendsMap.tsx:159-166). It makes the same decision as the fit action with padding 60, and `whenCreated` is a Leaflet hook.
- SVG icon construction (`createColoredIcon`, `BullsEyeIcon`), all JSX rendering and styling, the `N / M friends shown` line, and the Modal component.
- `Papa.parse`, the spreadsheet download and CSV parsing, and `Number`'s string-to-number rules. These are I/O and foreign code; `Number` is a parameter.
- `alert` itself. The alert is reported as an `Alerted` outcome carrying its message.
- `e.preventDefault()` and all other browser event plumbing.
- src/data/friends (the TypeScript `Friend` type) is not part of this model. Friends are modelled as they are at run time.
- Text.Lower: maps only the ASCII letters, because Unicode case mapping tables are not modelled.
- Text.Upper: maps only the ASCII letters, for the same reason.
- HTML constraint validation is not modelled: the name input is `required` (src/components/AddFriendForm.tsx:65), so a browser blocks a submission with an empty name, but `AddFriendForm.AddFriendForm.HandleSubmit` accepts any name, including ''.
- FriendsMap.Bounds: states which points the bounds are built from, not the rectangle Leaflet computes from them.

## Findings

| source | as written | input that shows it | evidently intended | confidence | as-written member | corrected member |
|---|---|---|---|---|---|---|
| src/components/FriendsMap.tsx:145 | `f['Name'].toLowerCase()` is evaluated for every stored friend. A friend added through the form (src/components/AddFriendForm.tsx:46-55) has a `name` property but no `Name`, so the memo throws a TypeError and the map page fails to render. | Add a friend through the form with the marker at (48.85, 2.35). It keeps its coordinates and is stored. Any query, including '', then throws. | Read a missing name as '', as the address already is. | medium; not executed | `FriendsMap.FilteredAsWritten`, `Home.SubmittedFriendBreaksSearch` | `FriendsMap.Filtered` (see `FriendsMap.FilteredSpec`, `FriendsMap.MatchesIff`) |

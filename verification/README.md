# find-my-spot client core, modelled in Dafny

find-my-spot is a browser client for a parking-spot analysis service. The
user picks or drops a video. The client checks that it is a video of at
most 100 MiB and posts it to the service. It publishes the returned JSON
report and processed-video URL in a session store. A results page then
shows a download link and a collapsible viewer for the report; it also
computes occupancy figures from the report, which its markup does not
display. A separate context holds the light/dark display theme.

This project models that logic in Dafny, component by component:

| file | module | models |
|---|---|---|
| `wrappers.dfy` | `Wrappers` | `Option` (null/undefined) and `Result` (value or thrown error) |
| `json_value.dfy` | `JsonValue` | the report as a closed JSON datatype; JavaScript truthiness, `typeof x === 'object'`, `Object.keys`, reads of member names no prototype defines, `String(n)` |
| `json_viewer.dfy` | `JsonViewer` | `JsonViewer.jsx`: `formatValue`/`formatObject` as functions into a display tree; the expansion map in class `Viewer` with `toggleSection` |
| `upload_context.dfy` | `UploadContext` | `UploadContext.jsx`: class `UploadStore` with its four fields and setters; the `useUpload` guard |
| `file_uploader.dfy` | `FileUploader` | `FileUploader.jsx`: `validateFile`; class `Uploader` with `handleFileChange`, `handleDrop` and `handleUpload` |
| `results.dfy` | `Results` | `Results.jsx`: redirect and render guards, the error toast, download URL and the computed (undisplayed) occupancy figures, as one pure page function |
| `theme_context.dfy` | `ThemeContext` | `ThemeContext.jsx`: class `ThemeProvider` with the mount effect, `toggleTheme` and the document/storage sync effect |
| `session.dfy` | `Session` | the components wired together: upload, then the results page |

Effects are parameters or recorded outputs, never I/O:
- The POST's result is an `UploadOutcome` argument: `Reply(report, url)`, `AxiosError(message)` or `OtherError`.
- Toasts are appended to `Uploader.toasts`.
- Posted forms are appended to `Uploader.requests`.
- `navigate` sets `Uploader.navigatedTo`.
- The backend base URL is a parameter.
- `localStorage`, `matchMedia` and the root class list are fields and arguments of `ThemeProvider`.

Modelling conventions:
- JSON numbers are integers.
- An object's members are a sequence in `Object.keys` order, one member per name.
- Falsy values are `null`, `false`, `0` and `""`.

Behaviours of the code that the model keeps on purpose:
- Expansion flags are keyed by bare member name, not by path, so same-named members at any depth open and close together.
- Expansion flags are never reset: they live as long as the viewer component, whatever data it is given.
- A name with no stored flag reads as `undefined`, except a name inherited from `Object.prototype` (`constructor`, `toString`, `__proto__`, …), which reads as truthy: a container member with such a name starts expanded.
- Toggling `__proto__` is stored like any other name: `{...prev, [key]: …}` defines an own property called `__proto__` and leaves the prototype alone.
- Every array or object member gets an arrow, empty or not: an empty array member shows `[Array(0)]` and expands to `[]`.
- Keys are shown quoted and verbatim.
- `formatObject` is applied directly to array elements. An array element that is itself an array therefore renders as members named "0", "1", …, and an empty array element renders `{}`.
- A truthy top-level string renders one member per character.
- The results page still renders a report whose download URL is empty, while its redirect fires.
- `occupiedSpots` is not clamped and can be negative.
- A saved theme is adopted verbatim even if it is neither "light" nor "dark".
- `handleUpload` has no busy check: a second call while one is in flight posts again.
- There is no upload progress indicator; `isLoading` is the only sign of a request in flight.
- After a failed upload the staged file stays staged, so the user can retry. After a successful one the form navigates to `/results` and is unmounted; coming back to `/` mounts a new form with no file staged, bound to the same store (`Session.FailureKeepsEarlierReport` plays this out).
- The occupancy figures are computed on every render of the results page but not displayed.

## Model

| member | source | states |
|---|---|---|
| `JsonValue.ObjectKeys` | src/components/JsonViewer.jsx:53 | `Object.keys`: an object's member names in order; for an array or a string, one key per element or character, key i being the decimal numeral of i; nothing for other values |
| `JsonValue.DecimalString` | src/components/JsonViewer.jsx:75-77 | `String(n)` for a natural n, as written in `[Array(n)]`, `{Object: n properties}` and each index name `Object.keys` gives an array or string: at least one character, decimal digits only, no leading zero; its round trip is in `ParseDecimalString` |
| `JsonValue.ParseDecimalString` | src/components/JsonViewer.jsx:75-77 | the numeral written into `[Array(n)]` / `{Object: n properties}` (and used as an array key) reads back as n |
| `JsonValue.DecimalStringInjective` | src/components/JsonViewer.jsx:53 | distinct indices give distinct keys, so the keys `Object.keys` lists for an array never clash |
| `JsonValue.Member` | src/pages/Results.jsx:35-36 | a read of a name that no prototype defines, such as `total_spots`, finds a value exactly when the report is an object with a member of that name |
| `JsonViewer.IsExpanded` | src/components/JsonViewer.jsx:66-71 | definition of reading `expandedSections[key]` as a condition: the stored flag, else truthy exactly for a name inherited from `Object.prototype`; its consequences are in `InitiallyCollapsed` and `ToggleTwice` |
| `JsonViewer.Toggled` | src/components/JsonViewer.jsx:11-16 | definition of the map `toggleSection` produces; its properties are in `ToggleFlipsOnlyKey` and `ToggleTwice` |
| `JsonViewer.FormatValue` | src/components/JsonViewer.jsx:18-48 | definition of `formatValue`; its properties are in `EmptyValueTexts`, `ArrayElementRendering`, `NestedArrayElementKeys` and `RenderFollowsFlags` |
| `JsonViewer.FormatObject` | src/components/JsonViewer.jsx:50-88 | definition of `formatObject`; its properties are in `MembersInKeyOrder`, `MemberRows` and `RenderFollowsFlags` |
| `JsonViewer.SummaryOf` | src/components/JsonViewer.jsx:75-77 | definition of the collapsed summary's choice (array length, else object key count); its property is in `CollapsedCountMatchesExpanded` |
| `JsonViewer.SummaryText` | src/components/JsonViewer.jsx:76-77 | definition of the summary text `[Array(n)]` or `{Object: n properties}`; its property is in `CollapsedCountMatchesExpanded` |
| `JsonViewer.FormatScalar` | src/components/JsonViewer.jsx:19-45 | definition of `formatValue` on null, a string, a number or a boolean; its property is in `EmptyValueTexts` |
| `JsonViewer.RenderMember` | src/components/JsonViewer.jsx:58-82 | definition of one member row (arrow, summary or expansion); its properties are in `RenderFollowsFlags` and `CollapsedCountMatchesExpanded` |
| `JsonViewer.Render` | src/components/JsonViewer.jsx:7-9 | definition of the component's output; its properties are in `RenderPlaceholder`, `RenderFollowsFlags` and `InitiallyCollapsed` |
| `JsonViewer.RenderPlaceholder` | src/components/JsonViewer.jsx:7-9 | the viewer shows only "No data available" exactly when the data is falsy |
| `JsonViewer.ToggleFlipsOnlyKey` | src/components/JsonViewer.jsx:11-16 | toggling stores the negation of what the key reads as (absent: false, or true for an `Object.prototype` name) and keeps every other entry |
| `JsonViewer.ToggleTwice` | src/components/JsonViewer.jsx:11-16 | toggling a key twice restores its truthiness; an absent key goes to true, then to a stored false, except an inherited name, which goes to false, then to a stored true |
| `JsonViewer.Viewer.constructor` | src/components/JsonViewer.jsx:5 | the expansion map starts empty |
| `JsonViewer.Viewer.ToggleSection` | src/components/JsonViewer.jsx:11-16 | the map afterwards is the old map with the key's flag negated |
| `JsonViewer.Viewer.ClickMemberName` | src/components/JsonViewer.jsx:61-63 | a click on a member name toggles only when the member's value is a non-null object or array; a scalar or null member leaves the map unchanged |
| `JsonViewer.MemberRows` | src/components/JsonViewer.jsx:53-58 | `formatObject` emits one row per `Object.keys` entry, in that order, each named by its key |
| `JsonViewer.RenderFollowsFlags` | src/components/JsonViewer.jsx:58-82 | every member row at any depth is the member rendering of its own name and some value, so it has an arrow exactly when that value is a container; it shows '▼' and its value when its bare name reads as truthy in the flag map, and '►' with the summary otherwise |
| `JsonViewer.SameNameRowsAgree` | src/components/JsonViewer.jsx:63-71 | two container members with the same name, at any depths, are both expanded or both collapsed |
| `JsonViewer.ToggleFlipsSameNameRows` | src/components/JsonViewer.jsx:63-74 | after toggling a name, every container row with that name flips and every other row keeps its state |
| `JsonViewer.InitiallyCollapsed` | src/components/JsonViewer.jsx:70-78 | with no flag set, every container member at every depth is collapsed to its summary, except one named after an `Object.prototype` property, which starts expanded |
| `JsonViewer.CollapsedCountMatchesExpanded` | src/components/JsonViewer.jsx:70-78 | a collapsed array shows `[Array(n)]` with n its length, an object `{Object: n properties}` with n its key count; n is the number of entries shown once expanded, and 0 exactly when the expansion is `[]` or `{}` |
| `JsonViewer.EmptyValueTexts` | src/components/JsonViewer.jsx:18-54 | `null` renders `null`, an empty array value `[]`, an empty object `{}` |
| `JsonViewer.MembersInKeyOrder` | src/components/JsonViewer.jsx:53-82 | an object's i-th rendered row is member i's row, built from that member's own name and value |
| `JsonViewer.ArrayElementRendering` | src/components/JsonViewer.jsx:26-33 | element i is prefixed by i and never collapsed; a scalar element is stringified; an empty array element renders `{}`, not `[]` |
| `JsonViewer.NestedArrayElementKeys` | src/components/JsonViewer.jsx:29-30 | a non-empty array element renders through `formatObject` as members with the distinct names "0".."n-1" |
| `UploadContext.UploadStore.constructor` | src/context/UploadContext.jsx:7-10 | the store starts with `jsonReport` null, `videoDownloadUrl` "", `isLoading` false, `error` null |
| `UploadContext.UploadStore.SetJsonReport` | src/context/UploadContext.jsx:7 | replaces `jsonReport` and no other field |
| `UploadContext.UploadStore.SetVideoDownloadUrl` | src/context/UploadContext.jsx:8 | replaces `videoDownloadUrl` and no other field |
| `UploadContext.UploadStore.SetIsLoading` | src/context/UploadContext.jsx:9 | replaces `isLoading` and no other field |
| `UploadContext.UploadStore.SetError` | src/context/UploadContext.jsx:10 | replaces `error` and no other field |
| `UploadContext.UseUpload` | src/context/UploadContext.jsx:30-35 | fails with "useUpload must be used within an UploadProvider" exactly when there is no provider, and otherwise returns the provider's store |
| `FileUploader.IsVideoType` | src/components/FileUploader.jsx:28 | definition of `file.type.startsWith('video/')`; its property is in `NonVideoRejected` |
| `FileUploader.Validate` | src/components/FileUploader.jsx:26-39 | definition of `validateFile` (the type check first, then the size); its properties are in `NonVideoRejected`, `VideoSizeLimit` and `SizeBoundary` |
| `FileUploader.NonVideoRejected` | src/components/FileUploader.jsx:28-31 | a file whose type does not start with `video/` is refused with the type message, whatever its size |
| `FileUploader.VideoSizeLimit` | src/components/FileUploader.jsx:33-38 | a video is accepted exactly when its size is at most 104,857,600 bytes, and is otherwise refused with the size message |
| `FileUploader.SizeBoundary` | src/components/FileUploader.jsx:28-38 | exactly 100 MiB passes and one byte more fails; an oversize non-video reports only the type error |
| `FileUploader.FailureMessage` | src/components/FileUploader.jsx:95-100 | the server's non-empty message for an axios error, else "Server error. Please try again later."; "An unexpected error occurred during upload" for other errors; never empty |
| `FileUploader.Uploader.constructor` | src/components/FileUploader.jsx:11-15 | no file staged, nothing posted, no toast, no navigation |
| `FileUploader.Uploader.StageFirst` | src/components/FileUploader.jsx:18-23 | the first listed file is staged only if it validates; otherwise the staged file is kept and a rejection is toasted; an empty list changes nothing |
| `FileUploader.Uploader.HandleFileChange` | src/components/FileUploader.jsx:17-24 | stages the first picked file only if it validates; otherwise keeps the staged file and toasts the rejection |
| `FileUploader.Uploader.HandleDrop` | src/components/FileUploader.jsx:51-61 | stages the first dropped file only if it validates; otherwise keeps the staged file and toasts the rejection |
| `FileUploader.Uploader.StartUpload` | src/components/FileUploader.jsx:67-85 | with no staged file: a toast, and no store change and no request; otherwise `isLoading` true and `error` null before exactly one form `[("video", file)]` is posted |
| `FileUploader.UploadForm` | src/components/FileUploader.jsx:76-77 | definition of the posted form, the file under the single field `video`; its property is in `Uploader.StartUpload` |
| `FileUploader.Uploader.SettleUpload` | src/components/FileUploader.jsx:87-104 | a reply sets report, URL and `isLoading` false and navigates to `/results`; a failure sets `isLoading` false and `error` to the failure message and leaves report and URL untouched |
| `FileUploader.Uploader.HandleUpload` | src/components/FileUploader.jsx:67-105 | the whole handler: the no-file path changes nothing but the toasts; otherwise one form is posted and the store ends in the reply's or the failure's state |
| `Results.RedirectsHome` | src/pages/Results.jsx:22 | definition of the redirect condition; its properties are in `GuardConditions` |
| `Results.ResultsPage` | src/pages/Results.jsx:14-38 | definition of the page's decision and content; its properties are in `GuardConditions`, `DownloadUrlJoin` and the `Session` scenarios |
| `Results.DownloadUrl` | src/pages/Results.jsx:32 | definition of the link; its property is in `DownloadUrlJoin` |
| `Results.ReportStats` | src/pages/Results.jsx:35-38 | definition of the computed figures; its properties are in `MissingCountsAreZero` and `OccupiedNotClamped` |
| `Results.OccupancyRate` | src/pages/Results.jsx:38 | definition of the rate; its properties are in `RateIsRoundedPercentage` and `RateWithinPercent` |
| `Results.SpotCount` | src/pages/Results.jsx:35-36 | a missing or falsy count is 0, a number counts as itself |
| `Results.GuardConditions` | src/pages/Results.jsx:20-30 | the page redirects to `/` exactly when the report or the URL is falsy, raising the "No analysis data found" toast exactly then; it renders nothing exactly when the report is falsy; a report with an empty URL renders while redirecting |
| `Results.DownloadUrlJoin` | src/pages/Results.jsx:32 | the download link is the backend base followed directly by the stored URL, with nothing inserted |
| `Results.MissingCountsAreZero` | src/pages/Results.jsx:35-38 | a report without the two counts gives total, available, occupied and rate all 0 |
| `Results.OccupiedNotClamped` | src/pages/Results.jsx:37 | occupied = total - available, negative when more spots are available than exist |
| `Results.RoundHalfUp` | src/pages/Results.jsx:38 | `Math.round(num / den)`: the integer nearest to num/den, halves rounded up |
| `Results.RateIsRoundedPercentage` | src/pages/Results.jsx:38 | the rate is 0 when total <= 0, and otherwise 100·occupied/total rounded half up |
| `Results.RateWithinPercent` | src/pages/Results.jsx:35-38 | with total > 0 and 0 <= available <= total, the rate lies in [0, 100] |
| `ThemeContext.InitialTheme` | src/context/ThemeContext.jsx:14-21 | definition of the theme the mount effect settles on from the initial "dark"; its properties are in `InitialThemePrecedence` |
| `ThemeContext.NextTheme` | src/context/ThemeContext.jsx:30-32 | definition of the toggle; its properties are in `ToggleTwiceRestores` |
| `ThemeContext.InitialThemePrecedence` | src/context/ThemeContext.jsx:14-21 | a truthy saved theme wins verbatim, even an unknown one; without one the theme is "light" exactly when the system prefers light, and "dark" otherwise |
| `ThemeContext.ToggleTwiceRestores` | src/context/ThemeContext.jsx:30-32 | a toggle always yields "light" or "dark"; two toggles from either return to it; any other value toggles to "dark" |
| `ThemeContext.CurrentTheme` | src/context/ThemeContext.jsx:5-8 | outside a provider the theme is "dark"; inside it is the provider's |
| `ThemeContext.ToggleVia` | src/context/ThemeContext.jsx:5-8 | outside a provider the toggle changes nothing; inside it toggles the provider's theme |
| `ThemeContext.ThemeProvider.constructor` | src/context/ThemeContext.jsx:11 | the provider starts at "dark" |
| `ThemeContext.ThemeProvider.SyncDocument` | src/context/ThemeContext.jsx:24-28 | removes "light" and "dark" from the root classes, adds the theme, and stores it under `theme` |
| `ThemeContext.ThemeProvider.Mount` | src/context/ThemeContext.jsx:14-28 | a truthy saved theme is adopted, else "light" on a light system preference, else the theme is left as it was (from the initial "dark": the initial theme); afterwards the root classes and storage are in sync with it and unrelated root classes are kept |
| `ThemeContext.ThemeProvider.ToggleTheme` | src/context/ThemeContext.jsx:30-32 | the theme becomes its toggle, and the root classes and storage follow it |
| `Session.UploadThenShowResults` | src/components/FileUploader.jsx:87-91 | after a valid file is dropped and the service replies with a truthy report and a non-empty URL, the results page renders that report, does not redirect, and links to base + URL |
| `Session.RejectedFileNeverPosts` | src/components/FileUploader.jsx:68-71 | a refused file is never staged, so uploading posts nothing and the results page redirects and renders nothing |
| `Session.FailureKeepsEarlierReport` | src/components/FileUploader.jsx:92-104 | after a successful upload, a fresh form bound to the same store stages a second file whose upload fails: the earlier report stays on the results page and a non-empty error is recorded |

## Left out
- Network, routing, environment and notifications: the axios POST, `FormData`, `import.meta.env`, `navigate`, `toast` and `console.error` are represented as an outcome argument, a base-URL parameter and recorded fields, as described above.
- A reply whose `json_report` or `video_download_url` is missing (JavaScript `undefined`): `Reply` always carries a JSON value and a string.
- Drag highlighting (`isDragging`, `handleDragOver`, `handleDragLeave`), `triggerFileInput`, class names and animations: presentation only.
- The file-size display `toFixed(2)` in MB: floating point.
- `e.target.files` / `e.dataTransfer.files` being null: a missing list behaves like an empty one in the model.
- `Results.RoundHalfUp`: the source computes `Math.round((occupied / total) * 100)` in floating point. The model rounds the exact rational 100·occupied/total, so a float rounding error at a .5 boundary is not reproduced.
- `Results.SpotCount`: a truthy count that is not a number (a string, `true`, an array or object) is coerced by JavaScript arithmetic. The model gives no figures (`None`) for it.
- JSON numbers are integers; fractional numbers, NaN and -0 are not represented.
- `JsonValue.ObjectKeys`: for a string, JavaScript lists one key per UTF-16 code unit, and `JsonViewer.MemberRows` renders one row per code unit. The model's strings are sequences of characters, so a character outside the Basic Multilingual Plane gives one key here where JavaScript gives two (and two half-character rows).
- `FileUploader.FailureMessage`: `error.response?.data?.message` may be any truthy JSON value (a number, an object), which the source toasts and stores in `error` as it is. `AxiosError` carries only an optional string, so such a non-string message is not represented.
- `ThemeContext.ThemeProvider.SyncDocument`: `classList.add(theme)` throws when the theme contains whitespace (possible for a saved theme, which is adopted verbatim), so the class list keeps neither "light" nor "dark" and storage is not written. The model adds such a theme as a class anyway.
- The text of `JSON.stringify` for scalar array elements: the display tree keeps the element itself (`Stringified(item)`) rather than its escaped text. Likewise `StringText` keeps the raw string.
- `JsonValue.Member`: a read of a name that a prototype defines (`({}).constructor`, `[x].length`, `"ab".length`) is defined in JavaScript but gives `None` here. The page only reads `total_spots` and `available_spots`, for which the model is exact.
- Objects with repeated member names: `Object.keys` lists each name once, and the model assumes the member sequence does too. `JsonValue.Member` returns the last value, as `JSON.parse` does.
- The `String(value)` fallback of `formatValue`: it handles only `undefined`, functions and symbols, which no JSON value produces.
- React scheduling: state updates are applied immediately and effects are explicit method calls (`SyncDocument`, `Mount`). Re-render batching is not modelled.
- `window.matchMedia` being unavailable: the model folds it into `prefersLight = false`.
- src/pages/Results.tsx and src/context/UploadContext.tsx repeat src/pages/Results.jsx:20-32 and src/context/UploadContext.jsx without the stats and add nothing else.
- src/components/ThemeToggle.jsx, src/components/LoadingSpinner.jsx, src/App.jsx and src/pages/Index.jsx are presentation or routing only and are not part of this model.

# Splash screen plugin — a verified functional model

This project models the decision logic of the Android side of a Cordova
splash-screen plugin (`SplashScreen.java`): the plugin shows a full-screen
splash dialog with an optional spinner while the app starts, and in the
background fetches a JSON manifest that may name a newer splash image for the
display's density, caching the manifest and the image on disk.

What is modelled, module by module:

- `Wrappers` — `Option`, standing in for a Java reference that may be null.
- `JavaInt` — Java's 32-bit `int`, with the wrap-around of its arithmetic made explicit.
- `JsonTree` — the Jackson `JsonNode` tree and the three operations the plugin
  uses on it (`get(String)`, `get(int)`, `asText()`), plus a general path lookup
  used as the reference for `getDensityUrl`.
- `Density` — `getDensityName`: the six density buckets and their thresholds.
  The density is a `real`; the thresholds 4.0, 3.0, 2.0, 1.5 and 1.0 are exact in binary.
- `Prefs` — the preferences the plugin reads, with the defaults it passes;
  `getFadeDuration` and the effective splash duration of `showSplashScreen`.
- `Paths` — `normalizeDashes` and `getPath` (a loop over a builder, proved
  against a recursive definition).
- `Refresh` — `getDensityUrl`, `diffSplashFile` and the body of `runThread` as
  a function from its inputs (fetched text, parse function, cached file,
  download function) to the writes it performs on a two-file store.
- `Overlay` — the process-wide splash state (`splashDialog`, `spinnerDialog`,
  `firstShow`, `lastHideAfterDelay`) as an immutable record, with
  `showSplashScreen`, `removeSplashScreen`, the end of the fade-out and the
  delayed auto-hide as state-to-state functions. Hops onto the UI thread are
  taken as synchronous; a fade-out is two steps (start, then end).
- `Plugin` — `pluginInitialize`, `execute`, `onMessage`, `onPause` and
  `onDestroy`, and runs of events, with the overlay invariant proved for
  every reachable state.

Behaviour of the code worth knowing:

- First run. `flag` starts as `true` (src/android/SplashScreen.java line 242)
  and only a cached manifest that was read and parsed replaces it with the
  result of `diffSplashFile`. So a missing or unparseable cached manifest
  makes the refresh save the manifest and, if it downloads, the image
  (`Refresh.FirstRunRefreshes`, `Refresh.FirstRunExample`). The "no URL means
  unchanged" asymmetry of `diffSplashFile` applies only when a cached manifest
  parsed but names no URL for the density (`Refresh.DiffSplashFile`).
- Drawable resolution. `pluginInitialize` resolves the splash drawable id only
  inside the branch taken when a manifest URL is configured, so without
  `SplashScreenContentUrl` (and without a preset `SplashDrawableId`) no splash
  is shown at all (`Plugin.NoContentUrlNoSplash`).
- `asText()` on a JSON `null` is the text `"null"`, so a manifest with
  `"xhdpi": null` yields the URL `"null"`, not "no URL".
- A configured fade duration below 30 is multiplied by 1000 in 32-bit
  arithmetic; a value below -2147483 wraps around.

## Model

| member | source | states |
|---|---|---|
| JavaInt.Wrap | src/android/SplashScreen.java:355-358 | Java `int` arithmetic: a result in range is the mathematical value, and any result is congruent to it modulo 2^32 |
| JavaInt.Max | src/android/SplashScreen.java:500 | `Math.max` returns one of its arguments and is at least both |
| Density.DensityName | src/android/SplashScreen.java:327-342 | The bucket is always one of the six names, and its rank equals the number of the thresholds 1.0, 1.5, 2.0, 3.0, 4.0 the density reaches |
| Density.DensityNameIntervals | src/android/SplashScreen.java:329-341 | Each bucket is exactly one half-open interval between adjacent thresholds, the lower boundary included |
| Density.DensityNameMonotone | src/android/SplashScreen.java:327-342 | A denser display never gets a lower bucket |
| Density.CountReachedMonotone | src/android/SplashScreen.java:329-341 | A higher density reaches at least as many thresholds |
| Density.NameInjective | src/android/SplashScreen.java:329-341 | The six bucket names are distinct, so a manifest key identifies a single bucket |
| Density.BoundaryExample | src/android/SplashScreen.java:333-336 | 2.0 is xhdpi and 1.999 is hdpi |
| Prefs.FadeDuration | src/android/SplashScreen.java:351-362 | Fading disabled gives 0; a configured value of 30 or more is kept; one below 30 (negative and 0 included) is multiplied by 1000; without overflow, the fade is positive exactly when enabled with a positive setting |
| Prefs.EffectiveSplashDuration | src/android/SplashScreen.java:496-500 | The auto-hide delay is never negative; whenever delay minus fade is non-negative (and fits in an int) it is exactly that difference, negative fades included; a fade at least as long as the delay gives 0 |
| Prefs.DefaultDurations | src/android/SplashScreen.java:351-353 | With no preferences the fade is 3000 ms and the auto-hide is posted with delay 0 |
| Paths.NormalizeDashesShape | src/android/SplashScreen.java:636-646 | A normalized segment is the segment with a leading slash and at most one trailing slash removed; only "" and "/" give ""; anything else starts with a slash |
| Paths.NormalizeDashesFixedPoint | src/android/SplashScreen.java:636-646 | A segment is left unchanged exactly when it is empty, or starts with a slash and does not end with one |
| Paths.GetPath | src/android/SplashScreen.java:627-634 | The builder loop yields the concatenation of the normalized segments; no segments give ""; a non-empty result is absolute |
| Paths.JoinPathsAppend | src/android/SplashScreen.java:627-634 | Joining a list of segments split in two is joining each part and concatenating |
| Paths.JoinPathsAbsolute | src/android/SplashScreen.java:627-646 | Any non-empty joined path starts with a slash |
| Paths.SplashImagePathsAgree | src/android/SplashScreen.java:133-138 | The folder the image is saved in, plus "/splash.png", is the path the start-up reads (line 287); the folder path never ends with a slash |
| Refresh.GetDensityUrlFollowsPath | src/android/SplashScreen.java:208-218 | The URL is the text at `contents[0].params[density]` and is none exactly when some step is missing |
| Refresh.ManifestRoundTrip | src/android/SplashScreen.java:208-218 | Building a manifest from a density-to-URL table and reading a density's URL back gives the table's entry, or none for an absent density |
| Refresh.OnlyFirstContentConsulted | src/android/SplashScreen.java:210-212 | Entries of `contents` after the first never affect the URL |
| Refresh.DiffSplashFile | src/android/SplashScreen.java:191-200 | Changed exactly when the cached URL exists and differs from the new one: equal URLs and a missing cached URL are unchanged, a cached URL with no new one is changed |
| Refresh.ReadCache | src/android/SplashScreen.java:243-249 | The cached manifest is missing exactly when no file could be read, unparseable exactly when the file does not parse, and otherwise the parse of the file |
| Refresh.ShouldReplace | src/android/SplashScreen.java:242-246 | The flag is true without a parsed cached manifest; with one, it is true exactly when the cached manifest names a URL for the density that differs from the new one |
| Refresh.RefreshWrites | src/android/SplashScreen.java:230-265 | A failed fetch or unparseable manifest writes nothing; the manifest written is the fetched, parseable text, written exactly when the flag (missing/unparseable cache, or a detected change) is set; the image is written only with the manifest, and is the download of the new URL |
| Refresh.Apply | src/android/SplashScreen.java:253-259 | A written file is overwritten with the new content; an unwritten one keeps its old content |
| Refresh.FailedFetchKeepsStore | src/android/SplashScreen.java:239-241 | When the manifest download fails both stored files stay as they were |
| Refresh.MalformedCacheIsMissing | src/android/SplashScreen.java:242-249 | An unparseable cached manifest leads to exactly the writes of a missing one |
| Refresh.FirstRunRefreshes | src/android/SplashScreen.java:242-254 | Without a parseable cached manifest the fetched manifest is saved, and the image too when the new URL downloads |
| Refresh.ChangedUrlReplacesBoth | src/android/SplashScreen.java:246-259 | A cached URL differing from the fetched one saves the manifest and the downloaded image |
| Refresh.SameUrlWritesNothing | src/android/SplashScreen.java:246-253 | The same URL in the cached and fetched manifests leads to no writes |
| Refresh.ManifestWithoutImage | src/android/SplashScreen.java:254-259 | When no bitmap downloads, the new manifest is saved while the old image stays |
| Refresh.RefreshIdempotent | src/android/SplashScreen.java:230-265 | Right after a refresh, a second refresh with the same remote manifest writes nothing |
| Refresh.FirstRunExample | src/android/SplashScreen.java:242-259 | On an xhdpi display with no cached manifest, the manifest naming an xhdpi URL is saved together with the downloaded image |
| Overlay.Show | src/android/SplashScreen.java:495-572 | `lastHideAfterDelay` is always recorded; no dialog is created when one is showing, when the drawable id is 0 or when the delay is not positive with auto-hide; otherwise the dialog shows the chosen image, the spinner follows its preference and one auto-hide is posted exactly when asked |
| Overlay.Remove | src/android/SplashScreen.java:447-489 | No dialog means no change; forced or with no fade the dialog and spinner are gone at once; otherwise the fade starts, the spinner stops and the dialog stays until the fade ends; validity is kept |
| Overlay.FadeEnd | src/android/SplashScreen.java:467-474 | The end of a running fade dismisses the dialog and changes nothing else; with no fade running nothing changes |
| Overlay.SpinnerStart | src/android/SplashScreen.java:575-608 | Starting the spinner leaves it showing (any earlier one replaced) and changes nothing else |
| Overlay.SpinnerStop | src/android/SplashScreen.java:610-619 | Stopping the spinner leaves none showing and changes nothing else |
| Overlay.AutoHideFires | src/android/SplashScreen.java:559-568 | A posted auto-hide hides (without forcing) only if the most recent show still asked for auto-hide; otherwise only the callback is consumed |
| Overlay.HideThenFadeEndClears | src/android/SplashScreen.java:453-485 | A hide, followed by the end of its fade if one started, leaves neither dialog nor spinner |
| Overlay.LaterShowDisarmsAutoHide | src/android/SplashScreen.java:559-568 | After a show with auto-hide and a later show without it, the pending auto-hide leaves the dialog and spinner as they are |
| Plugin.Initialize | src/android/SplashScreen.java:270-319 | The refresh starts exactly when no drawable id is set and a manifest URL is; only then is the drawable id resolved and stored and the downloaded image chosen if stored; on a first show, when no dialog is up and the guards allow it, the dialog shows the downloaded image or the resolved bundled drawable, and otherwise the dialog is as before, with the configured auto-hide recorded either way, and on any first show the overlay is exactly what showSplashScreen(autoHide) leaves (spinner, fade and the posted auto-hide included); the first-show flag is cleared when showing only once; the web view is hidden; validity is kept |
| Plugin.LookUpDrawable | src/android/SplashScreen.java:298-303 | The drawable id is the one found in the activity's package when there is one, else the one in the application package; it is 0 exactly when neither package has it |
| Plugin.NoContentUrlNoSplash | src/android/SplashScreen.java:277-305 | With no drawable id preset and no manifest URL, no refresh starts and no splash dialog is shown |
| Plugin.ShowsOnlyOnce | src/android/SplashScreen.java:311-318 | With show-only-first-time in force, after the first start and any events (onDestroy included), a later start whose overlay has no dialog shows no splash |
| Plugin.RunKeepsFirstShow | src/android/SplashScreen.java:374-382 | No event, onDestroy included, changes the first-show flag |
| Plugin.FirstStartShowsDownloadedImage | src/android/SplashScreen.java:283-292 | The first start with a manifest URL, a resolvable drawable and a stored downloaded image shows the downloaded image |
| Plugin.OnMessage | src/android/SplashScreen.java:406-425 | "splashscreen" hides on "hide" and otherwise shows without auto-hide; "spinner"/"stop" shows the web view; "onReceivedError" stops the spinner; other ids change nothing |
| Plugin.Execute | src/android/SplashScreen.java:384-404 | Only "hide" and "show" are handled (true), and each acts as the matching splashscreen message; any other action returns false and changes nothing |
| Plugin.Step | src/android/SplashScreen.java:364-382 | Pausing or destroying is exactly a forced removal, so the dialog goes at once (and the spinner, in a valid state) and nothing else changes; no event changes the first-show flag or the preferences |
| Plugin.StepPreservesValid | src/android/SplashScreen.java:384-489 | Every event keeps "a fade runs only on a showing dialog, and the spinner shows only over a dialog that is not fading" |
| Plugin.RunPreservesValid | src/android/SplashScreen.java:384-489 | Any sequence of events keeps the overlay valid |
| Plugin.ReachableValid | src/android/SplashScreen.java:270-319 | Every state reachable from the process start through pluginInitialize and any events is valid |

## Left out

- `JsonDownloader.downloadJson` and `URLConnectionHelper`: network I/O; the fetched text is an input, none when the download throws.
- `ObjectMapper.readTree`: parsing is a function parameter from text to an optional JSON tree (none when it throws). How Jackson treats empty text is whatever that function returns; a tree without a URL behaves like a null node in `getDensityUrl`.
- Jackson's rendering of numbers as text: a JSON number carries its rendered text.
- `downloadSplashImage`, `BitmapFactory` and `Bitmap.compress`: the download is a function parameter from URL to an optional bitmap; image contents are not interpreted.
- `getDrawableFromPath`: the stored image is displayed whenever the file exists; decoding it is not modelled.
- `saveSplashFile`, `getSplashFile`, `saveSplashImage`: the byte-stream loops and the file system are a two-slot store; a failed read counts as a missing file.
- Refresh.RefreshWrites: does not model an `IOException` thrown while writing the manifest or the image (which would skip the remaining writes), because write failures of the file system are outside the model.
- Threading: the refresh runs as a separate step after `pluginInitialize` has checked for the stored image; concurrent refreshes and the race on `densityName` are not modelled.
- Handler timing: a posted auto-hide is counted and runs as an event; when it runs (after `EffectiveSplashDuration`) is not modelled.
- `getDensityName`'s display metrics: the density is a parameter; a NaN density (which would read as ldpi) is not representable as a `real`.
- `HAS_BUILT_IN_SPLASH_SCREEN`: taken as false (Cordova 4 or later), so every entry point runs its body.
- Views, layout, scale type (`isMaintainAspectRatio`), background colour, window flags, animation interpolation, `onConfigurationChanged` and the reflection in `getView`: UI plumbing with no decision to state.
- `execute`'s arguments and callback, and delivery of the posted message to other plugins: the message reaches this plugin at once and nothing else is modelled.
- Paths.SplashImagePathsAgree: stated on the path strings; `java.io.File`'s own normalisation of those strings applies equally to both and is not modelled.

# CloudAPK core, modelled in Dafny

CloudAPK is a build service that turns a Progressive Web App into an Android
package. It has two parts, and this project models the decision logic of both.

- **The generated app** (Java) is one activity with a web view.
  - `MainActivity` reads `manifest.json` from the app's assets. It picks the theme,
    the orientation and the title from the manifest, then loads `start_url`.
  - `PwaWebViewClient` keeps navigations inside the app's scope. It leaves them in the
    web view when they match a wildcard boundary made from `scope` resolved against
    `start_url`, and hands every other URL to the platform in an `ACTION_VIEW` intent.
- **The build server** (TypeScript) is an Express service.
  - Its project routes validate the posted PWA settings and reject bad requests.
  - `BubbleWrapper` prepares the Trusted Web Activity manifest: it normalises the host
    and selects the app shortcuts. It then builds, aligns and optionally signs the APK,
    writes the Digital Asset Links file and builds an app bundle.

Modules, one file each:

| file | module | models |
|---|---|---|
| common.dfy | Common | `Option`, `Result`, `EndsWith` |
| seqs.dfy | Seqs | `filter` / `map` / `slice` / `join` on sequences, with their order lemmas |
| scope_guard.dfy | ScopeGuard | PwaWebViewClient.java: the escaper, the regex fragment it emits, the guard class |
| main_activity.dfy | PwaActivity | MainActivity.java: display, name and orientation rules, the loaders, `onCreate` |
| twa_packaging.dfy | TwaPackaging | build/bubbleWrapper.ts: host, shortcuts, signing and packaging branches |
| project_routes.dfy | ProjectRoutes | routes/project.ts: `validateSettings`, the POST gate, `createSigningKeyInfo` |

Modelling choices:

- **URLs.** URLs are text. Java's `new URL(context, spec)` is a parameter
  (`UrlLibrary`: parse and resolve, each of which may fail). So is the WHATWG `URL` of
  the server (`UrlApi`).
- **The regex.** The compiled regex never runs an engine. It is parsed into the
  fragment the escaper can emit: literal characters, `.` and `.*`. Its full-match
  semantics are defined on that fragment, and `.` excludes Java's line terminators.
- **The manifest.** It is a record of the five strings the activity reads.
  `optString` gives `""` for a missing key, so every field is a plain string.
  JSON parsing is a parameter.
- **The toolchain.** Gradle, zipalign, KeyTool, apksigner, jarsigner and the file
  write are a `Toolchain` value that says which tools succeed and whether KeyTool
  reported a SHA256 fingerprint. A thrown error is an `Err`.
- **Request bodies.** They are JSON values with JavaScript truthiness.

The absent-manifest case follows the code, not the "empty strings" reading one might
expect of `optString`. Without a manifest, `manifestObject` stays null and `setDisplay` dereferences it
(MainActivity.java line 31). So `OnCreate` returns `Err(NullManifestDereference)`
instead of falling back to empty strings.

## Model

| member | source | states |
|---|---|---|
| ScopeGuard.RegexFromPattern | app/projects/Polyfills/android/source/app/src/main/java/microsoft/com/pwa/PwaWebViewClient.java:44-57 | the loop builds exactly `Escape(pattern)`: `*` becomes `.*`, each of `\ . [ ] { } ( ) ^ $ ? + \|` gets a backslash, other characters are copied |
| ScopeGuard.EscapeLength | app/projects/Polyfills/android/source/app/src/main/java/microsoft/com/pwa/PwaWebViewClient.java:47-55 | output length is input length plus the number of `*` and metacharacters |
| ScopeGuard.EscapeConcat | app/projects/Polyfills/android/source/app/src/main/java/microsoft/com/pwa/PwaWebViewClient.java:47-55 | the translation is character by character: escaping a concatenation concatenates the escapes |
| ScopeGuard.GlobPieces | app/projects/Polyfills/android/source/app/src/main/java/microsoft/com/pwa/PwaWebViewClient.java:47-55 | one regex piece per pattern character |
| ScopeGuard.ParseEscape | app/projects/Polyfills/android/source/app/src/main/java/microsoft/com/pwa/PwaWebViewClient.java:47-56 | every escaper output lies in the literal / `.` / `.*` fragment and reads back as the glob's pieces |
| ScopeGuard.GlobPiecesMatch | app/projects/Polyfills/android/source/app/src/main/java/microsoft/com/pwa/PwaWebViewClient.java:41 | for a URL without line terminators, the pieces full-match exactly when the glob matches |
| ScopeGuard.EscapedRegexMatchesGlob | app/projects/Polyfills/android/source/app/src/main/java/microsoft/com/pwa/PwaWebViewClient.java:41 | the compiled regex full-matches a URL without line terminators iff the glob (`*` any string, other characters themselves) matches it |
| ScopeGuard.StarMatchesEverything | app/projects/Polyfills/android/source/app/src/main/java/microsoft/com/pwa/PwaWebViewClient.java:41 | the glob `*` matches every string |
| ScopeGuard.TrailingStarIsPrefix | app/projects/Polyfills/android/source/app/src/main/java/microsoft/com/pwa/PwaWebViewClient.java:41 | a glob whose only `*` is its last character matches exactly the strings its literal part prefixes; matching is anchored |
| ScopeGuard.PwaWebViewClient.constructor | app/projects/Polyfills/android/source/app/src/main/java/microsoft/com/pwa/PwaWebViewClient.java:14-26 | the pattern is the escaped boundary, or null when a URL construction fails |
| ScopeGuard.Scoped | app/projects/Polyfills/android/source/app/src/main/java/microsoft/com/pwa/PwaWebViewClient.java:40-42 | scoped when there is no pattern; for a pattern escaped from a glob and a URL without line terminators, scoped iff the glob matches |
| ScopeGuard.PwaWebViewClient.ShouldOverrideUrlLoading | app/projects/Polyfills/android/source/app/src/main/java/microsoft/com/pwa/PwaWebViewClient.java:30-42 | overrides iff the URL is not scoped; then launches exactly one `ACTION_VIEW` intent for it, otherwise none; never overrides without a pattern |
| ScopeGuard.AbsentPatternScopesEverything | app/projects/Polyfills/android/source/app/src/main/java/microsoft/com/pwa/PwaWebViewClient.java:41 | fail open: with a null pattern every URL is scoped |
| ScopeGuard.MalformedUrlFailsOpen | app/projects/Polyfills/android/source/app/src/main/java/microsoft/com/pwa/PwaWebViewClient.java:15-25 | a start_url that does not parse gives a null pattern, so every URL is scoped |
| ScopeGuard.WildcardAppendedOnlyWhenMissing | app/projects/Polyfills/android/source/app/src/main/java/microsoft/com/pwa/PwaWebViewClient.java:18-20 | a resolved scope ending in `*` is compiled unchanged; otherwise `*` is resolved onto it |
| ScopeGuard.BoundaryEndsInStar | app/projects/Polyfills/android/source/app/src/main/java/microsoft/com/pwa/PwaWebViewClient.java:17-22 | assuming that resolving `*` yields text ending in `*`, every compiled boundary ends in `*` |
| ScopeGuard.ScopedIffBoundaryMatches | app/projects/Polyfills/android/source/app/src/main/java/microsoft/com/pwa/PwaWebViewClient.java:22-41 | with a pattern present, a URL without line terminators is scoped iff it matches the wildcard boundary |
| ScopeGuard.ScopedIffPrefix | app/projects/Polyfills/android/source/app/src/main/java/microsoft/com/pwa/PwaWebViewClient.java:41 | for a pattern compiled from a literal plus a trailing `*`, a URL is scoped iff the literal is its prefix |
| ScopeGuard.BoundaryPrefixScope | app/projects/Polyfills/android/source/app/src/main/java/microsoft/com/pwa/PwaWebViewClient.java:14-41 | the same, for the boundary the constructor builds from start_url and scope |
| ScopeGuard.EmptyScopeBoundary | app/projects/Polyfills/android/source/app/src/main/java/microsoft/com/pwa/PwaWebViewClient.java:16-20 | with start_url `https://example.com/app/` and an empty scope, the boundary is start_url followed by `*` |
| ScopeGuard.EmptyScopeKeepsPagesUnderStartUrl | app/projects/Polyfills/android/source/app/src/main/java/microsoft/com/pwa/PwaWebViewClient.java:31-41 | a page below start_url is in scope |
| ScopeGuard.EmptyScopeDelegatesOtherPaths | app/projects/Polyfills/android/source/app/src/main/java/microsoft/com/pwa/PwaWebViewClient.java:31-41 | a page outside start_url's directory is not in scope |
| ScopeGuard.ParenthesisedScopeBoundary | app/projects/Polyfills/android/source/app/src/main/java/microsoft/com/pwa/PwaWebViewClient.java:16-20 | a scope `a(b)/` against `https://example.com/` resolves without a trailing `*`, so `*` is resolved onto it: the boundary is `https://example.com/a(b)/*` |
| ScopeGuard.ParenthesesMatchLiterally | app/projects/Polyfills/android/source/app/src/main/java/microsoft/com/pwa/PwaWebViewClient.java:51-52 | escaped parentheses match themselves |
| ScopeGuard.ParenthesesAreNotAGroup | app/projects/Polyfills/android/source/app/src/main/java/microsoft/com/pwa/PwaWebViewClient.java:51-52 | escaped parentheses do not form a regex group: `ab` is not in the scope `a(b)` |
| PwaActivity.DisplayTheme | app/projects/Polyfills/android/source/app/src/main/java/microsoft/com/pwa/MainActivity.java:30-36 | FullscreenTheme iff display is exactly `fullscreen`, AppTheme otherwise; exactly one theme |
| PwaActivity.WindowTitle | app/projects/Polyfills/android/source/app/src/main/java/microsoft/com/pwa/MainActivity.java:38-43 | a title is set iff the name is non-empty, and then it is the name |
| PwaActivity.OrientationToken | app/projects/Polyfills/android/source/app/src/main/java/microsoft/com/pwa/MainActivity.java:45-52 | the orientation tokens with a case of their own; UNSPECIFIED has none |
| PwaActivity.RequestedOrientation | app/projects/Polyfills/android/source/app/src/main/java/microsoft/com/pwa/MainActivity.java:54-81 | exactly one orientation per token: UNSPECIFIED, or the orientation whose own token is exactly this string |
| PwaActivity.TokenRequestsItsOrientation | app/projects/Polyfills/android/source/app/src/main/java/microsoft/com/pwa/MainActivity.java:56-74 | each of the six tokens requests its constant (`landscape-primary` LANDSCAPE ... `portrait-secondary` REVERSE_PORTRAIT) |
| PwaActivity.UnlistedTokensAreUnspecified | app/projects/Polyfills/android/source/app/src/main/java/microsoft/com/pwa/MainActivity.java:75-79 | every other string (`any`, `natural`, `""`, `Landscape`) requests UNSPECIFIED: exact and case-sensitive |
| PwaActivity.AssetExists | app/projects/Polyfills/android/source/app/src/main/java/microsoft/com/pwa/MainActivity.java:106-115 | true iff the root listing succeeded and names the asset; an IOException gives false |
| PwaActivity.LoadLocalManifest | app/projects/Polyfills/android/source/app/src/main/java/microsoft/com/pwa/MainActivity.java:117-133 | null after an IOException or a read of no bytes; a JSONException exactly when bytes were read and do not parse; a manifest only as parsed from the bytes |
| PwaActivity.LoadedManifestOnlyFromParsedBytes | app/projects/Polyfills/android/source/app/src/main/java/microsoft/com/pwa/MainActivity.java:96-104 | from null, the field is set iff the asset is listed, bytes were read and they parse; otherwise it stays unset |
| PwaActivity.MainActivity.constructor | app/projects/Polyfills/android/source/app/src/main/java/microsoft/com/pwa/MainActivity.java:94 | the manifest field starts null |
| PwaActivity.MainActivity.LoadManifest | app/projects/Polyfills/android/source/app/src/main/java/microsoft/com/pwa/MainActivity.java:96-104 | assigns loadLocalManifest's result when the asset exists; keeps the old value when it is missing or parsing throws |
| PwaActivity.MainActivity.SetWebView | app/projects/Polyfills/android/source/app/src/main/java/microsoft/com/pwa/MainActivity.java:84-91 | JavaScript on; a fresh guard built from the manifest's start_url and scope; loads exactly start_url |
| PwaActivity.MainActivity.OnCreate | app/projects/Polyfills/android/source/app/src/main/java/microsoft/com/pwa/MainActivity.java:19-28 | loads the manifest; crashes iff none is loaded; otherwise theme, orientation, title and web view follow the rules above |
| TwaPackaging.StripProtocolRemovesExactlyThePrefix | build/bubbleWrapper.ts:205-207 | for an href starting with `<protocol>//`, the stripped host plus that prefix is the href |
| TwaPackaging.TrimRemovesAtMostOneSlash | build/bubbleWrapper.ts:210-212 | a trailing `/` loses exactly its last character; otherwise the host is unchanged |
| TwaPackaging.HostWithoutProtocol | build/bubbleWrapper.ts:205-212 | for an href starting with `<protocol>//`, the host is the rest of the href, minus one trailing `/` if it has one |
| TwaPackaging.HostExamples | build/bubbleWrapper.ts:205-212 | `https://example.com/` gives `example.com`; a subpath host keeps its path |
| TwaPackaging.IsValidShortcut | build/bubbleWrapper.ts:253-276 | valid iff present, with icons, a url, a name or short_name, and a suitable `any` icon |
| TwaPackaging.ValidShortcutsAreValid | build/bubbleWrapper.ts:238 | the filter keeps only valid shortcuts |
| TwaPackaging.CreateShortcut | build/bubbleWrapper.ts:243-251 | name is `name \|\| short_name`; shortName is `short_name`, else exactly the first min(12, \|name\|) characters of name; url and icon URL are the two resolutions against the manifest URL; fails iff one does not resolve |
| TwaPackaging.CreateAll | build/bubbleWrapper.ts:239 | the map creates every valid shortcut in order, and fails iff one creation fails |
| TwaPackaging.CreateShortcuts | build/bubbleWrapper.ts:230-241 | no manifest URL gives the empty list whatever the input; otherwise fails iff some valid shortcut cannot be created, and on success has exactly min(4, number of valid shortcuts) entries |
| TwaPackaging.ShortcutsAreFirstFourValid | build/bubbleWrapper.ts:237-240 | the k-th valid input is kept iff k < 4, at position k, in input order |
| TwaPackaging.ShortcutsComeFromValidInputs | build/bubbleWrapper.ts:237-240 | every output shortcut is created from a valid input |
| TwaPackaging.AnyValidShortcutCanFail | build/bubbleWrapper.ts:237-240 | the map runs before the slice, so any valid shortcut whose URL fails to resolve fails the build, even past the fourth |
| TwaPackaging.CreateTwaManifest | build/bubbleWrapper.ts:198-228 | an unparsable host fails; a parsed host succeeds iff the shortcuts are created, with the normalised host, those shortcuts, the signing key path and alias (or empty strings), generator `PWABuilder` |
| TwaPackaging.Step | build/bubbleWrapper.ts:129-143 | a toolchain step yields its output path iff the tool succeeds, else that tool's error |
| TwaPackaging.CreateSigningKey | build/bubbleWrapper.ts:108-127 | throws if any of the four identity fields is empty; with all four filled in succeeds iff KeyTool does, passing the key file, passwords, alias and identity |
| TwaPackaging.SignApk | build/bubbleWrapper.ts:146-164 | a key is created iff the signing mode is `new`; in that mode succeeds iff key creation and apksigner do, otherwise iff apksigner does; the signed APK path |
| TwaPackaging.GenerateAssetLinks | build/bubbleWrapper.ts:176-196 | succeeds iff KeyTool reports, the SHA256 fingerprint is truthy (present and non-empty) and the write succeeds; a falsy fingerprint is its own error |
| TwaPackaging.TryGenerateAssetLinks | build/bubbleWrapper.ts:166-174 | the asset links path, or null instead of an error |
| TwaPackaging.BuildAppBundle | build/bubbleWrapper.ts:74-99 | the signed bundle path iff gradle's bundle and jarsigner succeed |
| TwaPackaging.GenerateAppPackage | build/bubbleWrapper.ts:43-72 | signed branch iff signingMode is not `none` and signing info is present; unsigned result has the aligned APK and null bundle and asset links |
| TwaPackaging.ExistingKeyNeedsNoIdentity | build/bubbleWrapper.ts:148-150 | with any signing mode other than `new`, no identity field is checked: a working apksigner signs with no key created |
| TwaPackaging.NewKeyRequiresIdentity | build/bubbleWrapper.ts:111-113 | in mode `new`, any one of the four identity fields empty stops signing with the missing-info error |
| ProjectRoutes.Get | routes/project.ts:99 | member access yields undefined on anything that is not an object |
| ProjectRoutes.ValidateSettings | routes/project.ts:83-101 | absent settings give exactly `["No settings supplied"]`; otherwise exactly as many messages as falsy required fields, so at most 7 and none repeated |
| ProjectRoutes.RequiredMessageInjective | routes/project.ts:100 | distinct fields give distinct messages |
| ProjectRoutes.ReportedIffMissing | routes/project.ts:88-100 | `<f> is required` is reported iff f is one of the seven and falsy; webManifestUrl never is |
| ProjectRoutes.EveryMessageNamesAMissingField | routes/project.ts:98-100 | there are no other messages |
| ProjectRoutes.MessagesInFieldOrder | routes/project.ts:88-100 | messages follow the order name, host, packageId, iconUrl, startUrl, signingInfo, appVersion |
| ProjectRoutes.ValidIffAllRequiredPresent | routes/project.ts:83-101 | no errors iff settings are present and all seven fields are truthy |
| ProjectRoutes.NothingPresentReportsEverything | routes/project.ts:88-100 | settings without any required field get all seven messages, in order |
| ProjectRoutes.ValidationGate | routes/project.ts:16-23 | a non-empty list answers 500 with `Invalid PWA settings: ` and the errors joined by `, `; otherwise the route builds (the same gate sits at lines 39-43 and 67-71) |
| ProjectRoutes.GateBuildsOnlyValidSettings | routes/project.ts:18-22 | a handler builds iff settings are present and all seven fields are truthy |
| ProjectRoutes.RejectionNamesAProblem | routes/project.ts:20 | a rejection body carries text after the prefix |
| ProjectRoutes.CreateSigningKeyInfo | routes/project.ts:174-185 | alias `my-key-alias`, store path `<dir>/my-signing-key.keystore`, the four identity fields copied from settings.signingInfo |
| ProjectRoutes.KeyInfoDeterministicButPasswords | routes/project.ts:174-185 | apart from the two passwords, the key info depends only on the directory and the settings |
| ProjectRoutes.ValidatedSettingsHaveSigningInfo | routes/project.ts:94 | settings that pass validation carry a signingInfo |

## Left out

- URL parsing and resolution (`java.net.URL`, section 5.2 of RFC 2396; the WHATWG URL Standard): parameters that may fail, never implemented. Properties that need the result's shape are stated under an explicit assumption (`StarResolvesToStar`, `ResolvesEmptyScope`, `ResolvesParenthesisedScope`).
- The java.util.regex engine: only the fragment the escaper emits is given a meaning. `ParseRegex` rejects anything else.
- ScopeGuard.EscapedRegexMatchesGlob: stated only for URLs without line terminators, because Java's `.` does not match them.
- Java and JavaScript strings are UTF-16 code units; here they are Dafny characters. So TwaPackaging.CreateShortcut and TwaPackaging.HostWithoutProtocol count characters where `substring(0, 12)` and `substr` count code units: for a name with characters outside the Basic Multilingual Plane (an emoji, say) the derived short name differs and the source may split a surrogate pair.
- Android: the theme, title and orientation setters, `setContentView`, the WebView and intent dispatch are returned as values rather than performed. `ActivitySetup` and `WebViewSetup` hold what would be set.
- org.json: `new JSONObject` and UTF-8 decoding are one parser parameter. `optString` is folded into the typed `Manifest`.
- PwaActivity.LoadLocalManifest: the stream, `available()` and the byte buffer are one read outcome (bytes read and the buffer), not a mutable array; `printStackTrace` is not modelled.
- Bubblewrap and the toolchain (TwaGenerator, TwaManifest, GradleWrapper, KeyTool, JarSigner, apksigner, zipalign, DigitalAssetLinks) are success flags and a fingerprint. `findSuitableIcon` is an abstract function.
- TwaPackaging.GenerateAppPackage: tool console output and the contents of the files written are not modelled, only which paths come back.
- TwaPackaging.CreateSigningKey: an absent identity field and an empty one are both the empty string.
- ProjectRoutes.CreateSigningKeyInfo: the passwords from `generate-password` are parameters; `path.join` is `dir + "/" + file` without normalising `..`, double slashes or an empty directory.
- JSON numbers are reals; NaN cannot occur in a request body.
- `createSignedApk` / `createUnsignedApk` (routes/project.ts:103-160): they call methods that do not exist on `BubbleWrapper`. The zip of APK and key, the tmp-directory cleanup timers and the responses after the gate are I/O.
- build/bubbleWrapper.js is compiled output of an older version. The TypeScript file is the one modelled.
- build/analytics.ts, build/urlLogger.ts and the server wiring (app.ts, server.js, routes/project.js) are telemetry and plumbing.

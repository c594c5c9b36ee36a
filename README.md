# Platform capability layer of a mobile music player, in Dafny

This project models the cross-platform capability façade of the MusicFree
application's iOS port. The façade sits between the application and native
services. It covers four pieces:

- **The iOS permission gate** (`src/native/utils/iosPermissions.ts`). It is a
  closed table from the four permission kinds (photo, microphone, media
  library, files) to native identifiers and to capability names. Its
  operations are `check`, `request` and `ensure`. `ensure` checks first and
  requests only when the check fails. Every broker error becomes `false`, with
  at most one toast.
- **The platform facade** (`src/native/utils/platformUtils.ts`). It maps
  Android permission names to gate kinds, and unknown names fail open. It
  dispatches every operation on `Platform.OS`. Off iOS, the permission calls
  go to the Android module, the root lookups read the same directory as on
  iOS, and setup, add and share return `true`.
- **The iOS audio adapter** (`src/native/utils/iosAudioUtils.ts`). Engine
  setup is gated by media-library permission. A successful setup registers
  five remote-control bindings. The adapter also queries playback state and
  adds tracks to or clears the play queue. A local track's url gets a
  `file://` prefix, and a streaming url is used verbatim. Only missing or
  falsy metadata takes its default.
- **The iOS file adapter** (`src/native/utils/iosFileUtils.ts`). It looks up
  storage roots and checks whether a file exists. Pick and save are gated by
  files permission, and save deletes an existing destination before copying.
  It also shares (with `file://` normalisation), reads and writes files.

Each native service is abstract state:

- `IosPermissions.Broker`: the current answer per identifier, the answer a
  prompt would give, and a log of requests.
- `IosAudio.Engine`: its configuration, play queue, listener table, playback
  state, and which calls reject.
- `IosFiles.FileSystem`: its two roots, a `map<string, string>` of files, and
  the paths whose calls reject.
- `IosFiles.ShareSheet`: the requests it opened, and whether opening rejects.
- The document picker and the Android permission module: oracles passed as
  function parameters.

Toasts are an output log, `Native.Toasts`. The running platform is a value
of `Native.Os`, passed to each operation.

A JavaScript `try`/`catch` becomes a branch on whether the native call
rejects. Operations that only read become functions with `reads` clauses.
Operations that change a service become methods with `modifies` clauses. For
most mutating methods, the whole effect is written once, as a two-state predicate
(`Requested`, `Ensured`, `PlayerSetUp`, `Enqueued`, `Saved`, `Shared`). The
facade's ensures clauses reuse these predicates.

The model follows the code in these behaviours, which a reader might not expect:

- When not on iOS, the facade's setup, add and share operations return
  `true`, not a falsy value. The iOS adapters return `false`/`null` there.
- Both root lookups return the same expression on every platform.
- A cancelled pick returns `null` silently. A denied pick shows the
  permission gate's one denial toast. A picker error shows the pick-failed
  toast.
- A failed save can lose the destination file. The destination is deleted
  before the copy, and the copy can still fail afterwards.

## Model

| member | source | states |
|---|---|---|
| `IosPermissions.PermissionMapClosed` | src/native/utils/iosPermissions.ts:14-19 | the table as declared (the intended one) gives every kind a native identifier, and no two kinds share one, so over it the missing-identifier branch cannot be taken; as bundled, the `files` entry is undefined and that branch is taken for files (see `BundledTableDeniesFiles`, `BundledEnsureFilesSilent`) |
| `IosPermissions.TagsTruthy` | src/native/utils/platformUtils.ts:54 | every enum value is a non-empty string, so the `: true` fallback of the facade's ternary is unreachable |
| `IosPermissions.CheckIn` | src/native/utils/iosPermissions.ts:34-51 | the check against a given identifier table: true off iOS; false on iOS for a kind without an identifier; otherwise authorised iff the broker's current answer is GRANTED or LIMITED, and a rejection is false |
| `IosPermissions.CheckPermission` | src/native/utils/iosPermissions.ts:34-51 | `checkIOSPermission` reads the broker only, so it never prompts and never shows a toast; true off iOS; on iOS true iff the mapped identifier's current answer is GRANTED or LIMITED |
| `IosPermissions.BundledTableDeniesFiles` | src/native/utils/iosPermissions.ts:18 | with the table as bundled, the files check is false whatever the broker says, though the intended table allows it; other kinds are unaffected |
| `IosPermissions.Authorizes` | src/native/utils/iosPermissions.ts:46 | a broker answer authorises exactly when it settles with GRANTED or LIMITED; a rejected call never authorises; the same rule decides `request` (line 70) |
| `IosPermissions.Broker.Request` | src/native/utils/iosPermissions.ts:69 | the broker's `request` settles with the prompt's answer, logs the request, and a settled answer becomes the current status |
| `IosPermissions.DenialNotices` | src/native/utils/iosPermissions.ts:70-81 | a request shows no toast iff it is authorised, otherwise exactly one naming the capability's description; a rejected request shows the request-failed toast |
| `IosPermissions.RequestPermission` | src/native/utils/iosPermissions.ts:58-82 | true off iOS with the broker untouched; on iOS exactly one request, authorised iff it settles GRANTED or LIMITED, with the toasts of `DenialNotices` |
| `IosPermissions.GateNotices` | src/native/utils/iosPermissions.ts:89-100 | `ensure` shows at most one toast, and none iff it grants |
| `IosPermissions.EnsureIn` | src/native/utils/iosPermissions.ts:58-100 | `ensure` against a given identifier table: true and silent off iOS; false and silent on iOS for a kind without an identifier (request's `!permission` branch); otherwise it grants iff the check passes or the prompt authorises, with at most one toast, which names the capability, and none iff it grants |
| `IosPermissions.EnsureInDeclaredTable` | src/native/utils/iosPermissions.ts:89-100 | over the declared table, `ensure` grants exactly `EnsureGrants` and shows exactly `GateNotices` |
| `IosPermissions.BundledEnsureFilesSilent` | src/native/utils/iosPermissions.ts:63-66 | with the table as bundled, `ensure(files)` on iOS is false with no toast, even when the broker's prompt would grant and the intended table grants |
| `IosPermissions.EnsurePermission` | src/native/utils/iosPermissions.ts:89-100 | true off iOS; when the check already authorises: true with the broker and toasts untouched (no prompt); otherwise exactly the request's result and effect |
| `Uris.FormatFileUri` | src/native/utils/iosAudioUtils.ts:102 | the result starts with `file://`; a path that already starts with it is returned unchanged; any other path gets exactly one `file://` in front |
| `Uris.FormatFileUriIdempotent` | src/native/utils/iosFileUtils.ts:132 | normalising twice equals normalising once |
| `Uris.FormatFileUriExample` | src/native/utils/iosAudioUtils.ts:102 | `/tmp/song.mp3` becomes `file:///tmp/song.mp3`; `file:///a.mp3` is not double-prefixed |
| `IosAudio.Fired` | src/native/utils/iosAudioUtils.ts:40-44 | the commands run when a remote event arrives: no more than there are listeners, only commands registered for that event, and every listener registered for it runs |
| `IosAudio.FiredCounts` | src/native/utils/iosAudioUtils.ts:40-44 | each command runs exactly as many times as listeners are registered for that event with that command: once per listener, never more |
| `IosAudio.FiredAppend` | src/native/utils/iosAudioUtils.ts:40-44 | listeners registered later run after those registered earlier |
| `IosAudio.BindingsForwardOnce` | src/native/utils/iosAudioUtils.ts:40-44 | the five bindings forward each remote event to exactly its own command: play, pause, stop, skipToNext, skipToPrevious |
| `IosAudio.SetupAddsOneForwarding` | src/native/utils/iosAudioUtils.ts:40-44 | each successful setup adds exactly one more forwarding per remote event to whatever listeners are already registered; the lemma is conditional on the setup succeeding |
| `IosAudio.SetupIosAudioPlayer` | src/native/utils/iosAudioUtils.ts:10-51 | false off iOS; succeeds iff media-library permission is ensured and the engine accepts the setup; on success the engine holds the fixed options and exactly the five bindings more; otherwise it is neither configured nor given listeners |
| `IosAudio.PlaybackStateOf` | src/native/utils/iosAudioUtils.ts:57-69 | the engine's state on iOS; null off iOS or when the query rejects |
| `IosAudio.IsPlaying` | src/native/utils/iosAudioUtils.ts:75-87 | true iff on iOS the state query succeeds and reports Playing |
| `IosAudio.BuildTrack` | src/native/utils/iosAudioUtils.ts:137-144 | the url is kept verbatim; a truthy title, artist, album, artwork or duration passes through unchanged; a falsy or missing one (including `""` and `0`) takes its default; title, artist and album are never empty |
| `IosAudio.LocalTrack` | src/native/utils/iosAudioUtils.ts:102-112 | a local track's url starts with `file://`: an already-prefixed path is kept, any other path gets the prefix once; apart from its url it is the track built from the same metadata |
| `IosAudio.LocalTrackExample` | src/native/utils/iosAudioUtils.ts:102-111 | `/tmp/song.mp3` without metadata gives url `file:///tmp/song.mp3` and the three unknown-* defaults with duration 0 |
| `IosAudio.AddTrack` | src/native/utils/iosAudioUtils.ts:115-121 | the shared try-body of both adds (also lines 147-153): on success exactly the track is appended to the queue with no toast; when the engine rejects, false, the queue unchanged and one add-failed toast |
| `IosAudio.AddLocalAudio` | src/native/utils/iosAudioUtils.ts:95-122 | false off iOS with nothing touched; on success the queue gains exactly the normalised track at its end; a rejected add returns false, leaves the queue alone and shows one toast |
| `IosAudio.AddStreamingAudio` | src/native/utils/iosAudioUtils.ts:130-154 | as the local add, with the url used verbatim |
| `IosAudio.ClearQueue` | src/native/utils/iosAudioUtils.ts:160-171 | empties the queue and returns true; false with the queue unchanged off iOS or when reset rejects |
| `IosAudio.ClearThenAdd` | src/native/utils/iosAudioUtils.ts:160-170 | two adds, a clear, and one more add leave exactly the last track queued |
| `IosFiles.DocumentsRoot` | src/native/utils/iosFileUtils.ts:12-14 | the documents directory, or `""` when it is unavailable |
| `IosFiles.CacheRoot` | src/native/utils/iosFileUtils.ts:20-22 | the cache directory, or `""` when it is unavailable |
| `IosFiles.FileExists` | src/native/utils/iosFileUtils.ts:29-41 | true iff on iOS the file is present and its lookup does not reject; false off iOS or on error |
| `IosFiles.PickFile` | src/native/utils/iosFileUtils.ts:48-75 | null off iOS, on permission denial, on cancellation and on a picker error, otherwise the first asset; a cancelled pick is silent, a denied pick shows the gate's one denial toast, a picker error shows the pick-failed toast |
| `IosFiles.PickFileWithDefaultTypes` | src/native/utils/iosFileUtils.ts:48 | a pick without a filter asks the picker for audio and JavaScript files, and has `PickFile`'s whole effect for that filter: the first asset exactly when the gate grants and the pick yields one; no prompt when files permission is already granted; a silent cancel, the gate's denial toast, or the pick-failed toast |
| `IosFiles.SaveDestination` | src/native/utils/iosFileUtils.ts:95-96 | the destination is the documents root followed by the file name, with no separator inserted |
| `IosFiles.SaveToDocuments` | src/native/utils/iosFileUtils.ts:83-116 | null with the files untouched off iOS or without files permission; on success the destination holds the source's content, overwritten rather than merged, and every other path is unchanged; a failed save shows one toast |
| `IosFiles.ShareFile` | src/native/utils/iosFileUtils.ts:124-142 | false off iOS; on iOS opens the sheet once with the given title and the `file://`-normalised path; a rejection gives false and one toast |
| `IosFiles.ShareFileWithDefaultTitle` | src/native/utils/iosFileUtils.ts:124 | a share without a title opens the sheet with the title 分享文件 and the normalised path |
| `IosFiles.ReadFileContent` | src/native/utils/iosFileUtils.ts:149-161 | the file's content on iOS; null off iOS, for a missing file, or when the read rejects |
| `IosFiles.WriteFileContent` | src/native/utils/iosFileUtils.ts:169-180 | replaces exactly that file's content, so reading it back gives what was written; false with nothing changed off iOS or when the write rejects |
| `PlatformFacade.KindForName` | src/native/utils/platformUtils.ts:42-52 | both storage permissions map to files, audio recording to microphone, every other name to no kind; photo and media library are never produced |
| `PlatformFacade.RoutePermission` | src/native/utils/platformUtils.ts:37-58 | off iOS every name goes to the Android module; on iOS a mapped name goes to the gate with its kind, any other fails open |
| `PlatformFacade.CheckPlatformPermission` | src/native/utils/platformUtils.ts:37-58 | off iOS the Android checker's answer unchanged; on iOS the storage names and audio recording follow the broker's answer for documents and microphone; any other name is true |
| `PlatformFacade.RequestPlatformPermission` | src/native/utils/platformUtils.ts:66-87 | off iOS the Android requester's answer with the gate untouched; on iOS an unknown name is true without a prompt, and a known one is exactly the gate's request for its kind |
| `PlatformFacade.DocumentsPath` | src/native/utils/platformUtils.ts:94-101 | the same root on every platform, `""` when unavailable |
| `PlatformFacade.CachePath` | src/native/utils/platformUtils.ts:107-114 | the same root on every platform, `""` when unavailable |
| `PlatformFacade.SetupAudioPlayer` | src/native/utils/platformUtils.ts:120-127 | true off iOS with nothing touched; the iOS setup's result and effect on iOS |
| `PlatformFacade.AddLocalAudioToQueue` | src/native/utils/platformUtils.ts:135-144 | true off iOS with nothing touched; the iOS local add on iOS |
| `PlatformFacade.AddStreamingAudioToQueue` | src/native/utils/platformUtils.ts:152-161 | true off iOS with nothing touched; the iOS streaming add on iOS |
| `PlatformFacade.SharePlatformFile` | src/native/utils/platformUtils.ts:169-178 | true off iOS with nothing touched; the iOS share on iOS |
| `PlatformFacade.SharePlatformFileWithDefaultTitle` | src/native/utils/platformUtils.ts:169 | a share without a title passes the default title 分享文件 on to the iOS share |

## Findings

| source | as written | input that shows it | evidently intended | confidence | as-written member | corrected member |
|---|---|---|---|---|---|---|
| src/native/utils/iosPermissions.ts:18 | `files` maps to `PERMISSIONS.IOS.DOCUMENTS`. The permission library publishes no such identifier, so the entry is `undefined` and the `!permission` branch returns `false`. | `checkIOSPermission(FILES)` or `ensureIOSPermission(FILES)` on iOS, with any broker state: the check is false, and the request returns `false` at its `!permission` branch without prompting and without a toast. `pickIOSFile` and `saveFileToIOSDocuments` return `null` whenever `ensure` is false (their contracts), so on iOS they always return `null`, silently. | The files gate follows the broker like the other three kinds. | not executed; medium, because it rests on the permission library's published iOS identifiers, which are not part of this model | `IosPermissions.BundledEnsureFilesSilent` | `IosPermissions.EnsureInDeclaredTable` |

## Left out

- The lifecycle controller is not modelled: `initializeIOSModule` and `registerIOSAppStateListeners` in `src/native/ios/index.ts`, and `src/native/ios/iosServices.ts`. Its hooks only log, and it subscribes to an OS event stream.
- The React entry component (`src/entry/index.tsx`) is UI, so it is not modelled.
- `async`/`await` is not modelled, and neither is the interleaving of concurrent calls. Each operation runs to completion in sequence.
- `console.log`/`console.error` output is not modelled. For toasts, only the interpolated capability name is kept, not the full Chinese text.
- The Android permission module (`../permissions/index`) is not part of this model. Its `checkPermission` and `requestPermission` are function parameters whose answers the facade returns unchanged. They are modelled as never rejecting. In the source, the facade does not catch around these calls (platformUtils.ts:57 and 86), so a rejection from the Android module propagates out of the facade uncaught. This is the only path in the layer where an error is not turned into `false` or `null`.
- The native services' internals are not modelled:
  - The broker's prompt answer is an oracle. It does not change after a request, whereas a real system prompt is shown only once.
  - The engine's playback itself is not modelled. A reset sets the playback state to `None`.
  - The document picker is an oracle of the accepted types.
  - Paths and URIs are compared as plain strings, with no canonicalisation.
- A native call either always rejects for a given path or engine call, or never does. As a result, a file that was just found can always be deleted, so the save's catch after a delete is never reached.
- `IosAudio.BuildTrack`: metadata fields are strings, or a real number for the duration. Non-string titles and a `NaN` duration, which JavaScript's `||` also treats as falsy, are not modelled.
- `IosAudio.SetupIosAudioPlayer`: whether the engine accepts `setupPlayer` is a fixed fault set, which does not depend on whether it was already set up. The track-player library rejects a repeated setup, so in practice a second setup fails before adding listeners.
- `IosFiles.PickFile`: an empty asset list (`assets[0]` is `undefined`) is returned as `null`, so the model does not tell `undefined` from `null`.
- `PlatformFacade.CheckPlatformPermission`: the `kind ? … : true` ternary is not modelled. The lemma `IosPermissions.TagsTruthy` shows that its fallback cannot be taken.
- The setup's five `addEventListener` subscriptions are never released. The source has no teardown path, so none is modelled.
- The setup's audio-session options (category and category options) are kept as the fixed strings passed to the engine. Their effect on the audio session is not modelled.

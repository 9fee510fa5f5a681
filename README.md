# dk-camerax capture controller, modelled in Dafny

This project models the capture controller of the dk-camerax Android library: the
`CameraFragment` that opens a front or back camera, shows a preview, takes pictures
and records videos through CameraX. The controller is a small state machine. One
guarded `cameraState` (Idle, Preview, Image, Video), an `initialized` flag, the lens,
the camera selector and a set of nullable pipeline handles move together through
`setup`, `clear`, `startPreview`, `takePicture`, `startRecording`, `stopRecording`
and the save/error completion callbacks.

Layout, one module per component:

- `wrappers.dfy` (`Wrappers`): `Option`, standing for Kotlin's nullable values.
- `camera_types.dfy` (`CameraTypes`): the direction, state, operation and result types.
  It also holds the pure decisions made during setup: decoding a direction code,
  choosing a lens (`getSuitableLensFacing` and the `when` in `setup`) and choosing an
  aspect ratio (`getSuitableAspectRatio`).
- `extensions.dfy` (`Extensions`): the extension chain run by `setExtension` and the two
  `gen*WithExtenders` builders, as a left fold over the fixed mode order.
- `saved_state.dfy` (`SavedState`): `storeState`/`restoreState` over a string-keyed
  bundle, and the arguments bundle built by `newInstance`.
- `camera_fragment.dfy` (`CameraFragmentModel`): the class `CameraFragment`. Its fields
  are the source's fields. Each nullable handle is a presence flag, and `bound` is the
  set of use cases last bound to the lifecycle. Every method has `modifies` and
  `ensures` clauses stating its whole new state.

Whatever the host decides comes in as a parameter: whether permissions are granted,
which lenses exist, the display size and rotation, whether a temporary file could be
created, the saved and fallback URIs, and the extension manager's answers. The
atomic `compareAndSet` is one sequential guarded step (`CompareAndSetState`).

Points where the code decides something a reader might expect otherwise (the model
follows the code in each case):

- The aspect-ratio comparison at line 546 is `<=` on doubles. At the one exact
  midpoint (long/short = 14/9) the rounded quotient is nearer the rounded 16/9
  than the rounded 4/3, so such a screen gets 16:9; everywhere else the
  comparison agrees with exact arithmetic.
- The completion callbacks do not reset the state unconditionally. When the fragment
  is no longer initialized they return at once and the state stays busy.
- `clear` never resets `cameraState`. A `setup` after a `clear` taken from `Preview`
  marks the fragment initialized, but its `startPreview()` finds the state not `Idle`,
  so it binds nothing. `Setup`'s contract states this case (`bound == {}`).
- Together these lock capture out. If the fragment is torn down while a picture is
  pending, the capture's completion is dropped and the state stays `Image`; a later
  `setup` succeeds, yet every `takePicture` and `startRecording` is rejected from
  then on (`ClearDuringCaptureLocksOut`).
- If permissions are missing, `setup` returns before `clear` and changes nothing.
  For `Any`, an unsuccessful lens search still stores `LENS_FACING_NULL` in
  `lensFacing`. For `Front` or `Back`, a missing lens leaves `lensFacing` as it was.

## Model

| member | source | states |
|---|---|---|
| CameraTypes.GenerateByCode | camerax/src/main/java/com/dakingx/dkcamerax/fragment/CameraFragment.kt:36-40 | The result is `Any` exactly when the code is neither the front code (1) nor the back code (2); its own code equals the input exactly for codes 0..2 |
| CameraTypes.GenerateByCodeInvertsCode | camerax/src/main/java/com/dakingx/dkcamerax/fragment/CameraFragment.kt:34-50 | Decoding the code of each of the three directions gives that direction back |
| CameraTypes.SuitableLensFacing | camerax/src/main/java/com/dakingx/dkcamerax/fragment/CameraFragment.kt:553-557 | Front is chosen whenever it exists; the lens returned exists on the device; `LENS_FACING_NULL` exactly when neither lens exists |
| CameraTypes.ResolveLens | camerax/src/main/java/com/dakingx/dkcamerax/fragment/CameraFragment.kt:279-303 | Front/Back resolve to that lens iff it exists, otherwise setup gives up; Any gives up iff no lens exists and prefers front; a resolved lens always exists |
| CameraTypes.SuitableAspectRatio | camerax/src/main/java/com/dakingx/dkcamerax/fragment/CameraFragment.kt:542-551 | With L = max and S = min > 0 of the screen size, 4:3 is chosen exactly when 9·L < 14·S, i.e. when L/S is strictly closer to 4/3 than to 16/9 |
| CameraTypes.SuitableAspectRatioSymmetric | camerax/src/main/java/com/dakingx/dkcamerax/fragment/CameraFragment.kt:543-545 | Swapping width and height never changes the chosen ratio |
| CameraTypes.SuitableAspectRatioTieIs16x9 | camerax/src/main/java/com/dakingx/dkcamerax/fragment/CameraFragment.kt:546-549 | A screen whose long/short ratio is exactly 14/9 (midway) gets 16:9, in either orientation, as the rounded doubles decide it |
| CameraTypes.SuitableAspectRatioExact | camerax/src/main/java/com/dakingx/dkcamerax/fragment/CameraFragment.kt:140-141 | Exact 4:3 screens get 4:3 and exact 16:9 screens get 16:9 |
| Extensions.WithExtension | camerax/src/main/java/com/dakingx/dkcamerax/fragment/CameraFragment.kt:521-527 | A probe replaces the selector by the host's extension-enabled one iff the mode is available for it, otherwise leaves it as it was |
| Extensions.ApplyExtensionsAppend | camerax/src/main/java/com/dakingx/dkcamerax/fragment/CameraFragment.kt:512-516 | Probing modes a then b is probing a + b: every check runs on the selector the earlier checks narrowed |
| Extensions.ApplyExtensionsNoneAvailable | camerax/src/main/java/com/dakingx/dkcamerax/fragment/CameraFragment.kt:521-527 | If no probed mode is available for the selector, the chain leaves the selector unchanged |
| Extensions.LastEnabledModeDecides | camerax/src/main/java/com/dakingx/dkcamerax/fragment/CameraFragment.kt:512-516 | The final selector is the one returned by the last mode that was enabled, when no later mode is available for it |
| Extensions.ExtensionOrderUnfolds | camerax/src/main/java/com/dakingx/dkcamerax/fragment/CameraFragment.kt:529-534 | The chain probes AUTO, BOKEH, HDR, FACE_RETOUCH, NIGHT in that order, each on the previous result |
| SavedState.Stored | camerax/src/main/java/com/dakingx/dkcamerax/fragment/CameraFragment.kt:185-190 | Storing adds exactly the authority (string) and direction (int) keys and keeps every other entry |
| SavedState.Restored | camerax/src/main/java/com/dakingx/dkcamerax/fragment/CameraFragment.kt:178-183 | A missing bundle changes nothing; otherwise a stored string authority and a stored int direction are taken; a missing authority keeps the old one; a missing or non-int direction falls back to the front code |
| SavedState.RestoreAfterStore | camerax/src/main/java/com/dakingx/dkcamerax/fragment/CameraFragment.kt:178-190 | Restoring a stored bundle yields exactly the stored authority and direction, whatever the fragment held before |
| SavedState.NewInstanceArguments | camerax/src/main/java/com/dakingx/dkcamerax/fragment/CameraFragment.kt:125-131 | The arguments bundle holds exactly the authority and direction keys |
| SavedState.NewInstanceArgumentsRestoreDirection | camerax/src/main/java/com/dakingx/dkcamerax/fragment/CameraFragment.kt:125-131 | A fragment restored from its `newInstance` arguments gets the authority and decodes the direction it was created with |
| CameraFragmentModel.CameraFragment.constructor | camerax/src/main/java/com/dakingx/dkcamerax/fragment/CameraFragment.kt:146-176 | Initial field values: Idle, not initialized, front lens, 16:9, rotation 0, no handles, nothing bound |
| CameraFragmentModel.CameraFragment.RestoreState | camerax/src/main/java/com/dakingx/dkcamerax/fragment/CameraFragment.kt:178-183 | The new authority and direction are those `Restored` gives for the bundle and the old values |
| CameraFragmentModel.CameraFragment.StoreState | camerax/src/main/java/com/dakingx/dkcamerax/fragment/CameraFragment.kt:185-190 | Returns the bundle with both entries set, and restoring it yields the fragment's authority and direction |
| CameraFragmentModel.CameraFragment.CompareAndSetState | camerax/src/main/java/com/dakingx/dkcamerax/fragment/CameraFragment.kt:348 | Swaps iff the state equals the expected one; the state becomes the update on a swap and is unchanged otherwise |
| CameraFragmentModel.CameraFragment.SwitchToPreviewState | camerax/src/main/java/com/dakingx/dkcamerax/fragment/CameraFragment.kt:499-505 | The state becomes Preview from any state |
| CameraFragmentModel.CameraFragment.Clear | camerax/src/main/java/com/dakingx/dkcamerax/fragment/CameraFragment.kt:224-263 | Not initialized: nothing changes, so clearing twice equals clearing once. Initialized: all pipeline handles dropped, nothing bound, not initialized. Never touches the state, lens or selector |
| CameraFragmentModel.CameraFragment.SetExtension | camerax/src/main/java/com/dakingx/dkcamerax/fragment/CameraFragment.kt:521-527 | The selector becomes the one probe `WithExtension` gives for the mode |
| CameraFragmentModel.CameraFragment.GenBuilderWithExtenders | camerax/src/main/java/com/dakingx/dkcamerax/fragment/CameraFragment.kt:507-519 | The selector becomes the five-mode chain applied to the old selector |
| CameraFragmentModel.CameraFragment.ChooseLensFacing | camerax/src/main/java/com/dakingx/dkcamerax/fragment/CameraFragment.kt:279-303 | Succeeds iff `ResolveLens` does, storing its lens; an unsuccessful Any stores NULL, an unsuccessful Front/Back keeps the old lens |
| CameraFragmentModel.CameraFragment.BuildPipeline | camerax/src/main/java/com/dakingx/dkcamerax/fragment/CameraFragment.kt:305-323 | Aspect ratio from the display size, rotation from the display, selector for the lens narrowed by the extension chain, preview and analysis present |
| CameraFragmentModel.CameraFragment.Setup | camerax/src/main/java/com/dakingx/dkcamerax/fragment/CameraFragment.kt:266-327 | No permission: nothing changes. Otherwise the outcome is never the permission error, it is ready iff the lens resolves, and a missing lens leaves the fragment uninitialized. No abort initializes a fragment or changes the state. Giving up at lens resolution leaves executor, provider and extension manager created, and keeps the selector, ratio, rotation and (for Front/Back) the lens as they were. On success the fragment is initialized with a fresh pipeline and no stale capture handles, and the preview starts iff the state was Idle |
| CameraFragmentModel.CameraFragment.SetupCleared | camerax/src/main/java/com/dakingx/dkcamerax/fragment/CameraFragment.kt:274-326 | After teardown: ready iff the lens resolves. Giving up leaves the fragment uninitialized and the state unchanged, with executor, provider and extension manager created, the selector, ratio and rotation kept, and the lens kept for Front/Back (NULL stored for Any). Ready means initialized with the chosen lens, ratio, rotation and extended selector; preview and analysis are bound iff the state was Idle, else nothing is bound |
| CameraFragmentModel.CameraFragment.StartPreview | camerax/src/main/java/com/dakingx/dkcamerax/fragment/CameraFragment.kt:329-340 | Without force, succeeds only from Idle and moves to Preview; with force, always succeeds and keeps the state. On success preview and analysis are what is bound |
| CameraFragmentModel.CameraFragment.TakePicture | camerax/src/main/java/com/dakingx/dkcamerax/fragment/CameraFragment.kt:342-370 | Not initialized or not in Preview: false and nothing changes. Otherwise claims Image, binds preview and image capture, and narrows the selector by the extension chain. A failed temp file returns to Preview and reports false |
| CameraFragmentModel.CameraFragment.StartRecording | camerax/src/main/java/com/dakingx/dkcamerax/fragment/CameraFragment.kt:415-442 | Same guard as TakePicture. Claims Video and binds preview and video capture; a failed temp file returns to Preview and reports false |
| CameraFragmentModel.CameraFragment.StopRecording | camerax/src/main/java/com/dakingx/dkcamerax/fragment/CameraFragment.kt:485-497 | True iff initialized and in Video; changes no state |
| CameraFragmentModel.CameraFragment.OnImageSaved | camerax/src/main/java/com/dakingx/dkcamerax/fragment/CameraFragment.kt:380-395 | Initialized: state Preview, image capture dropped, an Image result that is Success (saved URI, else the file's URI) iff one exists, else Failure "output URI not found". Not initialized: no result, nothing changes |
| CameraFragmentModel.CameraFragment.OnImageError | camerax/src/main/java/com/dakingx/dkcamerax/fragment/CameraFragment.kt:397-408 | Initialized: state Preview, image capture dropped, Failure(Image) carrying the exception. Not initialized: no result, nothing changes |
| CameraFragmentModel.CameraFragment.OnVideoSaved | camerax/src/main/java/com/dakingx/dkcamerax/fragment/CameraFragment.kt:452-466 | As OnImageSaved, tagged Video, dropping the video capture |
| CameraFragmentModel.CameraFragment.OnVideoError | camerax/src/main/java/com/dakingx/dkcamerax/fragment/CameraFragment.kt:468-478 | As OnImageError, tagged Video, carrying the host's message |
| CameraFragmentModel.CaptureIsExclusive | camerax/src/main/java/com/dakingx/dkcamerax/fragment/CameraFragment.kt:342-442 | After a picture claims the busy state, a recording and a second picture are both rejected and the state stays Image |
| CameraFragmentModel.RecordingEndsOnlyByCallback | camerax/src/main/java/com/dakingx/dkcamerax/fragment/CameraFragment.kt:452-497 | A started recording accepts two stop requests while staying in Video; only its completion callback returns it to Preview, reporting Success with the saved URI or Failure |
| CameraFragmentModel.ClearDuringCaptureLocksOut | camerax/src/main/java/com/dakingx/dkcamerax/fragment/CameraFragment.kt:224-247 | From an initialized fragment in Image: after clear, the pending picture's completion is dropped; setup with a lens present is Ready; then a picture and a recording are both rejected and the state stays Image |

## Left out

- User interface: toasts, the progress bar, `Handler.post`, view binding and the display query are not modelled. `Setup` returns which setup error would be shown; the other operations report only their boolean.
- Fragment lifecycle (`onCreate`, `onCreateView`, `onActivityCreated`, `onDestroyView`, `onDestroy`): not modelled, because they only call `setup`/`clear` or manage the listener. The `BaseFragment` that calls `restoreState`/`storeState` is not part of this model.
- Listener: each callback returns the `CameraOpResult` it would hand to the listener. Whether a listener is registered (it is nullable) and the `analyseImage` analyzer are not modelled.
- CameraX calls are not modelled beyond presence flags and the `bound` set of bound use cases: `setSurfaceProvider`, `camera.release`, the host-side `stopRecording`, `unbindAll`/`shutdown` of the provider, `clearAnalyzer`/`setAnalyzer`, and the builder options (capture mode, flash, 25 fps, bit rate, the front-lens mirror metadata).
- Exceptions: host calls are assumed not to throw. The `try/catch` in `clear` therefore never fires. Exceptions from the provider lookups in `setup` are also not modelled.
- CameraFragmentModel.CameraFragment.StartPreview: requires a selector whenever a camera provider is present, the condition under which `cameraSelector!!` at line 333 does not throw. A client calling `startPreview` after a first `setup` gave up at lens resolution would crash there; that path is not modelled.
- Concurrency: the background executor, `@Volatile` and cross-thread use of the `AtomicReference` are not modelled. `compareAndSet` is one sequential step.
- CameraTypes.SuitableAspectRatio: the doubles are replaced by a strict comparison of integers scaled by 9·S. This matches the doubles for 32-bit sizes: at the exact 14/9 midpoint the doubles round towards 16:9, and every other integer ratio lies at least 1/(9·S) from the midpoint, far beyond rounding error. The rounding itself is not modelled. A 0×0 screen (NaN) gives 16:9 and a screen with one zero side gives 4:3, as the doubles do.
- Extensions: availability and the enabled selector are fixed functions of (selector, mode) given by the host's extension manager; the camera provider argument is not modelled. The source fetches one manager in setup (line 276) and reuses it when taking a picture, while the model passes a manager to Setup and to TakePicture separately; the model is therefore more general, and its contracts hold in particular when both are the same manager.
- `REQUIRED_PERMISSIONS` and `REQUIRED_PERMISSIONS_TIRAMISU`: not modelled, because they depend on the platform version. The permission check is the `permissionsGranted` parameter.
- The sample app's activities and the preview module (image and video preview fragments): not modelled, because they are UI and media-player plumbing.

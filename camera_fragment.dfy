/**
 * The capture controller: a fragment that owns one guarded camera state
 * (Idle / Preview / Image / Video), an `initialized` flag and the nullable
 * pipeline handles, and moves between them in `setup`, `clear`,
 * `startPreview`, `takePicture`, `startRecording`, `stopRecording` and the
 * completion callbacks. Every answer the host gives (permissions, lenses,
 * temporary files, saved URIs, extension support) is a parameter.
 */
module CameraFragmentModel {
  import opened Wrappers
  import opened CameraTypes
  import opened Extensions
  import opened SavedState

  /** The use cases the camera provider can have bound to the lifecycle. */
  datatype UseCase = PreviewUseCase | AnalysisUseCase | ImageCaptureUseCase | VideoCaptureUseCase

  /** How `setup` ended: ready, or the error message shown to the user. */
  datatype SetupOutcome = Ready | LackRequiredPermissions | OtherAppHoldsTheCamera

  class CameraFragment {
    var fileProviderAuthority: string
    /** The requested direction, as its code. */
    var cameraDirection: int
    var initialized: bool
    var screenAspectRatio: AspectRatio
    var rotation: int
    var lensFacing: LensFacing
    var cameraState: CameraState

    // Presence of the nullable pipeline handles (true when non-null).
    var executorService: bool
    var cameraProvider: bool
    var extensionsManager: bool
    var cameraSelector: Option<CameraSelector>
    var preview: bool
    var imageCapture: bool
    var videoCapture: bool
    var imageAnalysis: bool

    /** The use cases last bound by the camera provider. */
    var bound: set<UseCase>

    /**
     * An initialized fragment holds the whole pipeline; an uninitialized one
     * holds no use case and has nothing bound.
     */
    ghost predicate Valid()
      reads this
    {
      && (initialized ==>
            executorService && cameraProvider && extensionsManager && cameraSelector.Some?
            && preview && imageAnalysis)
      && (!initialized ==>
            !preview && !imageAnalysis && !imageCapture && !videoCapture && bound == {})
    }

    constructor ()
      ensures Valid()
      ensures fileProviderAuthority == "" && cameraDirection == CameraDirection.Front.Code()
      ensures !initialized && cameraState == CameraState.Idle
      ensures screenAspectRatio == Ratio16x9 && rotation == 0 && lensFacing == FrontFacing
      ensures !executorService && !cameraProvider && !extensionsManager && cameraSelector == None
      ensures !preview && !imageCapture && !videoCapture && !imageAnalysis && bound == {}
    {
      fileProviderAuthority := "";
      cameraDirection := CameraDirection.Front.Code();
      initialized := false;
      screenAspectRatio := Ratio16x9;
      rotation := 0;
      lensFacing := FrontFacing;
      cameraState := CameraState.Idle;
      executorService := false;
      cameraProvider := false;
      extensionsManager := false;
      cameraSelector := None;
      preview := false;
      imageCapture := false;
      videoCapture := false;
      imageAnalysis := false;
      bound := {};
    }

    // -------------------------------------------------------------------------
    // Saved state
    // -------------------------------------------------------------------------

    /** Reads the authority and direction back from an optional bundle. */
    method RestoreState(bundle: Option<Bundle>)
      modifies this`fileProviderAuthority, this`cameraDirection
      ensures (fileProviderAuthority, cameraDirection)
           == Restored(bundle, old(fileProviderAuthority), old(cameraDirection))
    {
      if bundle.Some? {
        var auth := GetString(bundle.value, ArgFileProviderAuth);
        if auth.Some? {
          fileProviderAuthority := auth.value;
        }
        cameraDirection := GetInt(bundle.value, ArgCameraDirection, CameraDirection.Front.Code());
      }
    }

    /** Puts the authority and direction into `bundle`, keeping its other entries. */
    method StoreState(bundle: Bundle) returns (saved: Bundle)
      ensures saved == Stored(bundle, fileProviderAuthority, cameraDirection)
      ensures Restored(Some(saved), "", CameraDirection.Any.Code()) == (fileProviderAuthority, cameraDirection)
    {
      saved := bundle[ArgFileProviderAuth := StringValue(fileProviderAuthority)];
      saved := saved[ArgCameraDirection := IntValue(cameraDirection)];
      RestoreAfterStore(bundle, fileProviderAuthority, cameraDirection, "", CameraDirection.Any.Code());
    }

    // -------------------------------------------------------------------------
    // The guarded state
    // -------------------------------------------------------------------------

    /** `compareAndSet` on the state, taken as one sequential step. */
    method CompareAndSetState(expected: CameraState, update: CameraState) returns (swapped: bool)
      modifies this`cameraState
      ensures swapped <==> old(cameraState) == expected
      ensures cameraState == if swapped then update else old(cameraState)
    {
      swapped := cameraState == expected;
      if swapped {
        cameraState := update;
      }
    }

    /** A capture has completed: back to `Preview`, whatever the state was. */
    method SwitchToPreviewState()
      modifies this`cameraState
      ensures cameraState == CameraState.Preview
    {
      cameraState := CameraState.Preview;
    }

    // -------------------------------------------------------------------------
    // Teardown and setup
    // -------------------------------------------------------------------------

    /**
     * Tears the pipeline down once: when initialized, drops every pipeline
     * handle and unbinds everything; when not, does nothing at all. The camera
     * state, the lens, the selector and the extension manager survive.
     */
    method Clear()
      requires Valid()
      modifies this`initialized, this`preview, this`imageCapture, this`videoCapture, this`imageAnalysis,
               this`executorService, this`cameraProvider, this`bound
      ensures Valid() && !initialized
      ensures !old(initialized) ==> unchanged(this)
      ensures old(initialized) ==>
        && !preview && !imageCapture && !videoCapture && !imageAnalysis
        && !executorService && !cameraProvider && bound == {}
    {
      if initialized {
        initialized := false;
        videoCapture := false;
        imageCapture := false;
        preview := false;
        executorService := false;
        imageAnalysis := false;
        if cameraProvider {
          bound := {};
        }
        cameraProvider := false;
      }
    }

    /** One extension probe: narrows the selector when `mode` is available for it. */
    method SetExtension(manager: ExtensionsManager, mode: ExtensionMode)
      requires extensionsManager && cameraProvider && cameraSelector.Some?
      modifies this`cameraSelector
      ensures cameraSelector == Some(WithExtension(manager, old(cameraSelector).value, mode))
    {
      if manager.isExtensionAvailable(cameraSelector.value, mode) {
        cameraSelector := Some(manager.enabledSelector(cameraSelector.value, mode));
      }
    }

    /**
     * The extension chain both pipeline builders run before building: the
     * five modes probed in their fixed order, each on the narrowed selector.
     */
    method GenBuilderWithExtenders(manager: ExtensionsManager)
      requires extensionsManager && cameraProvider && cameraSelector.Some?
      modifies this`cameraSelector
      ensures cameraSelector == Some(ApplyExtensions(manager, old(cameraSelector).value, ExtensionOrder))
    {
      ExtensionOrderUnfolds(manager, cameraSelector.value);
      SetExtension(manager, Auto);
      SetExtension(manager, Bokeh);
      SetExtension(manager, Hdr);
      SetExtension(manager, FaceRetouch);
      SetExtension(manager, Night);
    }

    /**
     * Resolves the requested direction against the lenses the device has.
     * For `Any` the lens picked is stored even when it is `NullFacing`; for
     * a missing front or back lens the stored lens is left alone.
     */
    method ChooseLensFacing(hasFrontCamera: bool, hasBackCamera: bool) returns (found: bool)
      modifies this`lensFacing
      ensures found <==> ResolveLens(GenerateByCode(cameraDirection), hasFrontCamera, hasBackCamera).Some?
      ensures found ==> lensFacing == ResolveLens(GenerateByCode(cameraDirection), hasFrontCamera, hasBackCamera).value
      ensures !found && GenerateByCode(cameraDirection) == CameraDirection.Any ==> lensFacing == NullFacing
      ensures !found && GenerateByCode(cameraDirection) != CameraDirection.Any ==> lensFacing == old(lensFacing)
    {
      match GenerateByCode(cameraDirection) {
        case Front =>
          if !hasFrontCamera {
            return false;
          }
          lensFacing := FrontFacing;
        case Back =>
          if !hasBackCamera {
            return false;
          }
          lensFacing := BackFacing;
        case Any =>
          lensFacing := SuitableLensFacing(hasFrontCamera, hasBackCamera);
          if lensFacing == NullFacing {
            return false;
          }
      }
      found := true;
    }

    /**
     * The part of `setup` after the lens is known: the aspect ratio and the
     * rotation of the display, the selector for the lens narrowed by the
     * extensions, the preview and the image analysis.
     */
    method BuildPipeline(widthPixels: int, heightPixels: int, displayRotation: int, manager: ExtensionsManager)
      requires extensionsManager && cameraProvider
      modifies this`screenAspectRatio, this`rotation, this`cameraSelector, this`preview, this`imageAnalysis
      ensures screenAspectRatio == SuitableAspectRatio(widthPixels, heightPixels)
      ensures rotation == displayRotation
      ensures cameraSelector == Some(ApplyExtensions(manager, LensSelector(lensFacing), ExtensionOrder))
      ensures preview && imageAnalysis
    {
      screenAspectRatio := SuitableAspectRatio(widthPixels, heightPixels);
      rotation := displayRotation;
      cameraSelector := Some(LensSelector(lensFacing));

      GenBuilderWithExtenders(manager);
      preview := true;
      imageAnalysis := true;
    }

    /**
     * Builds the pipeline: checks permissions, tears the old pipeline down,
     * resolves the lens, picks the aspect ratio, builds the selector with its
     * extensions, the preview and the analysis, marks the fragment
     * initialized and starts the preview. The host's answers are parameters.
     */
    method Setup(permissionsGranted: bool, hasFrontCamera: bool, hasBackCamera: bool,
                 widthPixels: int, heightPixels: int, displayRotation: int,
                 manager: ExtensionsManager)
      returns (outcome: SetupOutcome)
      requires Valid()
      modifies this`initialized, this`screenAspectRatio, this`rotation, this`lensFacing, this`cameraState,
               this`executorService, this`cameraProvider, this`extensionsManager, this`cameraSelector,
               this`preview, this`imageCapture, this`videoCapture, this`imageAnalysis, this`bound
      ensures Valid()
      ensures !permissionsGranted ==> outcome == LackRequiredPermissions && unchanged(this)
      ensures permissionsGranted ==> outcome != LackRequiredPermissions
      ensures permissionsGranted ==>
        (outcome == Ready <==>
           ResolveLens(GenerateByCode(cameraDirection), hasFrontCamera, hasBackCamera).Some?)
      ensures outcome == OtherAppHoldsTheCamera ==> !initialized
      ensures outcome != Ready && !old(initialized) ==> !initialized
      ensures outcome != Ready ==> cameraState == old(cameraState)
      ensures outcome == OtherAppHoldsTheCamera ==>
        && executorService && cameraProvider && extensionsManager
        && cameraSelector == old(cameraSelector)
        && screenAspectRatio == old(screenAspectRatio)
        && rotation == old(rotation)
        && (GenerateByCode(cameraDirection) != CameraDirection.Any ==> lensFacing == old(lensFacing))
      ensures outcome == OtherAppHoldsTheCamera && GenerateByCode(cameraDirection) == CameraDirection.Any ==>
        lensFacing == NullFacing
      ensures outcome == Ready ==>
        && initialized
        && lensFacing == ResolveLens(GenerateByCode(cameraDirection), hasFrontCamera, hasBackCamera).value
        && screenAspectRatio == SuitableAspectRatio(widthPixels, heightPixels)
        && rotation == displayRotation
        && cameraSelector == Some(ApplyExtensions(manager, LensSelector(lensFacing), ExtensionOrder))
        && !imageCapture && !videoCapture
        && (old(cameraState) == CameraState.Idle ==>
              cameraState == CameraState.Preview && bound == {PreviewUseCase, AnalysisUseCase})
        && (old(cameraState) != CameraState.Idle ==>
              cameraState == old(cameraState) && bound == {})
    {
      if !permissionsGranted {
        return LackRequiredPermissions;
      }

      Clear();
      outcome := SetupCleared(hasFrontCamera, hasBackCamera, widthPixels, heightPixels, displayRotation, manager);
    }

    /**
     * The rest of `setup` once the old pipeline is torn down: creates the
     * executor, provider and extension manager, resolves the lens, builds the
     * pipeline, marks the fragment initialized and starts the preview.
     */
    method SetupCleared(hasFrontCamera: bool, hasBackCamera: bool,
                        widthPixels: int, heightPixels: int, displayRotation: int,
                        manager: ExtensionsManager)
      returns (outcome: SetupOutcome)
      requires Valid() && !initialized
      modifies this`initialized, this`screenAspectRatio, this`rotation, this`lensFacing, this`cameraState,
               this`executorService, this`cameraProvider, this`extensionsManager, this`cameraSelector,
               this`preview, this`imageAnalysis, this`bound
      ensures Valid()
      ensures outcome != LackRequiredPermissions
      ensures outcome == Ready <==> ResolveLens(GenerateByCode(cameraDirection), hasFrontCamera, hasBackCamera).Some?
      ensures outcome == OtherAppHoldsTheCamera ==> !initialized && cameraState == old(cameraState)
      ensures outcome == OtherAppHoldsTheCamera ==>
        && executorService && cameraProvider && extensionsManager
        && cameraSelector == old(cameraSelector)
        && screenAspectRatio == old(screenAspectRatio)
        && rotation == old(rotation)
        && (GenerateByCode(cameraDirection) != CameraDirection.Any ==> lensFacing == old(lensFacing))
      ensures outcome == OtherAppHoldsTheCamera && GenerateByCode(cameraDirection) == CameraDirection.Any ==>
        lensFacing == NullFacing
      ensures outcome == Ready ==>
        && initialized
        && lensFacing == ResolveLens(GenerateByCode(cameraDirection), hasFrontCamera, hasBackCamera).value
        && screenAspectRatio == SuitableAspectRatio(widthPixels, heightPixels)
        && rotation == displayRotation
        && cameraSelector == Some(ApplyExtensions(manager, LensSelector(lensFacing), ExtensionOrder))
        && (old(cameraState) == CameraState.Idle ==>
              cameraState == CameraState.Preview && bound == {PreviewUseCase, AnalysisUseCase})
        && (old(cameraState) != CameraState.Idle ==>
              cameraState == old(cameraState) && bound == {})
    {
      executorService := true;
      cameraProvider := true;
      extensionsManager := true;

      var found := ChooseLensFacing(hasFrontCamera, hasBackCamera);
      if !found {
        return OtherAppHoldsTheCamera;
      }

      BuildPipeline(widthPixels, heightPixels, displayRotation, manager);
      initialized := true;
      var started := StartPreview(false);
      if started {
        assert bound == {PreviewUseCase} + {AnalysisUseCase};
      }
      outcome := Ready;
    }

    /**
     * Binds the preview and the analysis. Without `force` this only happens
     * on the move from `Idle` to `Preview`; with it, always, and the state is
     * left as it is. Requires a selector whenever a provider is present, as
     * the call that binds dereferences it.
     */
    method StartPreview(force: bool) returns (ok: bool)
      requires Valid()
      requires cameraProvider ==> cameraSelector.Some?
      modifies this`cameraState, this`bound
      ensures Valid()
      ensures ok <==> force || old(cameraState) == CameraState.Idle
      ensures cameraState == if !force && old(cameraState) == CameraState.Idle
                             then CameraState.Preview else old(cameraState)
      ensures ok && cameraProvider ==>
        bound == (if preview then {PreviewUseCase} else {}) + (if imageAnalysis then {AnalysisUseCase} else {})
      ensures !(ok && cameraProvider) ==> bound == old(bound)
    {
      var claimed := false;
      if !force {
        claimed := CompareAndSetState(CameraState.Idle, CameraState.Preview);
      }
      if force || claimed {
        if cameraProvider {
          bound := (if preview then {PreviewUseCase} else {}) + (if imageAnalysis then {AnalysisUseCase} else {});
        }
        ok := true;
      } else {
        ok := false;
      }
    }

    // -------------------------------------------------------------------------
    // Capture
    // -------------------------------------------------------------------------

    /**
     * Starts a still capture. Rejected, with nothing changed, unless the
     * fragment is initialized and in `Preview`; otherwise claims `Image`,
     * builds the image capture with the extensions and binds it with the
     * preview. If no temporary file can be made the state returns to
     * `Preview` and the call reports false.
     */
    method TakePicture(tempFileCreated: bool, manager: ExtensionsManager) returns (ok: bool)
      requires Valid()
      modifies this`cameraState, this`imageCapture, this`cameraSelector, this`bound
      ensures Valid()
      ensures !old(initialized) || old(cameraState) != CameraState.Preview ==>
        !ok && unchanged(this)
      ensures old(initialized) && old(cameraState) == CameraState.Preview ==>
        && ok == tempFileCreated
        && cameraState == (if ok then CameraState.Image else CameraState.Preview)
        && imageCapture
        && bound == {PreviewUseCase, ImageCaptureUseCase}
        && cameraSelector == Some(ApplyExtensions(manager, old(cameraSelector).value, ExtensionOrder))
    {
      if !initialized {
        return false;
      }
      var claimed := CompareAndSetState(CameraState.Preview, CameraState.Image);
      if !claimed {
        return false;
      }

      GenBuilderWithExtenders(manager);
      imageCapture := true;
      if cameraProvider {
        bound := {PreviewUseCase, ImageCaptureUseCase};
      }

      if !tempFileCreated {
        cameraState := CameraState.Preview;
        return false;
      }
      ok := true;
    }

    /**
     * Starts a recording: the same guard as `TakePicture`, claiming `Video`
     * and binding the video capture with the preview.
     */
    method StartRecording(tempFileCreated: bool) returns (ok: bool)
      requires Valid()
      modifies this`cameraState, this`videoCapture, this`bound
      ensures Valid()
      ensures !old(initialized) || old(cameraState) != CameraState.Preview ==>
        !ok && unchanged(this)
      ensures old(initialized) && old(cameraState) == CameraState.Preview ==>
        && ok == tempFileCreated
        && cameraState == (if ok then CameraState.Video else CameraState.Preview)
        && videoCapture
        && bound == {PreviewUseCase, VideoCaptureUseCase}
    {
      if !initialized {
        return false;
      }
      var claimed := CompareAndSetState(CameraState.Preview, CameraState.Video);
      if !claimed {
        return false;
      }

      videoCapture := true;
      if cameraProvider {
        bound := {PreviewUseCase, VideoCaptureUseCase};
      }

      if !tempFileCreated {
        cameraState := CameraState.Preview;
        return false;
      }
      ok := true;
    }

    /**
     * Asks the host to finish a recording. Accepted only while initialized
     * and recording; the state stays `Video` until the completion callback.
     */
    method StopRecording() returns (ok: bool)
      ensures ok <==> initialized && cameraState == CameraState.Video
    {
      if !initialized {
        return false;
      }
      if cameraState != CameraState.Video {
        return false;
      }
      ok := true;
    }

    // -------------------------------------------------------------------------
    // Completion callbacks
    // -------------------------------------------------------------------------

    /**
     * The host saved the picture. `savedUri` is what the host reports,
     * `fileUri` the URI the temporary file maps to, if any. Returns the
     * result reported to the listener, or None when the fragment was torn
     * down meanwhile.
     */
    method OnImageSaved(savedUri: Option<Uri>, fileUri: Option<Uri>) returns (result: Option<CameraOpResult>)
      requires Valid()
      modifies this`cameraState, this`imageCapture
      ensures Valid()
      ensures !old(initialized) ==> result == None && unchanged(this)
      ensures old(initialized) ==>
        && cameraState == CameraState.Preview && !imageCapture
        && result.Some? && result.value.Op() == CameraOp.Image
        && (result.value.Success? <==> savedUri.Some? || fileUri.Some?)
        && (result.value.Success? ==> result.value.uri == if savedUri.Some? then savedUri.value else fileUri.value)
        && (result.value.Failure? ==> result.value.msg == OutputUriNotFound)
    {
      if !initialized {
        return None;
      }
      var uri := if savedUri.Some? then savedUri else fileUri;
      SwitchToPreviewState();
      result := Some(if uri.Some? then Success(CameraOp.Image, uri.value)
                     else Failure(CameraOp.Image, OutputUriNotFound));
      imageCapture := false;
    }

    /** The host failed to save the picture. */
    method OnImageError(exception: string) returns (result: Option<CameraOpResult>)
      requires Valid()
      modifies this`cameraState, this`imageCapture
      ensures Valid()
      ensures !old(initialized) ==> result == None && unchanged(this)
      ensures old(initialized) ==>
        && cameraState == CameraState.Preview && !imageCapture
        && result == Some(Failure(CameraOp.Image, CaptureImageFail(exception)))
    {
      if !initialized {
        return None;
      }
      SwitchToPreviewState();
      result := Some(Failure(CameraOp.Image, CaptureImageFail(exception)));
      imageCapture := false;
    }

    /** The host saved the recording; as `OnImageSaved`, for video. */
    method OnVideoSaved(savedUri: Option<Uri>, fileUri: Option<Uri>) returns (result: Option<CameraOpResult>)
      requires Valid()
      modifies this`cameraState, this`videoCapture
      ensures Valid()
      ensures !old(initialized) ==> result == None && unchanged(this)
      ensures old(initialized) ==>
        && cameraState == CameraState.Preview && !videoCapture
        && result.Some? && result.value.Op() == CameraOp.Video
        && (result.value.Success? <==> savedUri.Some? || fileUri.Some?)
        && (result.value.Success? ==> result.value.uri == if savedUri.Some? then savedUri.value else fileUri.value)
        && (result.value.Failure? ==> result.value.msg == OutputUriNotFound)
    {
      if !initialized {
        return None;
      }
      var uri := if savedUri.Some? then savedUri else fileUri;
      SwitchToPreviewState();
      result := Some(if uri.Some? then Success(CameraOp.Video, uri.value)
                     else Failure(CameraOp.Video, OutputUriNotFound));
      videoCapture := false;
    }

    /** The host failed to record. */
    method OnVideoError(message: string) returns (result: Option<CameraOpResult>)
      requires Valid()
      modifies this`cameraState, this`videoCapture
      ensures Valid()
      ensures !old(initialized) ==> result == None && unchanged(this)
      ensures old(initialized) ==>
        && cameraState == CameraState.Preview && !videoCapture
        && result == Some(Failure(CameraOp.Video, CaptureVideoFail(message)))
    {
      if !initialized {
        return None;
      }
      SwitchToPreviewState();
      result := Some(Failure(CameraOp.Video, CaptureVideoFail(message)));
      videoCapture := false;
    }
  }

  /**
   * Once a capture has claimed the busy state, every further capture request
   * is rejected until a completion callback runs.
   */
  method CaptureIsExclusive(fragment: CameraFragment, manager: ExtensionsManager,
                            firstFile: bool, secondFile: bool, thirdFile: bool)
    returns (first: bool, second: bool, third: bool)
    requires fragment.Valid()
    modifies fragment
    ensures first ==> !second && !third
    ensures first ==> fragment.cameraState == CameraState.Image
  {
    first := fragment.TakePicture(firstFile, manager);
    second := fragment.StartRecording(secondFile);
    third := fragment.TakePicture(thirdFile, manager);
  }

  /**
   * A recording stays in `Video` across two stop requests, both accepted;
   * only its completion callback brings the fragment back to `Preview`.
   */
  method RecordingEndsOnlyByCallback(fragment: CameraFragment, savedUri: Option<Uri>)
    returns (started: bool, firstStop: bool, secondStop: bool, result: Option<CameraOpResult>)
    requires fragment.Valid()
    modifies fragment
    ensures started ==> firstStop && secondStop
    ensures started ==> fragment.cameraState == CameraState.Preview
    ensures started && savedUri.Some? ==> result == Some(Success(CameraOp.Video, savedUri.value))
    ensures started && savedUri.None? ==> result == Some(Failure(CameraOp.Video, OutputUriNotFound))
  {
    started := fragment.StartRecording(true);
    firstStop := fragment.StopRecording();
    if started {
      assert fragment.cameraState == CameraState.Video;
    }
    secondStop := fragment.StopRecording();
    result := fragment.OnVideoSaved(savedUri, None);
  }

  /**
   * Tearing the fragment down while a still capture is pending locks it
   * out of capturing: the capture's completion arrives while the fragment is
   * not initialized and is dropped, so the state stays `Image`; a later
   * setup succeeds but does not reset the state, and every capture request
   * after it is rejected.
   */
  method ClearDuringCaptureLocksOut(fragment: CameraFragment, manager: ExtensionsManager,
                                    widthPixels: int, heightPixels: int, displayRotation: int,
                                    savedUri: Option<Uri>, pictureFile: bool, videoFile: bool)
    returns (late: Option<CameraOpResult>, outcome: SetupOutcome, picture: bool, recording: bool)
    requires fragment.Valid() && fragment.initialized && fragment.cameraState == CameraState.Image
    modifies fragment
    ensures late == None
    ensures outcome == Ready && fragment.initialized
    ensures !picture && !recording
    ensures fragment.cameraState == CameraState.Image
  {
    fragment.Clear();
    late := fragment.OnImageSaved(savedUri, None);
    outcome := fragment.Setup(true, true, true, widthPixels, heightPixels, displayRotation, manager);
    picture := fragment.TakePicture(pictureFile, manager);
    recording := fragment.StartRecording(videoFile);
  }
}

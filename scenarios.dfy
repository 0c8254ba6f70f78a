/**
 * Call sequences on a fresh activity, each with its verified outcome, each
 * pinning down one behaviour of the source exactly, including the ones a reader might not
 * expect (callbacks that are replaced without an answer, a stale photo path,
 * a denial caused by an unrelated permission).
 */
module Scenarios {
  import opened Options
  import opened Navigation
  import opened Uploads
  import opened Permissions
  import opened Activity

  const NO_HANDLERS := CaptureHandlers(false, false, false)

  /**
   * A second file request cancels the first with null before its own chooser
   * opens; the picked file then goes to the second callback only. Each
   * callback is answered exactly once.
   */
  method SecondUploadCancelsFirst(first: CallbackId, second: CallbackId, picked: Uri) returns (log: seq<Event>)
    requires first != second
    ensures log == [ChooserLaunched([]), UploadDelivered(first, None),
                    ChooserLaunched([]), UploadDelivered(second, Some([picked]))]
  {
    var activity := new MainActivity(None);
    var noFiles := (i: nat) => None;
    var handled := activity.OnShowFileChooser(first, None, NO_HANDLERS, noFiles);
    handled := activity.OnShowFileChooser(second, None, NO_HANDLERS, noFiles);
    activity.OnFileChooserResult(ActivityResult(RESULT_OK, Some(ResultData(Some(picked), None))));
    log := activity.events;
  }

  /** A cancelled chooser answers the page with null, and a later result has nobody to answer. */
  method CancelledChooserAnswersNull(callback: CallbackId, resultCode: int) returns (log: seq<Event>)
    requires resultCode != RESULT_OK
    ensures log == [ChooserLaunched([]), UploadDelivered(callback, None)]
  {
    var activity := new MainActivity(None);
    var handled := activity.OnShowFileChooser(callback, None, NO_HANDLERS, (i: nat) => None);
    activity.OnFileChooserResult(ActivityResult(resultCode, None));
    activity.OnFileChooserResult(ActivityResult(RESULT_OK, None));
    log := activity.events;
  }

  /**
   * Cancelling an upload does not clear `mCameraPhotoPath`: the photo path of
   * a first, image-accepting chooser is handed to a second chooser's callback
   * when that one returns OK without data.
   */
  method StaleCameraPathReachesNextUpload(first: CallbackId, second: CallbackId, photo: PhotoFile) returns (log: seq<Event>)
    requires first != second
    ensures log == [ChooserLaunched([PhotoCapture(photo.fileUri)]), UploadDelivered(first, None),
                    ChooserLaunched([]), UploadDelivered(second, Some([photo.contentUri]))]
  {
    var activity := new MainActivity(None);
    var cameraOnly := CaptureHandlers(true, false, false);
    var files := (i: nat) => Some(photo);
    SingleImageTypeOffersOnePhoto(cameraOnly, files);
    var handled := activity.OnShowFileChooser(first, Some(["image/*"]), cameraOnly, files);
    handled := activity.OnShowFileChooser(second, None, cameraOnly, (i: nat) => None);
    activity.OnFileChooserResult(ActivityResult(RESULT_OK, None));
    log := activity.events;
  }

  /**
   * A second geolocation prompt replaces the pending (origin, callback)
   * without answering it: after the grant only the second callback hears back.
   */
  method SecondGeolocationPromptDropsFirst(first: CallbackId, second: CallbackId, firstOrigin: string, secondOrigin: string)
    returns (log: seq<Event>)
    ensures log == [PermissionsRequested([AccessFineLocation], PERMISSION_REQUEST_CODE),
                    PermissionsRequested([AccessFineLocation], PERMISSION_REQUEST_CODE),
                    GeolocationAnswered(second, secondOrigin, true, false)]
  {
    var activity := new MainActivity(None);
    activity.OnGeolocationPermissionsShowPrompt(firstOrigin, first, {});
    activity.OnGeolocationPermissionsShowPrompt(secondOrigin, second, {});
    activity.OnRequestPermissionsResult(PERMISSION_REQUEST_CODE, [AccessFineLocation], [PERMISSION_GRANTED]);
    log := activity.events;
  }

  /**
   * "All granted" is taken over the whole batch: a denial of an unrelated
   * permission in the same answer also denies the pending geolocation question.
   */
  method UnrelatedDenialDeniesGeolocation(callback: CallbackId, origin: string) returns (log: seq<Event>)
    ensures log == [PermissionsRequested([AccessFineLocation], PERMISSION_REQUEST_CODE),
                    GeolocationAnswered(callback, origin, false, false)]
  {
    var activity := new MainActivity(None);
    activity.OnGeolocationPermissionsShowPrompt(origin, callback, {});
    assert !AllGranted([PERMISSION_GRANTED, PERMISSION_DENIED]) by {
      assert [PERMISSION_GRANTED, PERMISSION_DENIED][1] != PERMISSION_GRANTED;
    }
    activity.OnRequestPermissionsResult(PERMISSION_REQUEST_CODE, [AccessFineLocation, Camera],
                                        [PERMISSION_GRANTED, PERMISSION_DENIED]);
    log := activity.events;
  }

  /** An answer carrying another request code is ignored: the question stays pending. */
  method ForeignRequestCodeIgnored(callback: CallbackId, origin: string, requestCode: int) returns (log: seq<Event>, stillPending: bool)
    requires requestCode != PERMISSION_REQUEST_CODE
    ensures log == [PermissionsRequested([AccessFineLocation], PERMISSION_REQUEST_CODE)]
    ensures stillPending
  {
    var activity := new MainActivity(None);
    activity.OnGeolocationPermissionsShowPrompt(origin, callback, {});
    activity.OnRequestPermissionsResult(requestCode, [AccessFineLocation], [PERMISSION_GRANTED]);
    log := activity.events;
    stillPending := activity.geolocationCallback == Some(callback);
  }

  /**
   * A second web permission request replaces the pending one without denying
   * it; the grant that follows approves the second request with its own
   * resources, and the first is never answered.
   */
  method SecondWebRequestDropsFirst(sdk: int) returns (log: seq<Event>)
    ensures log == [PermissionsRequested(Backlog({}, sdk, Some([Camera])), PERMISSION_REQUEST_CODE),
                    PermissionsRequested(Backlog({}, sdk, Some([RecordAudio])), PERMISSION_REQUEST_CODE),
                    WebPermissionGranted(2, [RESOURCE_AUDIO_CAPTURE])]
  {
    SingleResourceNeeds(RESOURCE_VIDEO_CAPTURE);
    SingleResourceNeeds(RESOURCE_AUDIO_CAPTURE);
    assert NeededPermissions([RESOURCE_VIDEO_CAPTURE]) == [Camera];
    assert NeededPermissions([RESOURCE_AUDIO_CAPTURE]) == [RecordAudio];
    var first := PermissionsRequested(Backlog({}, sdk, Some([Camera])), PERMISSION_REQUEST_CODE);
    var second := PermissionsRequested(Backlog({}, sdk, Some([RecordAudio])), PERMISSION_REQUEST_CODE);
    var activity := new MainActivity(None);
    activity.OnPermissionRequest(WebPermissionRequest(1, [RESOURCE_VIDEO_CAPTURE]), {}, sdk);
    assert activity.events == [first];
    activity.OnPermissionRequest(WebPermissionRequest(2, [RESOURCE_AUDIO_CAPTURE]), {}, sdk);
    assert activity.events == [first, second];
    assert activity.currentPermissionRequest == Some(WebPermissionRequest(2, [RESOURCE_AUDIO_CAPTURE]));
    assert AllGranted([PERMISSION_GRANTED]);
    activity.OnRequestPermissionsResult(PERMISSION_REQUEST_CODE, [Camera], [PERMISSION_GRANTED]);
    log := activity.events;
  }

  /**
   * A web request whose permissions, like every ambient one, are already
   * granted is stored, but the sweep finds nothing to ask for and issues no
   * prompt. No result ever arrives, so the request is neither granted nor
   * denied and stays pending.
   */
  method SatisfiedWebRequestStaysPending(granted: set<Permission>, sdk: int) returns (log: seq<Event>, stillPending: bool)
    requires forall p: Permission :: p in granted
    ensures log == []
    ensures stillPending
  {
    SingleResourceNeeds(RESOURCE_VIDEO_CAPTURE);
    BacklogEmptyIff(granted, sdk, Some([Camera]));
    var request := WebPermissionRequest(1, [RESOURCE_VIDEO_CAPTURE]);
    var activity := new MainActivity(None);
    activity.OnPermissionRequest(request, granted, sdk);
    log := activity.events;
    stillPending := activity.currentPermissionRequest == Some(request);
  }

  /** A request for resources the app does not map (say, protected media) is denied with no prompt. */
  method UnmappedWebRequestDenied(resources: seq<string>, granted: set<Permission>, sdk: int) returns (log: seq<Event>)
    requires forall i :: 0 <= i < |resources| ==> resources[i] != RESOURCE_VIDEO_CAPTURE && resources[i] != RESOURCE_AUDIO_CAPTURE
    ensures log == [WebPermissionDenied(7)]
  {
    NeededPermissionsEmptyIff(resources);
    var activity := new MainActivity(None);
    activity.OnPermissionRequest(WebPermissionRequest(7, resources), granted, sdk);
    log := activity.events;
  }

  /**
   * The preference survives a restart: once a home page (not mentioning
   * login) has started loading, the next launch opens the home page.
   */
  method RelaunchAfterHomePage(url: string, granted: set<Permission>, sdk: int) returns (log: seq<Event>)
    requires LooksLoggedIn(url)
    ensures log == [UrlLoaded(HOME_URL)] + PromptFor(Backlog(granted, sdk, None))
  {
    var before := new MainActivity(None);
    before.OnPageStarted(url);
    var after := new MainActivity(before.lastUrl);
    after.OnCreate(true, granted, sdk);
    log := after.events;
  }

  /** Offline at start: no page is loaded, only the permission sweep runs. */
  method OfflineStartLoadsNothing(storedUrl: Option<string>, granted: set<Permission>, sdk: int) returns (log: seq<Event>)
    ensures log == PromptFor(Backlog(granted, sdk, None))
  {
    var activity := new MainActivity(storedUrl);
    activity.OnCreate(false, granted, sdk);
    log := activity.events;
  }
}

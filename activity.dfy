/**
 * The activity's pending-request bookkeeping: the last-URL preference, the
 * file-upload slots and the permission slots, with every call the activity
 * makes into the platform or the web page recorded in an event log.
 */
module Activity {
  import opened Options
  import opened Text
  import opened Navigation
  import opened Uploads
  import opened Permissions

  /** A `ValueCallback` or `GeolocationPermissions.Callback` handed in by the web view. */
  type CallbackId = nat

  /** A web page's `PermissionRequest`: its identity and the resources it asks for. */
  datatype WebPermissionRequest = WebPermissionRequest(id: nat, resources: seq<string>)

  /** A call the activity makes into the platform or back into the web page. */
  datatype Event =
    | UrlLoaded(url: string)                              // webView.loadUrl
    | ExternalViewStarted(url: string)                    // startActivity(ACTION_VIEW, url)
    | UploadDelivered(callback: CallbackId, uris: Option<seq<Uri>>)  // ValueCallback.onReceiveValue
    | ChooserLaunched(captures: seq<Capture>)             // fileChooserLauncher.launch
    | GeolocationAnswered(callback: CallbackId, origin: string, allow: bool, retain: bool)  // Callback.invoke
    | WebPermissionGranted(request: nat, resources: seq<string>)  // PermissionRequest.grant
    | WebPermissionDenied(request: nat)                   // PermissionRequest.deny
    | PermissionsRequested(permissions: seq<Permission>, requestCode: int)  // requestPermissions

  /** How many times the log shows the upload callback `callback` answered. */
  function Deliveries(log: seq<Event>, callback: CallbackId): nat
  {
    if log == [] then 0
    else (if log[0].UploadDelivered? && log[0].callback == callback then 1 else 0) + Deliveries(log[1..], callback)
  }

  lemma {:induction false} DeliveriesAppend(a: seq<Event>, b: seq<Event>, callback: CallbackId)
    ensures Deliveries(a + b, callback) == Deliveries(a, callback) + Deliveries(b, callback)
    decreases |a|
  {
    if a == [] {
      assert a + b == b;
    } else {
      assert (a + b)[1..] == a[1..] + b;
      DeliveriesAppend(a[1..], b, callback);
    }
  }

  /** A stretch of the log that answers no upload callback. */
  predicate AnswersNoUpload(log: seq<Event>)
  {
    forall k :: 0 <= k < |log| ==> !log[k].UploadDelivered?
  }

  lemma {:induction false} QuietLogDeliversNothing(log: seq<Event>, callback: CallbackId)
    requires AnswersNoUpload(log)
    ensures Deliveries(log, callback) == 0
    decreases |log|
  {
    if log != [] {
      assert forall k :: 0 <= k < |log[1..]| ==> log[1..][k] == log[k + 1];
      QuietLogDeliversNothing(log[1..], callback);
    }
  }

  /** Appending a stretch that answers no upload leaves every callback's count as it was. */
  lemma QuietAppend(a: seq<Event>, b: seq<Event>)
    requires AnswersNoUpload(b)
    ensures forall callback :: Deliveries(a + b, callback) == Deliveries(a, callback)
  {
    forall callback
      ensures Deliveries(a + b, callback) == Deliveries(a, callback)
    {
      DeliveriesAppend(a, b, callback);
      QuietLogDeliversNothing(b, callback);
    }
  }

  /** Appending one answer to `callback` adds one to its count and to no other. */
  lemma AnswerAppend(a: seq<Event>, callback: CallbackId, uris: Option<seq<Uri>>)
    ensures forall c :: Deliveries(a + [UploadDelivered(callback, uris)], c)
                        == Deliveries(a, c) + (if c == callback then 1 else 0)
  {
    forall c
      ensures Deliveries(a + [UploadDelivered(callback, uris)], c) == Deliveries(a, c) + (if c == callback then 1 else 0)
    {
      DeliveriesAppend(a, [UploadDelivered(callback, uris)], c);
    }
  }

  /** The prompt `checkAndRequestPermissions` issues for a backlog: none when it is empty. */
  function PromptFor(backlog: seq<Permission>): (r: seq<Event>)
    ensures r != [] <==> backlog != []
    ensures r != [] ==> r == [PermissionsRequested(backlog, PERMISSION_REQUEST_CODE)]
    ensures AnswersNoUpload(r)
  {
    if backlog == [] then [] else [PermissionsRequested(backlog, PERMISSION_REQUEST_CODE)]
  }

  /** The answer a batch result gives the pending geolocation question, if there is one. */
  function GeolocationAnswer(callback: Option<CallbackId>, origin: Option<string>, allGranted: bool): (r: seq<Event>)
    requires callback.Some? ==> origin.Some?
    ensures AnswersNoUpload(r) && |r| <= 1
    ensures callback.Some? <==> r != []
    ensures r != [] ==> r[0] == GeolocationAnswered(callback.value, origin.value, allGranted, false)
  {
    if callback.Some? then [GeolocationAnswered(callback.value, origin.value, allGranted, false)] else []
  }

  /** The answer a batch result gives the pending web permission request, if there is one. */
  function WebAnswer(request: Option<WebPermissionRequest>, allGranted: bool): (r: seq<Event>)
    ensures AnswersNoUpload(r) && |r| <= 1
    ensures request.Some? <==> r != []
    ensures r != [] && allGranted ==> r[0] == WebPermissionGranted(request.value.id, request.value.resources)
    ensures r != [] && !allGranted ==> r[0] == WebPermissionDenied(request.value.id)
  {
    if request.None? then []
    else if allGranted then [WebPermissionGranted(request.value.id, request.value.resources)]
    else [WebPermissionDenied(request.value.id)]
  }

  class MainActivity {
    /** The "last_url" entry of the "app_prefs" preferences (`None`: never written). */
    var lastUrl: Option<string>
    /** `mUploadMessage`: the page callback waiting for a file. */
    var uploadMessage: Option<CallbackId>
    /** `mCameraPhotoPath`: where the photo alternative writes its picture. */
    var cameraPhotoPath: Option<string>
    /** `requestedPermissions`: permissions queued by a web page's request. */
    var requestedPermissions: Option<seq<Permission>>
    /** `geolocationCallback` and `geolocationOrigin`: the geolocation question waiting for a prompt. */
    var geolocationCallback: Option<CallbackId>
    var geolocationOrigin: Option<string>
    /** `currentPermissionRequest`: the web permission request waiting for a prompt. */
    var currentPermissionRequest: Option<WebPermissionRequest>
    /** Every call made into the platform or the page, oldest first. */
    var events: seq<Event>
    /** Every upload callback installed so far, the pending one included. */
    ghost var installedUploads: set<CallbackId>

    /**
     * The slot invariant between two platform callbacks: the geolocation pair
     * is set and cleared together, a camera path only exists while an upload
     * is pending, the web-request queue has always been drained, a stored web
     * request needs some permission, the pending upload callback has been
     * answered zero times, every other installed upload callback exactly once,
     * and no callback that was never installed is ever answered.
     */
    ghost predicate Valid()
      reads this
    {
      && (geolocationCallback.Some? <==> geolocationOrigin.Some?)
      && (cameraPhotoPath.Some? ==> uploadMessage.Some?)
      && requestedPermissions.None?
      && (currentPermissionRequest.Some? ==> NeededPermissions(currentPermissionRequest.value.resources) != [])
      && (uploadMessage.Some? ==> uploadMessage.value in installedUploads)
      && (forall callback :: Deliveries(events, callback)
                             == if callback in installedUploads && uploadMessage != Some(callback) then 1 else 0)
    }

    /** A fresh activity over the persisted "last_url" preference. */
    constructor (storedUrl: Option<string>)
      ensures Valid()
      ensures lastUrl == storedUrl && events == []
      ensures uploadMessage.None? && cameraPhotoPath.None?
      ensures geolocationCallback.None? && geolocationOrigin.None? && currentPermissionRequest.None?
    {
      lastUrl := storedUrl;
      uploadMessage := None;
      cameraPhotoPath := None;
      requestedPermissions := None;
      geolocationCallback := None;
      geolocationOrigin := None;
      currentPermissionRequest := None;
      events := [];
      installedUploads := {};
    }

    /** `onCreate`, past the view set-up: load the start page when online, then sweep permissions. */
    method OnCreate(online: bool, granted: set<Permission>, sdk: int)
      requires Valid()
      modifies this`events, this`requestedPermissions
      ensures Valid()
      ensures events == old(events) + (if online then [UrlLoaded(InitialUrl(lastUrl))] else [])
                        + PromptFor(Backlog(granted, sdk, None))
    {
      if online {
        LoadInitialUrl();
      }
      CheckAndRequestPermissions(granted, sdk);
    }

    /** `loadInitialUrl`: load home or login according to the stored URL. */
    method LoadInitialUrl()
      requires Valid()
      modifies this`events
      ensures Valid()
      ensures events == old(events) + [UrlLoaded(InitialUrl(lastUrl))]
    {
      var lastKnownUrl := lastUrl.GetOr(BASE_URL + LOGIN_URL_PATH);
      if Contains(lastKnownUrl, HOME_URL_PATH) && !Contains(lastKnownUrl, LOGIN_URL_PATH) {
        events := events + [UrlLoaded(BASE_URL + HOME_URL_PATH)];
      } else {
        events := events + [UrlLoaded(BASE_URL + LOGIN_URL_PATH)];
      }
      QuietAppend(old(events), [UrlLoaded(InitialUrl(lastUrl))]);
    }

    /** The URL-store part of `onPageStarted`. */
    method OnPageStarted(url: string)
      requires Valid()
      modifies this`lastUrl
      ensures Valid()
      ensures lastUrl == AfterPageStarted(old(lastUrl), url)
    {
      if Contains(url, HOME_URL_PATH) || Contains(url, LOGIN_URL_PATH) {
        lastUrl := Some(url);
      }
    }

    /** `shouldOverrideUrlLoading`: hand tel:, mailto:, sms: and geo: URLs to another app. */
    method ShouldOverrideUrlLoading(url: string) returns (handled: bool)
      requires Valid()
      modifies this`events
      ensures Valid()
      ensures handled == IsExternalUrl(url)
      ensures events == old(events) + (if handled then [ExternalViewStarted(url)] else [])
    {
      if StartsWith(url, "tel:") || StartsWith(url, "mailto:") || StartsWith(url, "sms:") || StartsWith(url, "geo:") {
        events := events + [ExternalViewStarted(url)];
        QuietAppend(old(events), [ExternalViewStarted(url)]);
        return true;
      }
      return false;
    }

    /**
     * `onShowFileChooser`: cancel a pending upload with null, install the new
     * callback, build the capture alternatives and launch the chooser.
     */
    method OnShowFileChooser(filePathCallback: CallbackId, acceptTypes: Option<seq<string>>,
                             handlers: CaptureHandlers, photoFiles: nat -> Option<PhotoFile>)
      returns (handled: bool)
      requires Valid()
      requires filePathCallback !in installedUploads
      modifies this`uploadMessage, this`cameraPhotoPath, this`events, this`installedUploads
      ensures Valid()
      ensures handled
      ensures uploadMessage == Some(filePathCallback)
      ensures installedUploads == old(installedUploads) + {filePathCallback}
      ensures cameraPhotoPath == CameraPathAfter(acceptTypes, handlers, photoFiles, old(cameraPhotoPath))
      ensures events == old(events)
                        + (if old(uploadMessage).Some? then [UploadDelivered(old(uploadMessage).value, None)] else [])
                        + [ChooserLaunched(ChooserCaptures(acceptTypes, handlers, photoFiles))]
    {
      if uploadMessage.Some? {
        AnswerAppend(events, uploadMessage.value, None);
        events := events + [UploadDelivered(uploadMessage.value, None)];
      }
      ghost var cancelled := events;
      uploadMessage := Some(filePathCallback);
      installedUploads := installedUploads + {filePathCallback};

      var intentArray: seq<Capture> := [];
      if acceptTypes.Some? && |acceptTypes.value| > 0 {
        intentArray := AddCaptureAlternatives(acceptTypes.value, handlers, photoFiles);
      }

      QuietAppend(cancelled, [ChooserLaunched(intentArray)]);
      events := events + [ChooserLaunched(intentArray)];
      handled := true;
    }

    /**
     * The loop of `onShowFileChooser` over the accept types: collect the
     * capture alternatives and point `mCameraPhotoPath` at each photo file
     * created on the way.
     */
    method AddCaptureAlternatives(acceptTypes: seq<string>, handlers: CaptureHandlers, photoFiles: nat -> Option<PhotoFile>)
      returns (intentArray: seq<Capture>)
      modifies this`cameraPhotoPath
      ensures intentArray == Captures(acceptTypes, handlers, photoFiles)
      ensures cameraPhotoPath == CameraPathAfter(Some(acceptTypes), handlers, photoFiles, old(cameraPhotoPath))
    {
      intentArray := [];
      for i := 0 to |acceptTypes|
        invariant intentArray == Captures(acceptTypes[..i], handlers, photoFiles)
        invariant cameraPhotoPath == CameraPathAfter(Some(acceptTypes[..i]), handlers, photoFiles, old(cameraPhotoPath))
      {
        CapturesStep(acceptTypes, i, handlers, photoFiles);
        ghost var before := intentArray;
        var acceptType := acceptTypes[i];
        if StartsWith(acceptType, "image/") || acceptType == "*/*" {
          if handlers.camera {
            var photoFile := photoFiles(i);
            if photoFile.Some? {
              cameraPhotoPath := Some(photoFile.value.contentUri);
              intentArray := intentArray + [PhotoCapture(photoFile.value.fileUri)];
            }
          }
        }
        assert intentArray == WithPhoto(before, acceptTypes, i, handlers, photoFiles);
        ghost var withPhoto := intentArray;
        if StartsWith(acceptType, "video/") || acceptType == "*/*" {
          if handlers.video {
            intentArray := intentArray + [VideoCapture];
          }
        }
        assert intentArray == WithVideo(withPhoto, acceptType, handlers);
        if StartsWith(acceptType, "audio/") || acceptType == "*/*" {
          if handlers.audio {
            intentArray := intentArray + [AudioCapture];
          }
        }
      }
      assert acceptTypes[..|acceptTypes|] == acceptTypes;
    }

    /**
     * The file chooser's result callback: answer the pending upload once with
     * the URIs of the result, then clear both upload slots.
     */
    method OnFileChooserResult(result: ActivityResult)
      requires Valid()
      modifies this`uploadMessage, this`cameraPhotoPath, this`events
      ensures Valid()
      ensures old(uploadMessage).None? ==>
                events == old(events) && uploadMessage == old(uploadMessage) && cameraPhotoPath == old(cameraPhotoPath)
      ensures old(uploadMessage).Some? ==>
                && events == old(events) + [UploadDelivered(old(uploadMessage).value, ResultUris(result, old(cameraPhotoPath)))]
                && uploadMessage.None? && cameraPhotoPath.None?
    {
      if uploadMessage.None? {
        return;
      }
      var results: Option<seq<Uri>> := None;
      if result.resultCode == RESULT_OK {
        match result.data
        case None =>
          if cameraPhotoPath.Some? {
            results := Some([cameraPhotoPath.value]);
          }
        case Some(data) =>
          if data.dataString.Some? {
            results := Some([data.dataString.value]);
          } else if data.clipData.Some? {
            var items := data.clipData.value;
            var numSelectedFiles := |items|;
            var selected := new Uri[numSelectedFiles];
            for i := 0 to numSelectedFiles
              modifies selected
              invariant selected[..i] == items[..i]
            {
              selected[i] := items[i];
            }
            assert selected[..] == selected[..numSelectedFiles];
            assert items[..numSelectedFiles] == items;
            results := Some(selected[..]);
          }
      }
      AnswerAppend(events, uploadMessage.value, results);
      events := events + [UploadDelivered(uploadMessage.value, results)];
      uploadMessage := None;
      cameraPhotoPath := None;
    }

    /**
     * `onGeolocationPermissionsShowPrompt`: answer at once when fine location
     * is granted; otherwise remember (origin, callback), replacing any pending
     * pair without answering it, and prompt for fine location alone.
     */
    method OnGeolocationPermissionsShowPrompt(origin: string, callback: CallbackId, granted: set<Permission>)
      requires Valid()
      modifies this`geolocationCallback, this`geolocationOrigin, this`events
      ensures Valid()
      ensures AccessFineLocation in granted ==>
                && events == old(events) + [GeolocationAnswered(callback, origin, true, false)]
                && geolocationCallback == old(geolocationCallback) && geolocationOrigin == old(geolocationOrigin)
      ensures AccessFineLocation !in granted ==>
                && events == old(events) + [PermissionsRequested([AccessFineLocation], PERMISSION_REQUEST_CODE)]
                && geolocationCallback == Some(callback) && geolocationOrigin == Some(origin)
    {
      var permission := AccessFineLocation;
      if permission in granted {
        events := events + [GeolocationAnswered(callback, origin, true, false)];
        QuietAppend(old(events), [GeolocationAnswered(callback, origin, true, false)]);
      } else {
        geolocationOrigin := Some(origin);
        geolocationCallback := Some(callback);
        events := events + [PermissionsRequested([permission], PERMISSION_REQUEST_CODE)];
        QuietAppend(old(events), [PermissionsRequested([permission], PERMISSION_REQUEST_CODE)]);
      }
    }

    /**
     * `onPermissionRequest`: deny at once when no resource maps to a
     * permission; otherwise store the request (replacing any pending one
     * without answering it), queue its permissions and run the sweep.
     */
    method OnPermissionRequest(request: WebPermissionRequest, granted: set<Permission>, sdk: int)
      requires Valid()
      modifies this`currentPermissionRequest, this`requestedPermissions, this`events
      ensures Valid()
      ensures NeededPermissions(request.resources) == [] ==>
                && events == old(events) + [WebPermissionDenied(request.id)]
                && currentPermissionRequest == old(currentPermissionRequest)
      ensures NeededPermissions(request.resources) != [] ==>
                && events == old(events) + PromptFor(Backlog(granted, sdk, Some(NeededPermissions(request.resources))))
                && currentPermissionRequest == Some(request)
    {
      var neededPermissions := CollectNeededPermissions(request.resources);
      if neededPermissions != [] {
        currentPermissionRequest := Some(request);
        requestedPermissions := Some(neededPermissions);
        CheckAndRequestPermissions(granted, sdk);
      } else {
        events := events + [WebPermissionDenied(request.id)];
        QuietAppend(old(events), [WebPermissionDenied(request.id)]);
      }
    }

    /**
     * `checkAndRequestPermissions`: prompt once for the ungranted ambient
     * permissions followed by the ungranted queued ones, and drain the queue.
     */
    method CheckAndRequestPermissions(granted: set<Permission>, sdk: int)
      modifies this`requestedPermissions, this`events
      ensures requestedPermissions.None?
      ensures events == old(events) + PromptFor(Backlog(granted, sdk, old(requestedPermissions)))
      ensures forall callback :: Deliveries(events, callback) == Deliveries(old(events), callback)
    {
      var permissionsToRequest := CollectUngrantedAmbient(granted, sdk);
      ghost var ambient := permissionsToRequest;

      if requestedPermissions.Some? {
        var queued := requestedPermissions.value;
        for i := 0 to |queued|
          invariant permissionsToRequest == ambient + Ungranted(queued[..i], granted)
          invariant events == old(events)
        {
          assert queued[..i + 1] == queued[..i] + [queued[i]];
          UngrantedSnoc(queued[..i], queued[i], granted);
          if queued[i] !in granted {
            permissionsToRequest := permissionsToRequest + [queued[i]];
          }
        }
        assert queued[..|queued|] == queued;
        requestedPermissions := None;
      } else {
        assert ambient + [] == ambient;
      }

      assert permissionsToRequest == Backlog(granted, sdk, old(requestedPermissions));
      if permissionsToRequest != [] {
        events := events + [PermissionsRequested(permissionsToRequest, PERMISSION_REQUEST_CODE)];
      } else {
        assert old(events) + [] == old(events);
      }
      assert events == old(events) + PromptFor(permissionsToRequest);
      QuietAppend(old(events), PromptFor(permissionsToRequest));
    }

    /**
     * `onRequestPermissionsResult`: for this activity's request code, answer
     * the pending geolocation question and then the pending web request with
     * whether the whole batch was granted, and clear both slots.
     */
    method OnRequestPermissionsResult(requestCode: int, permissions: seq<Permission>, grantResults: seq<int>)
      requires Valid()
      modifies this`geolocationCallback, this`geolocationOrigin, this`currentPermissionRequest, this`events
      ensures Valid()
      ensures requestCode != PERMISSION_REQUEST_CODE ==>
                && events == old(events) && currentPermissionRequest == old(currentPermissionRequest)
                && geolocationCallback == old(geolocationCallback) && geolocationOrigin == old(geolocationOrigin)
      ensures requestCode == PERMISSION_REQUEST_CODE ==>
                && geolocationCallback.None? && geolocationOrigin.None? && currentPermissionRequest.None?
                && events == old(events)
                   + GeolocationAnswer(old(geolocationCallback), old(geolocationOrigin), AllGranted(grantResults))
                   + WebAnswer(old(currentPermissionRequest), AllGranted(grantResults))
    {
      if requestCode == PERMISSION_REQUEST_CODE {
        var allGranted := ComputeAllGranted(grantResults);
        ghost var geolocationAnswer := GeolocationAnswer(geolocationCallback, geolocationOrigin, allGranted);
        ghost var webAnswer := WebAnswer(currentPermissionRequest, allGranted);

        if allGranted {
          if geolocationCallback.Some? {
            events := events + [GeolocationAnswered(geolocationCallback.value, geolocationOrigin.value, true, false)];
            geolocationCallback := None;
            geolocationOrigin := None;
          }
          if currentPermissionRequest.Some? {
            var request := currentPermissionRequest.value;
            events := events + [WebPermissionGranted(request.id, request.resources)];
            currentPermissionRequest := None;
          }
        } else {
          if geolocationCallback.Some? {
            events := events + [GeolocationAnswered(geolocationCallback.value, geolocationOrigin.value, false, false)];
            geolocationCallback := None;
            geolocationOrigin := None;
          }
          if currentPermissionRequest.Some? {
            events := events + [WebPermissionDenied(currentPermissionRequest.value.id)];
            currentPermissionRequest := None;
          }
        }
        assert events == old(events) + geolocationAnswer + webAnswer;
        QuietAppend(old(events), geolocationAnswer);
        QuietAppend(old(events) + geolocationAnswer, webAnswer);
      }
    }
  }
}

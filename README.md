# PupChat web shell — a Dafny model of its activity

PupChat's Android app is a single activity, `MainActivity`, that wraps the
PupChat website (`https://pupchat.infy.uk`) in a web view. Besides showing
the site, the activity does four things this project models and proves:

- **Start page.** It remembers the last home or login page in the
  "last_url" preference and picks the start page from it on launch.
- **External URLs.** It hands `tel:`, `mailto:`, `sms:` and `geo:` links to
  other apps instead of loading them.
- **File uploads.** It mediates the web page's file requests. It builds a
  chooser with photo, video and audio capture alternatives, then answers
  the page's callback with the selected URIs. The callback is answered
  exactly once, or with null when the request is cancelled.
- **Permissions.** It coordinates runtime permissions for two kinds of page
  request, a geolocation question and a camera/microphone request.
  - A geolocation question that is not already allowed issues its own
    prompt, for fine location alone.
  - A camera/microphone request queues its permissions for the permission
    sweep. The sweep issues one batched prompt for every permission not yet
    granted, and only when there is at least one.
  - Every prompt uses the same request code. Its result answers every
    pending request: the geolocation question first, then the
    camera/microphone request, when both are pending.

The project has these modules:

- `Options` — an option type.
- `Text` — `startsWith` and `contains` on strings.
- `Navigation` — the start-page decision, the page-start write of
  "last_url", and scheme interception.
- `Permissions` — the resource-to-permission table, the permission sweep's
  backlog, and the "all granted" test.
- `Uploads` — the capture alternatives built for a list of accept types,
  and the URIs an activity result yields.
- `Activity` — the class `MainActivity`.
- `Scenarios` — short call sequences on a fresh activity, each with its
  exact outcome.

### The `MainActivity` class

The class holds the activity's mutable slots:

- the "last_url" preference;
- `mUploadMessage` and `mCameraPhotoPath`;
- `requestedPermissions`;
- `geolocationCallback` and `geolocationOrigin`;
- `currentPermissionRequest`.

Every call the activity makes into the platform or back into the page is
appended to an event log. These calls are `loadUrl`, starting an outside
activity, `onReceiveValue`, launching the chooser, the geolocation
`invoke`, `grant`, `deny` and `requestPermissions`. Each method's
postcondition gives the new slots and the exact events appended.

`MainActivity.Valid()` holds between any two platform callbacks. It says:

- the geolocation pair is set and cleared together;
- a camera path exists only while an upload is pending;
- the queue of web-requested permissions is always drained;
- a stored web request needs at least one permission;
- the pending upload callback has not been answered, every other upload
  callback installed so far has been answered exactly once, and no
  callback that was never installed is answered.

### How the platform is represented

- Platform objects are identified by numbers. This covers callbacks,
  permission requests and photo files.
- `checkSelfPermission` becomes the set of granted permissions.
- `Build.VERSION.SDK_INT` becomes an integer parameter.
- `resolveActivity` becomes one boolean per capture kind.
- `createImageFile` becomes an oracle, indexed by the accept type's
  position. For each accept type it gives the photo file created there, or
  none when creation failed.
- `isNetworkAvailable` becomes a boolean parameter of `OnCreate`.

The model follows `MainActivity.java` as written, including these
behaviours:

- **Geolocation question replaced.** A second geolocation question
  replaces the pending one without answering it. The same holds for a
  second camera/microphone request: it replaces the first without denying
  it.
- **Stale camera path.** Cancelling an upload by opening a new chooser
  does not clear `mCameraPhotoPath`. A camera path left by the first
  chooser can therefore answer the second upload.
- **Satisfied web request left pending.** A camera/microphone request
  is stored even when its permissions and all the ambient ones are
  already granted. The sweep then issues no prompt, so no result arrives.
  The request is never granted or denied and stays pending.
- **Unrelated batch results.** The batch result is "all granted" over the
  whole batch. It answers whatever is pending, even when the prompt was
  issued for something else.

The scenario methods show each of these outcomes.

## Model

| member | source | states |
|---|---|---|
| Text.ContainsIffOccurs | app/src/main/java/com/dealabs/pupchat/MainActivity.java:172 | `contains` holds exactly when the substring occurs at some position of the string |
| Navigation.InitialUrl | app/src/main/java/com/dealabs/pupchat/MainActivity.java:169-176 | the start page is always the home URL or the login URL |
| Navigation.InitialUrlIsHomeIff | app/src/main/java/com/dealabs/pupchat/MainActivity.java:169-176 | home is loaded iff a stored URL contains the home path and not the login path; login otherwise, including when nothing is stored |
| Navigation.AfterPageStarted | app/src/main/java/com/dealabs/pupchat/MainActivity.java:186-191 | a page start on a URL mentioning the home or login path overwrites the slot with that URL; any other URL leaves it unchanged |
| Navigation.HomeAndLoginDiffer | app/src/main/java/com/dealabs/pupchat/MainActivity.java:52-54 | the two start pages are different URLs |
| Navigation.HomePageStartedThenHome | app/src/main/java/com/dealabs/pupchat/MainActivity.java:172-191 | after a page start on a logged-in URL, the next launch opens home whatever was stored before |
| Navigation.LoginPageStartedThenLogin | app/src/main/java/com/dealabs/pupchat/MainActivity.java:172-191 | after a page start on any URL mentioning the login path, the next launch opens login |
| Navigation.HomeUrlRoundTrip | app/src/main/java/com/dealabs/pupchat/MainActivity.java:169-191 | visiting the home URL itself makes the next launch open home |
| Navigation.ListedSchemesIntercepted | app/src/main/java/com/dealabs/pupchat/MainActivity.java:225-228 | any URL starting with tel:, mailto:, sms: or geo: is handed over, whatever follows the scheme |
| Navigation.UnlistedSchemesNotIntercepted | app/src/main/java/com/dealabs/pupchat/MainActivity.java:225-230 | the test is a case-sensitive prefix match: intent:, file: and upper-case TEL: URLs stay in the web view |
| Navigation.WebUrlsNotExternal | app/src/main/java/com/dealabs/pupchat/MainActivity.java:225-230 | URLs starting with "http" are never intercepted and stay in the web view |
| Permissions.PermissionFor | app/src/main/java/com/dealabs/pupchat/MainActivity.java:318-322 | a resource maps to a permission iff it is video capture or audio capture, and the permission is camera or record-audio |
| Permissions.CollectNeededPermissions | app/src/main/java/com/dealabs/pupchat/MainActivity.java:315-324 | the loop collects exactly the table's permissions for the resources, in order; every entry is camera or record-audio |
| Permissions.NeededPermissionsMembers | app/src/main/java/com/dealabs/pupchat/MainActivity.java:316-324 | a permission is needed iff some resource maps to it; only camera and record-audio are ever needed |
| Permissions.SingleResourceNeeds | app/src/main/java/com/dealabs/pupchat/MainActivity.java:317-322 | a one-resource request needs exactly that resource's permission, or nothing |
| Permissions.NeededPermissionsEmptyIff | app/src/main/java/com/dealabs/pupchat/MainActivity.java:326-333 | nothing is needed, and the request is denied outright, iff no resource is video or audio capture |
| Permissions.AmbientPermissions | app/src/main/java/com/dealabs/pupchat/MainActivity.java:353-375 | media-location is among the swept permissions iff the SDK level is at least Q (29) |
| Permissions.AddUnlessGranted | app/src/main/java/com/dealabs/pupchat/MainActivity.java:354-356 | one check of the sweep lets the permission join the list iff it is not granted; nothing else joins or leaves |
| Permissions.AddUnlessGrantedAppends | app/src/main/java/com/dealabs/pupchat/MainActivity.java:354-356 | the check keeps the list as it was, in order, and appends the permission at its end, even when already listed, iff it is not granted |
| Permissions.UngrantedSnoc | app/src/main/java/com/dealabs/pupchat/MainActivity.java:380-384 | filtering one more queued permission is one more step of the per-permission check |
| Permissions.AmbientBacklogIsFiltered | app/src/main/java/com/dealabs/pupchat/MainActivity.java:353-375 | the sweep's seven checks are the ambient list filtered by "not granted", in the source's order |
| Permissions.CollectUngrantedAmbient | app/src/main/java/com/dealabs/pupchat/MainActivity.java:351-375 | the sweep yields the ambient backlog for the granted set and SDK level |
| Permissions.Backlog | app/src/main/java/com/dealabs/pupchat/MainActivity.java:350-386 | with nothing granted the prompt backlog is never empty |
| Permissions.UngrantedMembers | app/src/main/java/com/dealabs/pupchat/MainActivity.java:379-384 | a queued permission is re-requested iff it is queued and not granted; filtering never lengthens the queue |
| Permissions.NothingGrantedKeepsAll | app/src/main/java/com/dealabs/pupchat/MainActivity.java:379-384 | with nothing granted every queued permission is re-requested, in order |
| Permissions.BacklogMembers | app/src/main/java/com/dealabs/pupchat/MainActivity.java:350-386 | a permission is prompted for iff it is not granted and is ambient or queued |
| Permissions.BacklogEmptyIff | app/src/main/java/com/dealabs/pupchat/MainActivity.java:389-393 | no prompt is issued iff every ambient and every queued permission is already granted |
| Permissions.BacklogRepeatsQueuedCamera | app/src/main/java/com/dealabs/pupchat/MainActivity.java:373-384 | a queued camera permission that is not granted appears twice in the prompt: once from the sweep and once from the queue |
| Permissions.ComputeAllGranted | app/src/main/java/com/dealabs/pupchat/MainActivity.java:401-407 | the loop answers true iff every grant result equals PERMISSION_GRANTED (0); on false some result is a denial |
| Uploads.ChooserCaptures | app/src/main/java/com/dealabs/pupchat/MainActivity.java:250 | a null or empty accept-type list offers no capture alternative |
| Uploads.WithPhoto | app/src/main/java/com/dealabs/pupchat/MainActivity.java:252-269 | the photo check keeps the list as it was and appends exactly one photo alternative, writing to the created file's file URI, iff the type is image/ or */*, a camera app resolves and the file was created |
| Uploads.WithVideo | app/src/main/java/com/dealabs/pupchat/MainActivity.java:272-277 | the video check keeps the list and appends one video alternative, even when one is already listed, iff the type is video/ or */* and a camcorder app resolves |
| Uploads.WithAudio | app/src/main/java/com/dealabs/pupchat/MainActivity.java:278-283 | the audio check keeps the list and appends one audio alternative, even when one is already listed, iff the type is audio/ or */* and a recorder app resolves |
| Uploads.CapturesStep | app/src/main/java/com/dealabs/pupchat/MainActivity.java:251-284 | one more accept type appends its photo, video and audio alternatives and updates the last photo |
| Uploads.PhotoAtPrefix | app/src/main/java/com/dealabs/pupchat/MainActivity.java:252-269 | whether an accept type offers a photo does not depend on later types |
| Uploads.LastPhotoIffPhotoOffered | app/src/main/java/com/dealabs/pupchat/MainActivity.java:252-269 | a camera path is set iff some accept type is image/ or */*, the camera app resolves, and its photo file was created; equivalently, iff a photo alternative is offered |
| Uploads.PhotoOfferedIff | app/src/main/java/com/dealabs/pupchat/MainActivity.java:252-268 | a photo alternative writing to a URI is offered iff some accept type yields a photo and its created file has that file URI |
| Uploads.OnePhotoPerPosition | app/src/main/java/com/dealabs/pupchat/MainActivity.java:251-268 | the number of photo alternatives equals the number of accept types that yield a photo: one per such type |
| Uploads.LastPhotoIsLastCreated | app/src/main/java/com/dealabs/pupchat/MainActivity.java:261-266 | the camera path is the content URI of the photo file created for the last accept type that offered a photo |
| Uploads.VideoOfferedIff | app/src/main/java/com/dealabs/pupchat/MainActivity.java:272-277 | a video alternative is offered iff a camcorder app resolves and some accept type is video/ or */* |
| Uploads.AudioOfferedIff | app/src/main/java/com/dealabs/pupchat/MainActivity.java:278-283 | an audio alternative is offered iff a recorder app resolves and some accept type is audio/ or */* |
| Uploads.SingleImageTypeOffersOnePhoto | app/src/main/java/com/dealabs/pupchat/MainActivity.java:252-269 | "image/*" with a camera and a created file offers exactly one photo alternative, writing to that file's file URI |
| Uploads.WildcardOffersAll | app/src/main/java/com/dealabs/pupchat/MainActivity.java:252-283 | "*/*" with all three handlers offers photo, video and audio, in that order |
| Uploads.ResultUris | app/src/main/java/com/dealabs/pupchat/MainActivity.java:136-158 | a result that is not OK yields null. OK with no data yields the camera path, or null when there is none. A data string yields just that URI. Otherwise the clip items are returned, all of them and in order, or null |
| Uploads.ResultUrisProvenance | app/src/main/java/com/dealabs/pupchat/MainActivity.java:136-158 | every delivered URI comes from an OK result and is the camera path, the data string or a clip item |
| Activity.DeliveriesAppend | app/src/main/java/com/dealabs/pupchat/MainActivity.java:159 | a callback's answers add up over consecutive parts of the log |
| Activity.QuietAppend | app/src/main/java/com/dealabs/pupchat/MainActivity.java:159 | events other than upload answers leave every callback's answer count unchanged |
| Activity.AnswerAppend | app/src/main/java/com/dealabs/pupchat/MainActivity.java:159 | one `onReceiveValue` adds one answer to its own callback and none to any other |
| Activity.PromptFor | app/src/main/java/com/dealabs/pupchat/MainActivity.java:389-393 | a prompt with request code 1001 is issued iff the backlog is non-empty, and it carries the whole backlog |
| Activity.GeolocationAnswer | app/src/main/java/com/dealabs/pupchat/MainActivity.java:412-430 | a pending geolocation question gets exactly one answer, to the stored callback with the stored origin, allow = all granted and retain = false; none otherwise |
| Activity.WebAnswer | app/src/main/java/com/dealabs/pupchat/MainActivity.java:418-435 | a pending web request is granted its own resources when all are granted and denied otherwise; nothing happens when none is pending |
| Activity.MainActivity.constructor | app/src/main/java/com/dealabs/pupchat/MainActivity.java:61-71 | a new activity has every pending slot empty, an empty log and the stored "last_url" |
| Activity.MainActivity.OnCreate | app/src/main/java/com/dealabs/pupchat/MainActivity.java:88-95 | when online it loads the start page, then it prompts once for the ungranted ambient permissions |
| Activity.MainActivity.LoadInitialUrl | app/src/main/java/com/dealabs/pupchat/MainActivity.java:165-177 | it loads exactly the start page chosen from the stored URL |
| Activity.MainActivity.OnPageStarted | app/src/main/java/com/dealabs/pupchat/MainActivity.java:186-191 | the preference becomes the page-start result for the URL and nothing else changes |
| Activity.MainActivity.ShouldOverrideUrlLoading | app/src/main/java/com/dealabs/pupchat/MainActivity.java:222-231 | it returns true and starts an outside view iff the URL has an external scheme; otherwise it does nothing |
| Activity.MainActivity.OnShowFileChooser | app/src/main/java/com/dealabs/pupchat/MainActivity.java:237-294 | it answers a pending upload with null first, installs the new callback, and launches the chooser with the capture alternatives. It returns true; the replaced callback is answered exactly once, the new one not yet |
| Activity.MainActivity.AddCaptureAlternatives | app/src/main/java/com/dealabs/pupchat/MainActivity.java:250-285 | the accept-type loop builds exactly the capture list and leaves the camera path at the last photo created, or unchanged when no photo was created |
| Activity.MainActivity.OnFileChooserResult | app/src/main/java/com/dealabs/pupchat/MainActivity.java:133-162 | with nothing pending it does nothing. Otherwise it answers the pending callback once with the result's URIs and clears both upload slots |
| Activity.MainActivity.OnGeolocationPermissionsShowPrompt | app/src/main/java/com/dealabs/pupchat/MainActivity.java:298-310 | when fine location is granted it allows the origin at once without retaining. Otherwise it stores the pair, replacing any pending one, and prompts for fine location |
| Activity.MainActivity.OnPermissionRequest | app/src/main/java/com/dealabs/pupchat/MainActivity.java:314-334 | a request needing no permission is denied at once. Otherwise it is stored, replacing any pending one, and the sweep prompts for the ambient and queued backlog |
| Activity.MainActivity.CheckAndRequestPermissions | app/src/main/java/com/dealabs/pupchat/MainActivity.java:350-394 | it issues the prompt for the backlog (ungranted ambient, then ungranted queued) when that is non-empty, and empties the queue |
| Activity.MainActivity.OnRequestPermissionsResult | app/src/main/java/com/dealabs/pupchat/MainActivity.java:397-436 | a foreign request code changes nothing. Code 1001 answers geolocation, then the web request, with "all granted", and clears both slots |
| Scenarios.SecondUploadCancelsFirst | app/src/main/java/com/dealabs/pupchat/MainActivity.java:238-241 | a second chooser answers the first callback with null before the second gets the picked URI |
| Scenarios.CancelledChooserAnswersNull | app/src/main/java/com/dealabs/pupchat/MainActivity.java:136-161 | a cancelled chooser answers its callback with null |
| Scenarios.StaleCameraPathReachesNextUpload | app/src/main/java/com/dealabs/pupchat/MainActivity.java:238-269 | a photo path from a cancelled chooser is delivered to the next upload when that one returns with no data |
| Scenarios.SecondGeolocationPromptDropsFirst | app/src/main/java/com/dealabs/pupchat/MainActivity.java:306-307 | the first geolocation callback is never answered once a second question arrives |
| Scenarios.UnrelatedDenialDeniesGeolocation | app/src/main/java/com/dealabs/pupchat/MainActivity.java:409-430 | any denial in a batch denies the pending geolocation question |
| Scenarios.ForeignRequestCodeIgnored | app/src/main/java/com/dealabs/pupchat/MainActivity.java:400 | a result with another request code leaves the question pending and unanswered |
| Scenarios.SecondWebRequestDropsFirst | app/src/main/java/com/dealabs/pupchat/MainActivity.java:327 | only the second web request is answered by the batch result |
| Scenarios.SatisfiedWebRequestStaysPending | app/src/main/java/com/dealabs/pupchat/MainActivity.java:326-330 | with everything granted, a camera request is stored, no prompt is issued and the request stays pending unanswered |
| Scenarios.UnmappedWebRequestDenied | app/src/main/java/com/dealabs/pupchat/MainActivity.java:331-333 | a request for unmapped resources is denied without any prompt |
| Scenarios.RelaunchAfterHomePage | app/src/main/java/com/dealabs/pupchat/MainActivity.java:165-191 | after a logged-in page start, a new activity over the stored URL loads home |
| Scenarios.OfflineStartLoadsNothing | app/src/main/java/com/dealabs/pupchat/MainActivity.java:88-95 | offline, the start loads no page and only the permission prompt is issued |

## Left out

- Web view set-up, the swipe-refresh layout, the spinner, error texts, `onPageFinished`, `onReceivedError`, `onBackPressed` and `onConsoleMessage`: they are display and settings calls with no state the model tracks.
- `isNetworkAvailable` is not modelled; `OnCreate` takes its answer as a boolean.
- `createImageFile` is not modelled: time-stamped file names and the file system become an oracle that gives a photo file or none for each accept type.
- `Uri.parse`, `Uri.fromFile`, `FileProvider.getUriForFile` and `ClipData.getItemAt(i).getUri()` are treated as identities on URI strings.
- Toasts are left out, and so is the rationale dialog of `onRequestPermissionsResult` (lines 437-453), which is user interface. Its "Grant" button re-runs the sweep, and that sweep is `CheckAndRequestPermissions`. The `permissions` argument is used only by that dialog.
- `onPermissionRequestCanceled` only logs, so it is not modelled; in particular it does not clear the pending web request.
- Logging (`Log.d`, `Log.e`) is not modelled.
- `startActivity` is assumed to succeed: when no app handles the URL (for example a geo: link with no maps app), the platform throws `ActivityNotFoundException` out of `shouldOverrideUrlLoading`, while the model logs the external view and returns true.
- Activity.MainActivity.OnShowFileChooser: the web view hands a new callback object to each file request. The model states this as a precondition that the callback id was never installed before.
- Activity.MainActivity.AddCaptureAlternatives: the accept-type loop of `onShowFileChooser` is a separate method. It has the same branches in the same order, and the intents are reduced to the capture alternatives they stand for.
- Permissions.CollectUngrantedAmbient: the seven checks at the top of `checkAndRequestPermissions` are a separate method. It has the same checks in the same order.
- The requestCode of a prompt is always 1001; the platform's real prompt dialog and the order in which users answer it are not modelled, only the batch result handed back.

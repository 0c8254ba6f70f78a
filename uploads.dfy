/**
 * The pure side of the file-upload mediator: which capture alternatives the
 * chooser offers for a page's accept types, which of them fixes the camera
 * photo path, and which URIs a chooser result hands back to the page.
 */
module Uploads {
  import opened Options
  import opened Text

  /** A URI, kept as the string it was parsed from. */
  type Uri = string

  /** A temporary image file: its FileProvider content URI and its `file:` URI. */
  datatype PhotoFile = PhotoFile(contentUri: string, fileUri: string)

  /** An alternative offered next to "pick a file". */
  datatype Capture =
    | PhotoCapture(output: Uri)   // ACTION_IMAGE_CAPTURE writing to `output`
    | VideoCapture                // ACTION_VIDEO_CAPTURE
    | AudioCapture                // RECORD_SOUND_ACTION

  /** Which capture actions have a handler on the device (`resolveActivity != null`). */
  datatype CaptureHandlers = CaptureHandlers(camera: bool, video: bool, audio: bool)

  predicate IsImageType(acceptType: string) { StartsWith(acceptType, "image/") || acceptType == "*/*" }
  predicate IsVideoType(acceptType: string) { StartsWith(acceptType, "video/") || acceptType == "*/*" }
  predicate IsAudioType(acceptType: string) { StartsWith(acceptType, "audio/") || acceptType == "*/*" }

  /**
   * Whether the accept type at position `i` yields a photo alternative:
   * an image type, a camera handler, and `createImageFile` succeeding there
   * (`photoFiles(i)` is what that call returned, `None` for an IOException).
   */
  predicate PhotoAt(acceptTypes: seq<string>, i: nat, handlers: CaptureHandlers, photoFiles: nat -> Option<PhotoFile>)
    requires i < |acceptTypes|
  {
    IsImageType(acceptTypes[i]) && handlers.camera && photoFiles(i).Some?
  }

  /**
   * The photo check of one accept type: the list is kept and exactly one
   * photo alternative, writing to this position's file, is appended iff the
   * position yields a photo.
   */
  function WithPhoto(intents: seq<Capture>, acceptTypes: seq<string>, i: nat, handlers: CaptureHandlers,
                     photoFiles: nat -> Option<PhotoFile>): (r: seq<Capture>)
    requires i < |acceptTypes|
    ensures |r| == |intents| + (if PhotoAt(acceptTypes, i, handlers, photoFiles) then 1 else 0)
    ensures r[..|intents|] == intents
    ensures PhotoAt(acceptTypes, i, handlers, photoFiles) ==> r[|intents|] == PhotoCapture(photoFiles(i).value.fileUri)
    ensures forall c :: c in r <==> c in intents || (PhotoAt(acceptTypes, i, handlers, photoFiles) && c == PhotoCapture(photoFiles(i).value.fileUri))
  {
    if PhotoAt(acceptTypes, i, handlers, photoFiles) then intents + [PhotoCapture(photoFiles(i).value.fileUri)] else intents
  }

  /** The video check of one accept type: one video alternative is appended, even when already listed, iff it applies. */
  function WithVideo(intents: seq<Capture>, acceptType: string, handlers: CaptureHandlers): (r: seq<Capture>)
    ensures |r| == |intents| + (if IsVideoType(acceptType) && handlers.video then 1 else 0)
    ensures r[..|intents|] == intents
    ensures IsVideoType(acceptType) && handlers.video ==> r[|intents|] == VideoCapture
    ensures forall c :: c in r <==> c in intents || (IsVideoType(acceptType) && handlers.video && c == VideoCapture)
  {
    if IsVideoType(acceptType) && handlers.video then intents + [VideoCapture] else intents
  }

  /** The audio check of one accept type: one audio alternative is appended, even when already listed, iff it applies. */
  function WithAudio(intents: seq<Capture>, acceptType: string, handlers: CaptureHandlers): (r: seq<Capture>)
    ensures |r| == |intents| + (if IsAudioType(acceptType) && handlers.audio then 1 else 0)
    ensures r[..|intents|] == intents
    ensures IsAudioType(acceptType) && handlers.audio ==> r[|intents|] == AudioCapture
    ensures forall c :: c in r <==> c in intents || (IsAudioType(acceptType) && handlers.audio && c == AudioCapture)
  {
    if IsAudioType(acceptType) && handlers.audio then intents + [AudioCapture] else intents
  }

  /** One accept type's alternatives appended to `intents`: photo, then video, then audio. */
  function WithAlternativesFor(intents: seq<Capture>, acceptTypes: seq<string>, i: nat, handlers: CaptureHandlers,
                               photoFiles: nat -> Option<PhotoFile>): seq<Capture>
    requires i < |acceptTypes|
  {
    WithAudio(WithVideo(WithPhoto(intents, acceptTypes, i, handlers, photoFiles), acceptTypes[i], handlers), acceptTypes[i], handlers)
  }

  /** The chooser's `intentArray` for a list of accept types, in accept-type order. */
  function Captures(acceptTypes: seq<string>, handlers: CaptureHandlers, photoFiles: nat -> Option<PhotoFile>): seq<Capture>
  {
    if acceptTypes == [] then []
    else
      var n := |acceptTypes| - 1;
      WithAlternativesFor(Captures(acceptTypes[..n], handlers, photoFiles), acceptTypes, n, handlers, photoFiles)
  }

  /** The photo file of the last accept type that yielded a photo alternative, if any. */
  function LastPhoto(acceptTypes: seq<string>, handlers: CaptureHandlers, photoFiles: nat -> Option<PhotoFile>): Option<PhotoFile>
  {
    if acceptTypes == [] then None
    else
      var n := |acceptTypes| - 1;
      if PhotoAt(acceptTypes, n, handlers, photoFiles) then photoFiles(n)
      else LastPhoto(acceptTypes[..n], handlers, photoFiles)
  }

  /** The alternatives for `getAcceptTypes()`, which may be null. */
  function ChooserCaptures(acceptTypes: Option<seq<string>>, handlers: CaptureHandlers, photoFiles: nat -> Option<PhotoFile>): (r: seq<Capture>)
    ensures acceptTypes.None? || acceptTypes == Some([]) ==> r == []
  {
    match acceptTypes
    case Some(ts) => Captures(ts, handlers, photoFiles)
    case None => []
  }

  /** The last photo file of `getAcceptTypes()`, which may be null. */
  function ChooserLastPhoto(acceptTypes: Option<seq<string>>, handlers: CaptureHandlers, photoFiles: nat -> Option<PhotoFile>): Option<PhotoFile>
  {
    match acceptTypes
    case Some(ts) => LastPhoto(ts, handlers, photoFiles)
    case None => None
  }

  /**
   * `mCameraPhotoPath` after the chooser is built: the content URI of the last
   * photo file, or the path it held before when no photo alternative was added.
   */
  function CameraPathAfter(acceptTypes: Option<seq<string>>, handlers: CaptureHandlers,
                           photoFiles: nat -> Option<PhotoFile>, previous: Option<string>): Option<string>
  {
    match ChooserLastPhoto(acceptTypes, handlers, photoFiles)
    case Some(file) => Some(file.contentUri)
    case None => previous
  }

  /** Each prefix of accept types contributes its alternatives before the next type's. */
  lemma CapturesStep(acceptTypes: seq<string>, i: nat, handlers: CaptureHandlers, photoFiles: nat -> Option<PhotoFile>)
    requires i < |acceptTypes|
    ensures Captures(acceptTypes[..i + 1], handlers, photoFiles)
            == WithAlternativesFor(Captures(acceptTypes[..i], handlers, photoFiles), acceptTypes, i, handlers, photoFiles)
    ensures LastPhoto(acceptTypes[..i + 1], handlers, photoFiles)
            == if PhotoAt(acceptTypes, i, handlers, photoFiles) then photoFiles(i)
               else LastPhoto(acceptTypes[..i], handlers, photoFiles)
  {
    var p := acceptTypes[..i + 1];
    assert p[..i] == acceptTypes[..i];
    assert p[i] == acceptTypes[i];
    PhotoAtPrefix(acceptTypes, i + 1, i, handlers, photoFiles);
  }

  /** Looking at a prefix does not change what position `i` yields. */
  lemma PhotoAtPrefix(acceptTypes: seq<string>, k: nat, i: nat, handlers: CaptureHandlers, photoFiles: nat -> Option<PhotoFile>)
    requires i < k <= |acceptTypes|
    ensures PhotoAt(acceptTypes[..k], i, handlers, photoFiles) == PhotoAt(acceptTypes, i, handlers, photoFiles)
  {
    assert acceptTypes[..k][i] == acceptTypes[i];
  }

  /**
   * The camera photo path is set exactly when some accept type is an image
   * type (or any type) for which a camera app resolves and a photo file was
   * created, that is, exactly when a photo alternative is offered.
   */
  lemma {:induction false} LastPhotoIffPhotoOffered(acceptTypes: seq<string>, handlers: CaptureHandlers, photoFiles: nat -> Option<PhotoFile>)
    ensures LastPhoto(acceptTypes, handlers, photoFiles).Some? <==>
            exists i :: 0 <= i < |acceptTypes| && PhotoAt(acceptTypes, i, handlers, photoFiles)
    ensures LastPhoto(acceptTypes, handlers, photoFiles).Some? <==>
            exists c :: c in Captures(acceptTypes, handlers, photoFiles) && c.PhotoCapture?
    decreases |acceptTypes|
  {
    if acceptTypes != [] {
      var n := |acceptTypes| - 1;
      var prefix := acceptTypes[..n];
      LastPhotoIffPhotoOffered(prefix, handlers, photoFiles);
      var before := Captures(prefix, handlers, photoFiles);
      var withPhoto := WithPhoto(before, acceptTypes, n, handlers, photoFiles);
      var withVideo := WithVideo(withPhoto, acceptTypes[n], handlers);
      assert Captures(acceptTypes, handlers, photoFiles) == WithAudio(withVideo, acceptTypes[n], handlers);
      assert forall c: Capture :: c.PhotoCapture? ==> (c in Captures(acceptTypes, handlers, photoFiles) <==> c in withPhoto);
      if PhotoAt(acceptTypes, n, handlers, photoFiles) {
        assert PhotoCapture(photoFiles(n).value.fileUri) in withPhoto;
      } else {
        if LastPhoto(prefix, handlers, photoFiles).Some? {
          var i :| 0 <= i < |prefix| && PhotoAt(prefix, i, handlers, photoFiles);
          PhotoAtPrefix(acceptTypes, n, i, handlers, photoFiles);
        }
        if exists i :: 0 <= i < |acceptTypes| && PhotoAt(acceptTypes, i, handlers, photoFiles) {
          var i :| 0 <= i < |acceptTypes| && PhotoAt(acceptTypes, i, handlers, photoFiles);
          PhotoAtPrefix(acceptTypes, n, i, handlers, photoFiles);
        }
      }
    }
  }

  /**
   * When set, the camera photo path comes from the LAST accept type that
   * produced a photo alternative: earlier photo files are overwritten.
   */
  lemma {:induction false} LastPhotoIsLastCreated(acceptTypes: seq<string>, handlers: CaptureHandlers, photoFiles: nat -> Option<PhotoFile>)
    requires LastPhoto(acceptTypes, handlers, photoFiles).Some?
    ensures exists i :: 0 <= i < |acceptTypes| && PhotoAt(acceptTypes, i, handlers, photoFiles)
              && LastPhoto(acceptTypes, handlers, photoFiles) == photoFiles(i)
              && forall j :: i < j < |acceptTypes| ==> !PhotoAt(acceptTypes, j, handlers, photoFiles)
    decreases |acceptTypes|
  {
    var n := |acceptTypes| - 1;
    var prefix := acceptTypes[..n];
    if PhotoAt(acceptTypes, n, handlers, photoFiles) {
      assert LastPhoto(acceptTypes, handlers, photoFiles) == photoFiles(n);
    } else {
      LastPhotoIsLastCreated(prefix, handlers, photoFiles);
      var i :| 0 <= i < |prefix| && PhotoAt(prefix, i, handlers, photoFiles)
               && LastPhoto(prefix, handlers, photoFiles) == photoFiles(i)
               && forall j :: i < j < |prefix| ==> !PhotoAt(prefix, j, handlers, photoFiles);
      PhotoAtPrefix(acceptTypes, n, i, handlers, photoFiles);
      forall j | i < j < |acceptTypes|
        ensures !PhotoAt(acceptTypes, j, handlers, photoFiles)
      {
        if j < n {
          PhotoAtPrefix(acceptTypes, n, j, handlers, photoFiles);
        }
      }
    }
  }

  /**
   * Each accept type that yields a photo offers its own photo alternative,
   * writing to the file created for it, and no other photo alternative is
   * offered.
   */
  lemma {:induction false} PhotoOfferedIff(acceptTypes: seq<string>, handlers: CaptureHandlers,
                                            photoFiles: nat -> Option<PhotoFile>, output: Uri)
    ensures PhotoCapture(output) in Captures(acceptTypes, handlers, photoFiles) <==>
            exists i :: 0 <= i < |acceptTypes| && PhotoAt(acceptTypes, i, handlers, photoFiles)
                        && photoFiles(i).value.fileUri == output
    decreases |acceptTypes|
  {
    if acceptTypes != [] {
      var n := |acceptTypes| - 1;
      var prefix := acceptTypes[..n];
      PhotoOfferedIff(prefix, handlers, photoFiles, output);
      var before := Captures(prefix, handlers, photoFiles);
      var withPhoto := WithPhoto(before, acceptTypes, n, handlers, photoFiles);
      var withVideo := WithVideo(withPhoto, acceptTypes[n], handlers);
      assert Captures(acceptTypes, handlers, photoFiles) == WithAudio(withVideo, acceptTypes[n], handlers);
      assert PhotoCapture(output) in Captures(acceptTypes, handlers, photoFiles) <==> PhotoCapture(output) in withPhoto;
      if PhotoCapture(output) in before {
        var i :| 0 <= i < |prefix| && PhotoAt(prefix, i, handlers, photoFiles) && photoFiles(i).value.fileUri == output;
        PhotoAtPrefix(acceptTypes, n, i, handlers, photoFiles);
      }
      if exists i :: 0 <= i < |acceptTypes| && PhotoAt(acceptTypes, i, handlers, photoFiles)
                     && photoFiles(i).value.fileUri == output {
        var i :| 0 <= i < |acceptTypes| && PhotoAt(acceptTypes, i, handlers, photoFiles)
                 && photoFiles(i).value.fileUri == output;
        if i < n {
          PhotoAtPrefix(acceptTypes, n, i, handlers, photoFiles);
        }
      }
    }
  }

  /** How many photo alternatives a list holds. */
  function PhotoCount(intents: seq<Capture>): nat
  {
    if intents == [] then 0
    else PhotoCount(intents[..|intents| - 1]) + (if intents[|intents| - 1].PhotoCapture? then 1 else 0)
  }

  /** How many of the first `k` accept types yield a photo. */
  function PhotoPositions(acceptTypes: seq<string>, k: nat, handlers: CaptureHandlers, photoFiles: nat -> Option<PhotoFile>): nat
    requires k <= |acceptTypes|
  {
    if k == 0 then 0
    else PhotoPositions(acceptTypes, k - 1, handlers, photoFiles) + (if PhotoAt(acceptTypes, k - 1, handlers, photoFiles) then 1 else 0)
  }

  lemma PhotoCountSnoc(intents: seq<Capture>, c: Capture)
    ensures PhotoCount(intents + [c]) == PhotoCount(intents) + (if c.PhotoCapture? then 1 else 0)
  {
    assert (intents + [c])[..|intents|] == intents;
  }

  /**
   * One photo alternative per accept type that yields a photo: two image
   * types with a camera and two created files offer two photo alternatives.
   */
  lemma {:induction false} OnePhotoPerPosition(acceptTypes: seq<string>, k: nat, handlers: CaptureHandlers,
                                                photoFiles: nat -> Option<PhotoFile>)
    requires k <= |acceptTypes|
    ensures PhotoCount(Captures(acceptTypes[..k], handlers, photoFiles)) == PhotoPositions(acceptTypes, k, handlers, photoFiles)
    decreases k
  {
    if k == 0 {
      assert acceptTypes[..0] == [];
    } else {
      var i := k - 1;
      OnePhotoPerPosition(acceptTypes, i, handlers, photoFiles);
      CapturesStep(acceptTypes, i, handlers, photoFiles);
      var before := Captures(acceptTypes[..i], handlers, photoFiles);
      var withPhoto := WithPhoto(before, acceptTypes, i, handlers, photoFiles);
      var withVideo := WithVideo(withPhoto, acceptTypes[i], handlers);
      var withAudio := WithAudio(withVideo, acceptTypes[i], handlers);
      if PhotoAt(acceptTypes, i, handlers, photoFiles) {
        PhotoCountSnoc(before, PhotoCapture(photoFiles(i).value.fileUri));
      }
      if withVideo != withPhoto {
        PhotoCountSnoc(withPhoto, VideoCapture);
      }
      if withAudio != withVideo {
        PhotoCountSnoc(withVideo, AudioCapture);
      }
    }
  }

  /** A video alternative is offered exactly when a handler exists and some type asks for video. */
  lemma {:induction false} VideoOfferedIff(acceptTypes: seq<string>, handlers: CaptureHandlers, photoFiles: nat -> Option<PhotoFile>)
    ensures VideoCapture in Captures(acceptTypes, handlers, photoFiles) <==>
            handlers.video && exists i :: 0 <= i < |acceptTypes| && IsVideoType(acceptTypes[i])
    decreases |acceptTypes|
  {
    if acceptTypes != [] {
      var n := |acceptTypes| - 1;
      var prefix := acceptTypes[..n];
      VideoOfferedIff(prefix, handlers, photoFiles);
      var before := Captures(prefix, handlers, photoFiles);
      assert VideoCapture in Captures(acceptTypes, handlers, photoFiles)
             <==> VideoCapture in before || (IsVideoType(acceptTypes[n]) && handlers.video);
      if VideoCapture in before {
        var i :| 0 <= i < |prefix| && IsVideoType(prefix[i]);
        assert prefix[i] == acceptTypes[i];
      }
      if handlers.video && exists i :: 0 <= i < |acceptTypes| && IsVideoType(acceptTypes[i]) {
        var i :| 0 <= i < |acceptTypes| && IsVideoType(acceptTypes[i]);
        if i < n {
          assert prefix[i] == acceptTypes[i];
        }
      }
    }
  }

  /** An audio alternative is offered exactly when a handler exists and some type asks for audio. */
  lemma {:induction false} AudioOfferedIff(acceptTypes: seq<string>, handlers: CaptureHandlers, photoFiles: nat -> Option<PhotoFile>)
    ensures AudioCapture in Captures(acceptTypes, handlers, photoFiles) <==>
            handlers.audio && exists i :: 0 <= i < |acceptTypes| && IsAudioType(acceptTypes[i])
    decreases |acceptTypes|
  {
    if acceptTypes != [] {
      var n := |acceptTypes| - 1;
      var prefix := acceptTypes[..n];
      AudioOfferedIff(prefix, handlers, photoFiles);
      var before := Captures(prefix, handlers, photoFiles);
      assert AudioCapture in Captures(acceptTypes, handlers, photoFiles)
             <==> AudioCapture in before || (IsAudioType(acceptTypes[n]) && handlers.audio);
      if AudioCapture in before {
        var i :| 0 <= i < |prefix| && IsAudioType(prefix[i]);
        assert prefix[i] == acceptTypes[i];
      }
      if handlers.audio && exists i :: 0 <= i < |acceptTypes| && IsAudioType(acceptTypes[i]) {
        var i :| 0 <= i < |acceptTypes| && IsAudioType(acceptTypes[i]);
        if i < n {
          assert prefix[i] == acceptTypes[i];
        }
      }
    }
  }

  /** A page accepting only the type image/(any) on a device with a camera gets exactly one photo alternative. */
  lemma SingleImageTypeOffersOnePhoto(handlers: CaptureHandlers, photoFiles: nat -> Option<PhotoFile>)
    requires handlers.camera && photoFiles(0).Some?
    ensures Captures(["image/*"], handlers, photoFiles) == [PhotoCapture(photoFiles(0).value.fileUri)]
    ensures LastPhoto(["image/*"], handlers, photoFiles) == photoFiles(0)
  {
    assert !IsVideoType("image/*") by { assert "image/*"[0] != "video/"[0]; }
    assert !IsAudioType("image/*") by { assert "image/*"[0] != "audio/"[0]; }
    assert ["image/*"][..0] == [];
  }

  /** The wildcard type offers photo, video and audio, in that order, when all are available. */
  lemma WildcardOffersAll(photoFiles: nat -> Option<PhotoFile>)
    requires photoFiles(0).Some?
    ensures Captures(["*/*"], CaptureHandlers(true, true, true), photoFiles)
            == [PhotoCapture(photoFiles(0).value.fileUri), VideoCapture, AudioCapture]
  {
    assert ["*/*"][..0] == [];
  }

  // ----- the activity result -----

  /** `Activity.RESULT_OK`. */
  const RESULT_OK: int := -1

  /** The returned Intent: its data string and the URIs of its clip data, each possibly null. */
  datatype ResultData = ResultData(dataString: Option<string>, clipData: Option<seq<Uri>>)

  /** What the chooser activity returns. */
  datatype ActivityResult = ActivityResult(resultCode: int, data: Option<ResultData>)

  /** The `Uri[]` the result callback hands to the page; `None` is Java's null. */
  function ResultUris(result: ActivityResult, cameraPhotoPath: Option<string>): (r: Option<seq<Uri>>)
    ensures result.resultCode != RESULT_OK ==> r.None?
    ensures result.resultCode == RESULT_OK && result.data.None? ==>
            r == (if cameraPhotoPath.Some? then Some([cameraPhotoPath.value]) else None)
    ensures result.resultCode == RESULT_OK && result.data.Some? && result.data.value.dataString.Some? ==>
            r == Some([result.data.value.dataString.value])
    ensures result.resultCode == RESULT_OK && result.data.Some? && result.data.value.dataString.None? ==>
            r == result.data.value.clipData
  {
    if result.resultCode != RESULT_OK then None
    else match result.data
      case None => if cameraPhotoPath.Some? then Some([cameraPhotoPath.value]) else None
      case Some(data) =>
        if data.dataString.Some? then Some([data.dataString.value]) else data.clipData
  }

  /**
   * Every URI handed back comes from the result itself, or is the camera
   * photo path when the result carries no data at all.
   */
  lemma ResultUrisProvenance(result: ActivityResult, cameraPhotoPath: Option<string>, u: Uri)
    requires ResultUris(result, cameraPhotoPath).Some? && u in ResultUris(result, cameraPhotoPath).value
    ensures result.resultCode == RESULT_OK
    ensures result.data.None? ==> cameraPhotoPath == Some(u)
    ensures result.data.Some? ==>
            result.data.value.dataString == Some(u)
            || (result.data.value.dataString.None? && result.data.value.clipData.Some? && u in result.data.value.clipData.value)
  {
  }
}

/**
 * The pure side of the permission coordinator: which Android permissions a
 * web page's resource request needs, which permissions the next prompt asks
 * for, and whether a prompt's answer grants everything.
 */
module Permissions {
  import opened Options

  /** The Android runtime permissions the activity ever asks for. */
  datatype Permission =
    | ReadExternalStorage
    | WriteExternalStorage
    | AccessMediaLocation
    | RecordAudio
    | AccessFineLocation
    | AccessCoarseLocation
    | Camera

  /** The request code every prompt of the activity carries. */
  const PERMISSION_REQUEST_CODE: int := 1001
  /** `PackageManager.PERMISSION_GRANTED`; any other grant result is a denial. */
  const PERMISSION_GRANTED: int := 0
  const PERMISSION_DENIED: int := -1
  /** `Build.VERSION_CODES.Q`, from which ACCESS_MEDIA_LOCATION exists. */
  const SDK_Q: int := 29

  /** `PermissionRequest.RESOURCE_VIDEO_CAPTURE` and `RESOURCE_AUDIO_CAPTURE`. */
  const RESOURCE_VIDEO_CAPTURE: string := "android.webkit.resource.VIDEO_CAPTURE"
  const RESOURCE_AUDIO_CAPTURE: string := "android.webkit.resource.AUDIO_CAPTURE"

  /** The permission a web resource maps to; other resources map to nothing. */
  function PermissionFor(resource: string): (p: Option<Permission>)
    ensures p.Some? <==> resource == RESOURCE_VIDEO_CAPTURE || resource == RESOURCE_AUDIO_CAPTURE
    ensures p.Some? ==> p.value == Camera || p.value == RecordAudio
  {
    if resource == RESOURCE_VIDEO_CAPTURE then Some(Camera)
    else if resource == RESOURCE_AUDIO_CAPTURE then Some(RecordAudio)
    else None
  }

  /** The permissions `onPermissionRequest` collects for `resources`, in resource order. */
  function NeededPermissions(resources: seq<string>): seq<Permission>
  {
    if resources == [] then []
    else
      var n := |resources| - 1;
      NeededPermissions(resources[..n])
        + (match PermissionFor(resources[n]) case Some(p) => [p] case None => [])
  }

  /** The loop of `onPermissionRequest` that builds `neededPermissions`. */
  method CollectNeededPermissions(resources: seq<string>) returns (needed: seq<Permission>)
    ensures needed == NeededPermissions(resources)
    ensures forall k :: 0 <= k < |needed| ==> needed[k] == Camera || needed[k] == RecordAudio
  {
    needed := [];
    for i := 0 to |resources|
      invariant needed == NeededPermissions(resources[..i])
      invariant forall k :: 0 <= k < |needed| ==> needed[k] == Camera || needed[k] == RecordAudio
    {
      assert resources[..i + 1][..i] == resources[..i];
      if resources[i] == RESOURCE_VIDEO_CAPTURE {
        needed := needed + [Camera];
      } else if resources[i] == RESOURCE_AUDIO_CAPTURE {
        needed := needed + [RecordAudio];
      }
    }
    assert resources[..|resources|] == resources;
  }

  /**
   * A permission is needed exactly when some resource maps to it, and only
   * camera and microphone are ever needed.
   */
  lemma {:induction false} NeededPermissionsMembers(resources: seq<string>, p: Permission)
    ensures p in NeededPermissions(resources) <==>
            exists i :: 0 <= i < |resources| && PermissionFor(resources[i]) == Some(p)
    ensures p in NeededPermissions(resources) ==> p == Camera || p == RecordAudio
    decreases |resources|
  {
    if resources != [] {
      var n := |resources| - 1;
      var front := resources[..n];
      var last := match PermissionFor(resources[n]) case Some(q) => [q] case None => [];
      NeededPermissionsMembers(front, p);
      assert NeededPermissions(resources) == NeededPermissions(front) + last;
      if p in NeededPermissions(resources) {
        if p in NeededPermissions(front) {
          var i :| 0 <= i < n && PermissionFor(front[i]) == Some(p);
          assert front[i] == resources[i];
        } else {
          assert PermissionFor(resources[n]) == Some(p);
        }
      }
      if exists i :: 0 <= i < |resources| && PermissionFor(resources[i]) == Some(p) {
        var i :| 0 <= i < |resources| && PermissionFor(resources[i]) == Some(p);
        if i < n {
          assert front[i] == resources[i];
        }
      }
    }
  }

  /** A request for one resource needs that resource's permission, if it has one. */
  lemma SingleResourceNeeds(resource: string)
    ensures NeededPermissions([resource]) == match PermissionFor(resource) case Some(p) => [p] case None => []
  {
    assert [resource][..0] == [];
  }

  /** The request is denied on the spot exactly when no resource is camera or microphone capture. */
  lemma {:induction false} NeededPermissionsEmptyIff(resources: seq<string>)
    ensures NeededPermissions(resources) == [] <==>
            forall i :: 0 <= i < |resources| ==> PermissionFor(resources[i]).None?
    decreases |resources|
  {
    if resources != [] {
      var n := |resources| - 1;
      NeededPermissionsEmptyIff(resources[..n]);
      assert forall i :: 0 <= i < n ==> resources[..n][i] == resources[i];
    }
  }

  /** The ambient permissions `checkAndRequestPermissions` considers, in the order it checks them. */
  function AmbientPermissions(sdk: int): (ps: seq<Permission>)
    ensures AccessMediaLocation in ps <==> sdk >= SDK_Q
  {
    [ReadExternalStorage, WriteExternalStorage]
      + (if sdk >= SDK_Q then [AccessMediaLocation] else [])
      + [RecordAudio, AccessFineLocation, AccessCoarseLocation, Camera]
  }

  /**
   * One `if (checkSelfPermission(p) != GRANTED) list.add(p)` step: `p` joins
   * the list iff it is not granted, and nothing else joins or leaves.
   */
  function AddUnlessGranted(ps: seq<Permission>, p: Permission, granted: set<Permission>): (r: seq<Permission>)
    ensures forall q :: q in r <==> q in ps || (q == p && p !in granted)
  {
    if p in granted then ps else ps + [p]
  }

  /**
   * The check step appends: the list is kept as it was, in order, and `p` is
   * added at its end, even when already listed, iff it is not granted.
   */
  lemma AddUnlessGrantedAppends(ps: seq<Permission>, p: Permission, granted: set<Permission>)
    ensures var r := AddUnlessGranted(ps, p, granted);
            && |r| == |ps| + (if p in granted then 0 else 1)
            && r[..|ps|] == ps
            && (p !in granted ==> r[|ps|] == p)
  {
  }

  /** The permissions of `ps` not yet granted, keeping their order and repetitions. */
  function Ungranted(ps: seq<Permission>, granted: set<Permission>): seq<Permission>
  {
    if ps == [] then []
    else
      var n := |ps| - 1;
      AddUnlessGranted(Ungranted(ps[..n], granted), ps[n], granted)
  }

  /** Filtering a list extended by one permission is one more check step. */
  lemma UngrantedSnoc(ps: seq<Permission>, p: Permission, granted: set<Permission>)
    ensures Ungranted(ps + [p], granted) == AddUnlessGranted(Ungranted(ps, granted), p, granted)
  {
    assert (ps + [p])[..|ps|] == ps;
  }

  /** The ungranted ambient permissions, checked one after the other in a fixed order. */
  function AmbientBacklog(granted: set<Permission>, sdk: int): seq<Permission>
  {
    var ps := AddUnlessGranted([], ReadExternalStorage, granted);
    var ps := AddUnlessGranted(ps, WriteExternalStorage, granted);
    var ps := if sdk >= SDK_Q then AddUnlessGranted(ps, AccessMediaLocation, granted) else ps;
    var ps := AddUnlessGranted(ps, RecordAudio, granted);
    var ps := AddUnlessGranted(ps, AccessFineLocation, granted);
    var ps := AddUnlessGranted(ps, AccessCoarseLocation, granted);
    AddUnlessGranted(ps, Camera, granted)
  }

  /** The ambient backlog is the ambient list filtered by the grants, order kept. */
  lemma AmbientBacklogIsFiltered(granted: set<Permission>, sdk: int)
    ensures AmbientBacklog(granted, sdk) == Ungranted(AmbientPermissions(sdk), granted)
  {
    var checked: seq<Permission> := [];
    UngrantedSnoc(checked, ReadExternalStorage, granted);
    checked := checked + [ReadExternalStorage];
    UngrantedSnoc(checked, WriteExternalStorage, granted);
    checked := checked + [WriteExternalStorage];
    if sdk >= SDK_Q {
      UngrantedSnoc(checked, AccessMediaLocation, granted);
      checked := checked + [AccessMediaLocation];
    }
    UngrantedSnoc(checked, RecordAudio, granted);
    checked := checked + [RecordAudio];
    UngrantedSnoc(checked, AccessFineLocation, granted);
    checked := checked + [AccessFineLocation];
    UngrantedSnoc(checked, AccessCoarseLocation, granted);
    checked := checked + [AccessCoarseLocation];
    UngrantedSnoc(checked, Camera, granted);
    checked := checked + [Camera];
    assert checked == AmbientPermissions(sdk);
  }

  /**
   * The first half of `checkAndRequestPermissions`: one check per ambient
   * permission, in a fixed order, media location only from Android Q.
   */
  method CollectUngrantedAmbient(granted: set<Permission>, sdk: int) returns (permissionsToRequest: seq<Permission>)
    ensures permissionsToRequest == AmbientBacklog(granted, sdk)
  {
    permissionsToRequest := [];
    if ReadExternalStorage !in granted {
      permissionsToRequest := permissionsToRequest + [ReadExternalStorage];
    }
    if WriteExternalStorage !in granted {
      permissionsToRequest := permissionsToRequest + [WriteExternalStorage];
    }
    if sdk >= SDK_Q && AccessMediaLocation !in granted {
      permissionsToRequest := permissionsToRequest + [AccessMediaLocation];
    }
    if RecordAudio !in granted {
      permissionsToRequest := permissionsToRequest + [RecordAudio];
    }
    if AccessFineLocation !in granted {
      permissionsToRequest := permissionsToRequest + [AccessFineLocation];
    }
    if AccessCoarseLocation !in granted {
      permissionsToRequest := permissionsToRequest + [AccessCoarseLocation];
    }
    if Camera !in granted {
      permissionsToRequest := permissionsToRequest + [Camera];
    }
  }

  /**
   * The permissions the next prompt asks for: the ungranted ambient ones,
   * then the ungranted ones queued by a web page's request.
   */
  function Backlog(granted: set<Permission>, sdk: int, queued: Option<seq<Permission>>): (r: seq<Permission>)
    ensures granted == {} ==> r != []
  {
    AmbientBacklog(granted, sdk)
      + (match queued case Some(q) => Ungranted(q, granted) case None => [])
  }

  /** Filtering keeps exactly the ungranted members, and never adds any. */
  lemma {:induction false} UngrantedMembers(ps: seq<Permission>, granted: set<Permission>, p: Permission)
    ensures p in Ungranted(ps, granted) <==> p in ps && p !in granted
    ensures |Ungranted(ps, granted)| <= |ps|
    decreases |ps|
  {
    if ps != [] {
      var n := |ps| - 1;
      UngrantedMembers(ps[..n], granted, p);
      assert ps == ps[..n] + [ps[n]];
    }
  }

  /**
   * A permission is in the backlog exactly when it is not granted and is
   * either ambient (media location only from Android Q) or queued.
   */
  lemma BacklogMembers(granted: set<Permission>, sdk: int, queued: Option<seq<Permission>>, p: Permission)
    ensures p in Backlog(granted, sdk, queued) <==>
            p !in granted && (p in AmbientPermissions(sdk) || (queued.Some? && p in queued.value))
  {
    AmbientBacklogIsFiltered(granted, sdk);
    UngrantedMembers(AmbientPermissions(sdk), granted, p);
    if queued.Some? {
      UngrantedMembers(queued.value, granted, p);
    }
  }

  /** No prompt is needed exactly when every ambient and queued permission is granted. */
  lemma BacklogEmptyIff(granted: set<Permission>, sdk: int, queued: Option<seq<Permission>>)
    ensures Backlog(granted, sdk, queued) == [] <==>
            (forall p :: p in AmbientPermissions(sdk) ==> p in granted) &&
            (queued.Some? ==> forall p :: p in queued.value ==> p in granted)
  {
    var b := Backlog(granted, sdk, queued);
    forall p ensures p in b <==> p !in granted && (p in AmbientPermissions(sdk) || (queued.Some? && p in queued.value)) {
      BacklogMembers(granted, sdk, queued, p);
    }
    if b != [] {
      assert b[0] in b;
    }
  }

  /**
   * The backlog is a list, not a set: with nothing granted, a queued camera
   * permission is asked for a second time after the ambient one.
   */
  lemma BacklogRepeatsQueuedCamera(sdk: int)
    ensures var b := Backlog({}, sdk, Some([Camera]));
            |b| >= 2 && b[|b| - 2] == Camera && b[|b| - 1] == Camera
  {
    NothingGrantedKeepsAll([Camera]);
  }

  /** With nothing granted, the filter keeps the whole list. */
  lemma {:induction false} NothingGrantedKeepsAll(ps: seq<Permission>)
    ensures Ungranted(ps, {}) == ps
    decreases |ps|
  {
    if ps != [] {
      var n := |ps| - 1;
      NothingGrantedKeepsAll(ps[..n]);
      assert ps == ps[..n] + [ps[n]];
    }
  }

  /** Whether every entry of a grant-result array is PERMISSION_GRANTED (vacuously so when empty). */
  predicate AllGranted(grantResults: seq<int>)
  {
    forall i :: 0 <= i < |grantResults| ==> grantResults[i] == PERMISSION_GRANTED
  }

  /** The `allGranted` loop of `onRequestPermissionsResult`, which stops at the first denial. */
  method ComputeAllGranted(grantResults: seq<int>) returns (allGranted: bool)
    ensures allGranted <==> forall i :: 0 <= i < |grantResults| ==> grantResults[i] == PERMISSION_GRANTED
    ensures !allGranted ==> exists i :: 0 <= i < |grantResults| && grantResults[i] != PERMISSION_GRANTED
  {
    allGranted := true;
    var i := 0;
    while i < |grantResults|
      invariant 0 <= i <= |grantResults|
      invariant allGranted
      invariant forall k :: 0 <= k < i ==> grantResults[k] == PERMISSION_GRANTED
    {
      if grantResults[i] != PERMISSION_GRANTED {
        allGranted := false;
        break;
      }
      i := i + 1;
    }
  }
}

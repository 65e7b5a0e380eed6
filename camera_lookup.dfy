/**
 * Finding a scene camera by name: the first camera, in the engine's
 * enumeration order, whose name equals the requested one exactly.
 */
module CameraLookup {
  import opened Host

  /** The first camera of `cameras` called `name`, or None when there is none. */
  function FirstNamed(cameras: seq<Camera>, name: string): (r: Option<Camera>)
    ensures r.Some? ==> r.value.name == name && r.value in cameras
  {
    if |cameras| == 0 then None
    else if cameras[0].name == name then Some(cameras[0])
    else FirstNamed(cameras[1..], name)
  }

  /** No camera is found exactly when no camera carries the name. */
  lemma {:induction false} FirstNamedNone(cameras: seq<Camera>, name: string)
    ensures FirstNamed(cameras, name).None? <==> forall k :: 0 <= k < |cameras| ==> cameras[k].name != name
  {
    if |cameras| > 0 && cameras[0].name != name {
      FirstNamedNone(cameras[1..], name);
      assert forall k :: 1 <= k < |cameras| ==> cameras[k] == cameras[1..][k - 1];
    }
  }

  /** A camera called `name` with no such camera before it is the one found. */
  lemma {:induction false} FirstNamedAt(cameras: seq<Camera>, name: string, k: nat)
    requires k < |cameras| && cameras[k].name == name
    requires forall j :: 0 <= j < k ==> cameras[j].name != name
    ensures FirstNamed(cameras, name) == Some(cameras[k])
  {
    if k > 0 {
      assert cameras[1..][k - 1] == cameras[k];
      assert forall j :: 0 <= j < k - 1 ==> cameras[1..][j] == cameras[j + 1];
      FirstNamedAt(cameras[1..], name, k - 1);
    }
  }

  /**
   * A camera with another name, added anywhere in the enumeration, does not
   * change which camera is found.
   */
  lemma {:induction false} FirstNamedIgnoresOtherNames(cameras: seq<Camera>, k: nat, extra: Camera, name: string)
    requires k <= |cameras| && extra.name != name
    ensures FirstNamed(cameras[..k] + [extra] + cameras[k..], name) == FirstNamed(cameras, name)
  {
    var grown := cameras[..k] + [extra] + cameras[k..];
    if k == 0 {
      assert grown[1..] == cameras;
    } else if cameras[0].name != name {
      assert grown[0] == cameras[0];
      assert grown[1..] == cameras[1..][..k - 1] + [extra] + cameras[1..][k - 1..];
      FirstNamedIgnoresOtherNames(cameras[1..], k - 1, extra, name);
    } else {
      assert grown[0] == cameras[0];
    }
  }

  /**
   * Linear search over the scene's cameras with an early return on the first
   * exact name match.
   */
  method FindCamera(allCameras: seq<Camera>, name: string) returns (r: Option<Camera>)
    ensures r == FirstNamed(allCameras, name)
    ensures r.None? <==> forall k :: 0 <= k < |allCameras| ==> allCameras[k].name != name
  {
    FirstNamedNone(allCameras, name);
    for i := 0 to |allCameras|
      invariant FirstNamed(allCameras[i..], name) == FirstNamed(allCameras, name)
    {
      assert allCameras[i..][0] == allCameras[i];
      assert allCameras[i..][1..] == allCameras[i + 1..];
      if allCameras[i].name == name {
        return Some(allCameras[i]);
      }
    }
    return None;
  }
}

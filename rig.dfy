/**
 * What the camera rig's operations do to its six slots and which engine
 * calls they make, stated as functions of the slots before the operation.
 */
module Rig {
  import opened Host
  import opened CameraLookup
  import opened Styles

  /** The scene cameras the rig clones, one per slot, in slot order. */
  const GAME_CAMERAS: seq<string> :=
    ["GalaxyCamera", "Camera ScaledSpace", "Camera 01", "Camera 00", "Camera VE Underlay", "Camera VE Overlay"]

  /** The prefix of the name of the game object that carries a rig camera. */
  const RIG_PREFIX: string := "Kasselblad-"

  /** How many slots, counted from slot 0, the power switch turns on and off. */
  const TOGGLED_SLOTS: nat := 3

  /** The slots that ride along with the rig's position each frame. */
  predicate IsPrimarySlot(i: int)
  {
    i == 2 || i == 3
  }

  /** The label of the power switch button. */
  function LabelFor(on: bool): string
  {
    if on then "Switch Off" else "Switch On"
  }

  /** A rig with every slot empty, as a new module holds it. */
  function EmptyRig(): seq<Option<Camera>>
  {
    seq(|GAME_CAMERAS|, _ => None)
  }

  // ---------------------------------------------------------------- setup

  /** The rig camera cloned from `existing` for slot `i`. */
  function RigCamera(existing: Camera, i: nat, fov: real, tex: RenderTexture?, enabled: bool): Camera
    requires i < |GAME_CAMERAS|
  {
    CopyFrom(existing, RIG_PREFIX + GAME_CAMERAS[i]).(fieldOfView := fov, targetTexture := tex, enabled := enabled)
  }

  /**
   * Slot `i` after it is set up: a clone of the first scene camera with the
   * slot's name, or, when there is none, whatever the slot held before.
   */
  function SetupSlot(scene: seq<Camera>, i: nat, fov: real, tex: RenderTexture?, enabled: bool, prev: Option<Camera>): Option<Camera>
    requires i < |GAME_CAMERAS|
  {
    match FirstNamed(scene, GAME_CAMERAS[i])
    case None => prev
    case Some(existing) => Some(RigCamera(existing, i, fov, tex, enabled))
  }

  /** The whole rig after every slot is set up in turn. */
  function RigSlots(scene: seq<Camera>, fov: real, tex: RenderTexture?, enabled: bool, prev: seq<Option<Camera>>): seq<Option<Camera>>
    requires |prev| == |GAME_CAMERAS|
  {
    seq(|GAME_CAMERAS|, i requires 0 <= i < |GAME_CAMERAS| => SetupSlot(scene, i, fov, tex, enabled, prev[i]))
  }

  /**
   * Set up from an empty rig, the rig has one slot per source name, a slot
   * stays empty exactly when the scene has no camera of that name, and every
   * filled slot carries the rig's name, field of view, texture and enabled flag.
   */
  lemma RigInitialised(scene: seq<Camera>, fov: real, tex: RenderTexture?, enabled: bool)
    ensures |RigSlots(scene, fov, tex, enabled, EmptyRig())| == |GAME_CAMERAS|
    ensures forall i :: 0 <= i < |GAME_CAMERAS| ==>
      (RigSlots(scene, fov, tex, enabled, EmptyRig())[i].None? <==>
       forall k :: 0 <= k < |scene| ==> scene[k].name != GAME_CAMERAS[i])
    ensures forall i :: 0 <= i < |GAME_CAMERAS| && RigSlots(scene, fov, tex, enabled, EmptyRig())[i].Some? ==>
      var c := RigSlots(scene, fov, tex, enabled, EmptyRig())[i].value;
      c.name == RIG_PREFIX + GAME_CAMERAS[i] && c.fieldOfView == fov && c.targetTexture == tex && c.enabled == enabled
  {
    forall i | 0 <= i < |GAME_CAMERAS|
      ensures RigSlots(scene, fov, tex, enabled, EmptyRig())[i].None? <==>
              forall k :: 0 <= k < |scene| ==> scene[k].name != GAME_CAMERAS[i]
    {
      FirstNamedNone(scene, GAME_CAMERAS[i]);
    }
  }

  /**
   * A filled slot clones the first scene camera with the slot's name: its
   * settings and transform are that camera's.
   */
  lemma RigSlotCopiesFirstMatch(scene: seq<Camera>, fov: real, tex: RenderTexture?, enabled: bool,
                                prev: seq<Option<Camera>>, i: nat, k: nat)
    requires |prev| == |GAME_CAMERAS| && i < |GAME_CAMERAS|
    requires k < |scene| && scene[k].name == GAME_CAMERAS[i]
    requires forall j :: 0 <= j < k ==> scene[j].name != GAME_CAMERAS[i]
    ensures RigSlots(scene, fov, tex, enabled, prev)[i].Some?
    ensures var c := RigSlots(scene, fov, tex, enabled, prev)[i].value;
      c.settings == scene[k].settings && c.position == scene[k].position && c.orientation == scene[k].orientation
  {
    FirstNamedAt(scene, GAME_CAMERAS[i], k);
  }

  /**
   * No rig camera's name is a source name, so rig cameras that appear in the
   * scene while the rig is being set up cannot be picked as sources.
   */
  lemma RigNamesAreNotSourceNames(i: nat, j: nat)
    requires i < |GAME_CAMERAS| && j < |GAME_CAMERAS|
    ensures RIG_PREFIX + GAME_CAMERAS[i] != GAME_CAMERAS[j]
  {
    assert (RIG_PREFIX + GAME_CAMERAS[i])[0] == 'K';
  }

  // ---------------------------------------------------------------- power switch

  /** The first of slots `from` .. `upto` - 1 that is empty, if any. */
  function FirstEmpty(s: seq<Option<Camera>>, from: nat, upto: nat): (r: Option<nat>)
    requires upto <= |s|
    decreases upto - from
    ensures r.None? <==> forall i :: from <= i < upto ==> s[i].Some?
    ensures r.Some? ==> from <= r.value < upto && s[r.value].None? && forall i :: from <= i < r.value ==> s[i].Some?
  {
    if from >= upto then None
    else if s[from].None? then Some(from)
    else FirstEmpty(s, from + 1, upto)
  }

  /**
   * On a rig set up from empty, the power switch reaches its end exactly
   * when the scene has a camera for each of the first three source names;
   * otherwise it stops at the first of them that is missing.
   */
  lemma SwitchReachesEndIff(scene: seq<Camera>, fov: real, tex: RenderTexture?, enabled: bool)
    ensures |RigSlots(scene, fov, tex, enabled, EmptyRig())| >= TOGGLED_SLOTS
    ensures FirstEmpty(RigSlots(scene, fov, tex, enabled, EmptyRig()), 0, TOGGLED_SLOTS).None? <==>
      forall i :: 0 <= i < TOGGLED_SLOTS ==> exists k :: 0 <= k < |scene| && scene[k].name == GAME_CAMERAS[i]
  {
    RigInitialised(scene, fov, tex, enabled);
  }

  /** The slots with the enabled flag of each of the first `upto` set to `on`. */
  function SwitchSlots(s: seq<Option<Camera>>, on: bool, upto: nat): seq<Option<Camera>>
  {
    seq(|s|, i requires 0 <= i < |s| => if i < upto && s[i].Some? then Some(s[i].value.(enabled := on)) else s[i])
  }

  /**
   * Switching off and on again, with slots 0 to 2 all filled and enabled as
   * the switch was, gives back the same slots.
   */
  lemma SwitchTwiceRestores(s: seq<Option<Camera>>, on: bool)
    requires forall i :: 0 <= i < TOGGLED_SLOTS && i < |s| ==> s[i].Some? && s[i].value.enabled == on
    ensures SwitchSlots(SwitchSlots(s, !on, TOGGLED_SLOTS), on, TOGGLED_SLOTS) == s
  {
    var twice := SwitchSlots(SwitchSlots(s, !on, TOGGLED_SLOTS), on, TOGGLED_SLOTS);
    forall i | 0 <= i < |s|
      ensures twice[i] == s[i]
    {
      if i < TOGGLED_SLOTS {
        assert s[i].value.(enabled := on) == s[i].value;
      }
    }
  }

  /**
   * Switching sets the enabled flag of the first `upto` filled slots and
   * changes nothing else: no slot is filled or emptied, slots from `upto` on
   * are untouched.
   */
  lemma SwitchSlotsEffect(s: seq<Option<Camera>>, on: bool, upto: nat)
    ensures |SwitchSlots(s, on, upto)| == |s|
    ensures forall i :: 0 <= i < |s| ==> (SwitchSlots(s, on, upto)[i].Some? <==> s[i].Some?)
    ensures forall i :: 0 <= i < |s| && i < upto && s[i].Some? ==>
      SwitchSlots(s, on, upto)[i].value.enabled == on &&
      SwitchSlots(s, on, upto)[i].value.(enabled := s[i].value.enabled) == s[i].value
    ensures forall i :: upto <= i < |s| ==> SwitchSlots(s, on, upto)[i] == s[i]
  {
  }

  // ---------------------------------------------------------------- rendering

  /**
   * A filled slot after a frame: moved to `pos` if it is a primary slot,
   * rotated by `rot`, with the rig's field of view and texture.
   */
  function Aimed(c: Camera, i: nat, pos: Vector3, rot: Quaternion, fov: real, tex: RenderTexture?): Camera
  {
    c.(position := if IsPrimarySlot(i) then pos else c.position,
       orientation := Rotated(rot),
       fieldOfView := fov,
       targetTexture := tex)
  }

  /** A slot after a frame: empty if it was, aimed if it was filled. */
  function RenderedSlot(slot: Option<Camera>, i: nat, pos: Vector3, rot: Quaternion, fov: real, tex: RenderTexture?): Option<Camera>
  {
    match slot
    case None => None
    case Some(c) => Some(Aimed(c, i, pos, rot, fov, tex))
  }

  /** The slots after a frame. */
  function RenderedSlots(s: seq<Option<Camera>>, pos: Vector3, rot: Quaternion, fov: real, tex: RenderTexture?): seq<Option<Camera>>
  {
    seq(|s|, i requires 0 <= i < |s| => RenderedSlot(s[i], i, pos, rot, fov, tex))
  }

  /**
   * A frame leaves the same slots filled; only slots 2 and 3 move; every
   * filled slot ends up rotated by `rot` with the rig's field of view and
   * texture; name, settings and enabled flag are kept.
   */
  lemma RenderedSlotsEffect(s: seq<Option<Camera>>, pos: Vector3, rot: Quaternion, fov: real, tex: RenderTexture?)
    ensures |RenderedSlots(s, pos, rot, fov, tex)| == |s|
    ensures forall i :: 0 <= i < |s| ==> (RenderedSlots(s, pos, rot, fov, tex)[i].Some? <==> s[i].Some?)
    ensures forall i :: 0 <= i < |s| && s[i].Some? ==>
      var c := RenderedSlots(s, pos, rot, fov, tex)[i].value;
      c.position == (if i == 2 || i == 3 then pos else s[i].value.position) &&
      c.orientation == Rotated(rot) && c.fieldOfView == fov && c.targetTexture == tex &&
      c.name == s[i].value.name && c.settings == s[i].value.settings && c.enabled == s[i].value.enabled
  {
  }

  /** The render call for one slot: one for a filled slot, none for an empty one. */
  function RenderOf(slot: Option<Camera>, i: nat): seq<EngineCall>
  {
    match slot
    case None => []
    case Some(c) => [Render(i, c)]
  }

  /** Concatenation is associative. */
  lemma AppendAssoc<T>(a: seq<T>, b: seq<T>, c: seq<T>)
    ensures a + (b + c) == a + b + c
  {
  }

  /** The render calls for the first `n` slots of `s`, in slot order. */
  function Renders(s: seq<Option<Camera>>, n: nat): seq<EngineCall>
    requires n <= |s|
  {
    if n == 0 then [] else Renders(s, n - 1) + RenderOf(s[n - 1], n - 1)
  }

  /** Each render call renders the camera of a filled slot below `n`. */
  lemma {:induction false} RendersAreFilledSlots(s: seq<Option<Camera>>, n: nat)
    requires n <= |s|
    ensures forall k :: 0 <= k < |Renders(s, n)| ==>
      Renders(s, n)[k].Render? && Renders(s, n)[k].slot < n && s[Renders(s, n)[k].slot] == Some(Renders(s, n)[k].camera)
  {
    if n > 0 {
      RendersAreFilledSlots(s, n - 1);
    }
  }

  /** The render calls go in strictly increasing slot order. */
  lemma {:induction false} RendersInSlotOrder(s: seq<Option<Camera>>, n: nat)
    requires n <= |s|
    ensures forall k1, k2 :: 0 <= k1 < k2 < |Renders(s, n)| ==>
      Renders(s, n)[k1].Render? && Renders(s, n)[k2].Render? && Renders(s, n)[k1].slot < Renders(s, n)[k2].slot
  {
    if n > 0 {
      RendersInSlotOrder(s, n - 1);
      RendersAreFilledSlots(s, n - 1);
      var prior := Renders(s, n - 1);
      var last := RenderOf(s[n - 1], n - 1);
      assert Renders(s, n) == prior + last;
      forall k1, k2 | 0 <= k1 < k2 < |Renders(s, n)|
        ensures Renders(s, n)[k1].Render? && Renders(s, n)[k2].Render? && Renders(s, n)[k1].slot < Renders(s, n)[k2].slot
      {
        assert Renders(s, n)[k1] == prior[k1];
        if k2 < |prior| {
          assert Renders(s, n)[k2] == prior[k2];
        } else {
          assert Renders(s, n)[k2] == last[0] == Render(n - 1, s[n - 1].value);
        }
      }
    } else {
      assert Renders(s, n) == [];
    }
  }

  /** Every filled slot below `n` is rendered. */
  lemma {:induction false} RendersCoverFilledSlots(s: seq<Option<Camera>>, n: nat, i: nat)
    requires n <= |s| && i < n && s[i].Some?
    ensures exists k :: 0 <= k < |Renders(s, n)| && Renders(s, n)[k] == Render(i, s[i].value)
  {
    var prior := Renders(s, n - 1);
    assert Renders(s, n) == prior + RenderOf(s[n - 1], n - 1);
    if i == n - 1 {
      assert Renders(s, n)[|prior|] == Render(i, s[i].value);
    } else {
      RendersCoverFilledSlots(s, n - 1, i);
      var k :| 0 <= k < |prior| && prior[k] == Render(i, s[i].value);
      assert Renders(s, n)[k] == Render(i, s[i].value);
    }
  }

  /**
   * The style's pass after the alpha fix: a grayscale blit and the overlay
   * for `LazorDP`, otherwise the filter, when there is one.
   */
  function PostPass(style: CamStyle, filter: CameraFilter?, tex: RenderTexture?): seq<EngineCall>
  {
    if style == LazorDP then [Blit(tex, tex, Grayscale), DrawOverlay(tex)]
    else if filter != null then [RenderImageWithFilter(filter, tex, tex)]
    else []
  }

  /**
   * The calls of one frame, given the slots after it: the renders, one alpha
   * fix over the shared texture, then the style's pass.
   */
  function RenderTrace(slots: seq<Option<Camera>>, style: CamStyle, filter: CameraFilter?, tex: RenderTexture?): seq<EngineCall>
  {
    Renders(slots, |slots|) + [Blit(tex, tex, Dealpha)] + PostPass(style, filter, tex)
  }

  /**
   * With the style and filter in agreement, a frame's calls are the renders,
   * then exactly one alpha fix, then either the grayscale blit and overlay
   * (`LazorDP`) or exactly one application of the current filter (any other
   * style); no filter is applied under `LazorDP`.
   */
  lemma RenderTraceShape(slots: seq<Option<Camera>>, style: CamStyle, filter: CameraFilter?, tex: RenderTexture?)
    requires StyleAgrees(style, filter)
    ensures var t := RenderTrace(slots, style, filter, tex); var n := |Renders(slots, |slots|)|;
      |t| > n &&
      (forall k :: 0 <= k < |t| ==> (t[k].Render? <==> k < n)) &&
      t[n] == Blit(tex, tex, Dealpha) &&
      (forall k :: 0 <= k < |t| && t[k].Blit? && t[k].material == Dealpha ==> k == n) &&
      (style == LazorDP ==> |t| == n + 3 && t[n + 1] == Blit(tex, tex, Grayscale) && t[n + 2] == DrawOverlay(tex)) &&
      (style != LazorDP ==> |t| == n + 2 && t[n + 1] == RenderImageWithFilter(filter, tex, tex)) &&
      (forall k :: 0 <= k < |t| && t[k].RenderImageWithFilter? ==>
         style != LazorDP && t[k].filter == filter && FilterFor(style) == Some(t[k].filter.kind))
  {
    RendersAreFilledSlots(slots, |slots|);
    var t := RenderTrace(slots, style, filter, tex);
    var n := |Renders(slots, |slots|)|;
    assert forall k :: 0 <= k < n ==> t[k] == Renders(slots, |slots|)[k];
    assert forall k :: n <= k < |t| ==> t[k] == ([Blit(tex, tex, Dealpha)] + PostPass(style, filter, tex))[k - n];
  }
}

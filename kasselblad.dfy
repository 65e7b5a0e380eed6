/**
 * The Kasselblad viewfinder part module: a rig of six cameras cloned from the
 * game's own cameras, all rendering into one shared texture, with a power
 * switch and a selectable visual style applied after each frame.
 */
module Kasselblad {
  import opened Host
  import opened CameraLookup
  import opened Styles
  import opened Rig

  /** The state the game starts a part module in; only `Editor` matters to the rig. */
  datatype StartState = Editor | PreLaunch | Landed | Docked | Flying | Splashed | SubOrbital | Orbital

  /**
   * How the power switch ends: it reaches its end, or it stops at the first
   * of slots 0 to 2 that holds no camera, where dereferencing the empty slot
   * throws.
   */
  datatype ToggleOutcome = Switched | NullReference(slot: nat)

  /** How many of the first slots a toggle with this outcome switched. */
  function SwitchedUpTo(outcome: ToggleOutcome): nat
  {
    match outcome
    case Switched => TOGGLED_SLOTS
    case NullReference(k) => k
  }

  class Kasselblad {
    /** The rig cameras' field of view, a persisted setting of the part. */
    var camFoV: real
    /** The shared texture every rig camera renders into; null until the rig is set up. */
    var camTex: RenderTexture?
    /** One slot per entry of GAME_CAMERAS; an empty slot had no source camera. */
    const cams: array<Option<Camera>>
    /** The power switch. */
    var camEnabled: bool
    var style: CamStyle
    /** The filter for `style`, null for `LazorDP`. */
    var movietimeFilter: CameraFilter?
    /** The label of the power switch button. */
    var toggleLabel: string

    /** The rig has its fixed six slots and the style and filter agree. */
    predicate Valid()
      reads this
    {
      cams.Length == |GAME_CAMERAS| && StyleAgrees(style, movietimeFilter)
    }

    constructor ()
      ensures Valid() && fresh(cams)
      ensures cams[..] == EmptyRig()
      ensures camFoV == 60.0 && camTex == null && camEnabled
      ensures style == LazorDP && movietimeFilter == null
      ensures toggleLabel == "Switch On"
    {
      camFoV := 60.0;
      camTex := null;
      cams := new Option<Camera>[|GAME_CAMERAS|](_ => None);
      camEnabled := true;
      style := LazorDP;
      movietimeFilter := null;
      toggleLabel := "Switch On";
    }

    /**
     * Selects a style: records it, creates a new filter of the style's class
     * (none for `LazorDP`) and activates the filter when there is one.
     */
    method SetStyle(style: CamStyle, engine: Engine)
      modifies this, engine
      ensures this.style == style
      ensures movietimeFilter == null <==> style == LazorDP
      ensures movietimeFilter != null ==> fresh(movietimeFilter) && FilterFor(style) == Some(movietimeFilter.kind)
      ensures engine.log == old(engine.log) + (if movietimeFilter != null then [Activate(movietimeFilter)] else [])
      ensures engine.active == old(engine.active)
      ensures StyleAgrees(this.style, movietimeFilter)
      ensures camFoV == old(camFoV) && camTex == old(camTex) && camEnabled == old(camEnabled)
      ensures toggleLabel == old(toggleLabel)
    {
      this.style := style;
      match style {
        case LazorDP => movietimeFilter := null;
        case MT_BnW0 => movietimeFilter := new CameraFilter(BlackAndWhiteFilm);
        case MT_BnW1 => movietimeFilter := new CameraFilter(BlackAndWhiteLoResTV);
        case MT_BnW2 => movietimeFilter := new CameraFilter(BlackAndWhiteHiResTV);
        case MT_COLOR0 => movietimeFilter := new CameraFilter(ColorFilm);
        case MT_COLOR1 => movietimeFilter := new CameraFilter(ColorLoResTV);
        case MT_COLOR2 => movietimeFilter := new CameraFilter(ColorHiResTV);
        case MT_NIGHTVISION => movietimeFilter := new CameraFilter(NightVision);
        case MT_NORMAL => movietimeFilter := new CameraFilter(Normal);
        case MT_SEPIA => movietimeFilter := new CameraFilter(SepiaFilm);
        case MT_THERMAL => movietimeFilter := new CameraFilter(Thermal);
      }
      if movietimeFilter != null {
        engine.log := engine.log + [Activate(movietimeFilter)];
      }
    }

    /**
     * The power switch: flips `camEnabled`, writes it into the enabled flag of
     * slots 0 to 2 in turn and relabels the button. An empty slot among the
     * three stops it there with the flag already flipped and the label stale.
     */
    method ToggleOnOff() returns (outcome: ToggleOutcome)
      requires Valid()
      modifies this, cams
      ensures Valid()
      ensures camEnabled == !old(camEnabled)
      ensures outcome == match FirstEmpty(old(cams[..]), 0, TOGGLED_SLOTS)
                         case None => Switched
                         case Some(k) => NullReference(k)
      ensures cams[..] == SwitchSlots(old(cams[..]), camEnabled, SwitchedUpTo(outcome))
      ensures outcome.Switched? ==> toggleLabel == LabelFor(camEnabled)
      ensures outcome.Switched? ==> (toggleLabel == "Switch Off" <==> camEnabled)
      ensures outcome.NullReference? ==> toggleLabel == old(toggleLabel)
      ensures style == old(style) && movietimeFilter == old(movietimeFilter)
      ensures camFoV == old(camFoV) && camTex == old(camTex)
    {
      camEnabled := !camEnabled;
      for i := 0 to TOGGLED_SLOTS
        modifies cams
        invariant forall j :: 0 <= j < i ==> old(cams[j]).Some? && cams[j] == Some(old(cams[j]).value.(enabled := camEnabled))
        invariant forall j :: i <= j < cams.Length ==> cams[j] == old(cams[j])
      {
        if cams[i].None? {
          assert FirstEmpty(old(cams[..]), 0, TOGGLED_SLOTS) == Some(i);
          return NullReference(i);
        }
        cams[i] := Some(cams[i].value.(enabled := camEnabled));
      }
      toggleLabel := LabelFor(camEnabled);
      return Switched;
    }

    /**
     * Fills slot `i` with a clone of the first scene camera of the slot's name,
     * set to the rig's field of view, texture and power; with no such camera
     * the slot keeps what it held.
     */
    method SetupCamera(i: nat, allCameras: seq<Camera>)
      requires Valid() && i < cams.Length
      modifies cams
      ensures cams[i] == SetupSlot(allCameras, i, camFoV, camTex, camEnabled, old(cams[i]))
      ensures forall j :: 0 <= j < cams.Length && j != i ==> cams[j] == old(cams[j])
    {
      var existing := FindCamera(allCameras, GAME_CAMERAS[i]);
      if existing.None? {
        return;
      }
      var cam := CopyFrom(existing.value, RIG_PREFIX + GAME_CAMERAS[i]);
      cam := cam.(fieldOfView := camFoV);
      cam := cam.(targetTexture := camTex);
      cam := cam.(enabled := camEnabled);
      cams[i] := Some(cam);
    }

    /** Creates the shared 1024 by 768 texture and sets up every slot in order. */
    method InitRTT(allCameras: seq<Camera>)
      requires Valid()
      modifies this, cams
      ensures Valid()
      ensures camTex != null && fresh(camTex) && camTex.width == 1024 && camTex.height == 768
      ensures cams[..] == RigSlots(allCameras, camFoV, camTex, camEnabled, old(cams[..]))
      ensures camFoV == old(camFoV) && camEnabled == old(camEnabled)
      ensures style == old(style) && movietimeFilter == old(movietimeFilter) && toggleLabel == old(toggleLabel)
    {
      camTex := new RenderTexture(1024, 768);
      for i := 0 to |GAME_CAMERAS|
        modifies cams
        invariant forall j :: 0 <= j < i ==> cams[j] == SetupSlot(allCameras, j, camFoV, camTex, camEnabled, old(cams[j]))
        invariant forall j :: i <= j < cams.Length ==> cams[j] == old(cams[j])
      {
        SetupCamera(i, allCameras);
      }
    }

    /**
     * Outside the editor, sets up the rig and labels the power switch to
     * match `camEnabled`; in the editor, does nothing.
     */
    method OnStart(state: StartState, allCameras: seq<Camera>)
      requires Valid()
      modifies this, cams
      ensures Valid()
      ensures state == Editor ==> cams[..] == old(cams[..]) && camTex == old(camTex) && toggleLabel == old(toggleLabel)
      ensures state != Editor ==> camTex != null && fresh(camTex)
      ensures state != Editor ==> cams[..] == RigSlots(allCameras, camFoV, camTex, camEnabled, old(cams[..]))
      ensures state != Editor ==> toggleLabel == LabelFor(camEnabled)
      ensures camFoV == old(camFoV) && camEnabled == old(camEnabled)
      ensures style == old(style) && movietimeFilter == old(movietimeFilter)
    {
      if state != Editor {
        InitRTT(allCameras);
        toggleLabel := LabelFor(camEnabled);
      }
    }

    /**
     * Renders every filled slot in slot order: moves it to `pos` if it is a
     * primary slot, turns it to face `aim` and then rotates it by `rot`, gives
     * it the rig's field of view and texture, and renders it.
     */
    method RenderSlots(pos: Vector3, aim: Vector3, rot: Quaternion, engine: Engine)
      modifies cams, engine
      ensures cams[..] == RenderedSlots(old(cams[..]), pos, rot, camFoV, camTex)
      ensures engine.log == old(engine.log) + Renders(cams[..], cams.Length)
      ensures engine.active == old(engine.active)
    {
      ghost var after := RenderedSlots(cams[..], pos, rot, camFoV, camTex);
      for i := 0 to cams.Length
        invariant forall j :: 0 <= j < i ==> cams[j] == after[j]
        invariant forall j :: i <= j < cams.Length ==> cams[j] == old(cams[j])
        invariant engine.log == old(engine.log) + Renders(after, i)
        invariant engine.active == old(engine.active)
      {
        AppendAssoc(old(engine.log), Renders(after, i), RenderOf(after[i], i));
        var slot := cams[i];
        if slot.Some? {
          var cam := slot.value;
          if IsPrimarySlot(i) {
            cam := cam.(position := pos);
          }
          cam := cam.(orientation := Facing(aim));
          cam := cam.(orientation := Rotated(rot));
          cam := cam.(fieldOfView := camFoV);
          cam := cam.(targetTexture := camTex);
          cams[i] := Some(cam);
          engine.log := engine.log + [Render(i, cam)];
        }
      }
      assert cams[..] == after;
    }

    /**
     * Renders one frame into the shared texture: the filled slots in order,
     * then one alpha fix and the style's pass; the render target active on
     * entry is made active again.
     */
    method RenderCam(pos: Vector3, aim: Vector3, rot: Quaternion, engine: Engine)
      modifies cams, engine
      ensures cams[..] == RenderedSlots(old(cams[..]), pos, rot, camFoV, camTex)
      ensures engine.log == old(engine.log) + RenderTrace(cams[..], style, movietimeFilter, camTex)
      ensures engine.active == old(engine.active)
    {
      var currentRT := engine.active;
      engine.active := camTex;

      RenderSlots(pos, aim, rot, engine);
      ghost var rendered := Renders(cams[..], cams.Length);

      engine.log := engine.log + [Blit(camTex, camTex, Dealpha)];
      if style == LazorDP {
        engine.log := engine.log + [Blit(camTex, camTex, Grayscale)];
        engine.log := engine.log + [DrawOverlay(engine.active)];
      } else if movietimeFilter != null {
        engine.log := engine.log + [RenderImageWithFilter(movietimeFilter, camTex, camTex)];
      }
      AppendAssoc(old(engine.log), rendered, [Blit(camTex, camTex, Dealpha)]);
      AppendAssoc(old(engine.log), rendered + [Blit(camTex, camTex, Dealpha)], PostPass(style, movietimeFilter, camTex));

      engine.active := currentRT;
    }
  }
}

# Kasselblad camera rig

A Dafny model of the camera rig inside the Kasselblad viewfinder part module (`Source/Kasselblad.cs`).
The rig clones six of the game's scene cameras into a fixed array of slots, all bound to one shared
render texture. Each frame it aims and renders them in slot order, runs an alpha-fix blit, and then
runs the pass of the selected visual style. The model also covers the style state machine
(`SetStyle`) and the power switch (`toggleOnOff`).

Modules:

- `Host` (`host.dfy`): the engine as the rig sees it. Cameras are records. Render textures and filter
  instances are objects. `Engine` holds the global active render target (`RenderTexture.active`) and
  a log of every call the rig makes into the engine or a filter (`Camera.Render`, `Graphics.Blit`,
  the overlay draw, `RenderImageWithFilter`, `Activate`).
- `CameraLookup` (`camera_lookup.dfy`): `FindCamera`, a linear search with early return, proved
  against the pure "first camera with this name" function `FirstNamed`.
- `Styles` (`styles.dfy`): the closed `CamStyle` enumeration, the style-to-filter-class table and the
  agreement predicate between `_style` and `_movietimeFilter`.
- `Rig` (`rig.dfy`): what each operation does to the six slots and which calls a frame makes, written as
  functions of the slots before the operation, with the lemmas about them.
- `Kasselblad` (`kasselblad.dfy`): the part module as a class. `cams` is a fixed `array` of optional
  camera records. `camEnabled`, `style`, `movietimeFilter`, `camTex` and the button label are fields.
  Each method's `ensures` ties the new state and the appended calls to the `Rig` functions.

Where the code and the written design of the system differ, the model follows the code:

- The power switch writes the enabled flag of slots 0 to 2 only. Slots 3 to 5 keep the flag they got at
  setup, although the design says every rig camera follows the switch.
- The power switch does not check for empty slots. If one of slots 0 to 2 is empty, the dereference
  throws. By then `camEnabled` is already flipped and the earlier slots are written, but the label is not
  updated. `ToggleOnOff` returns `NullReference(k)` for this case instead of requiring the slots to be
  filled.
- When no scene camera has a slot's name, `SetupCamera` returns and leaves that slot as it was. It does
  not clear the slot. A rig set up from a new module therefore has the slot empty.
- The code has no power gate and no standby images. `RenderCam` always renders the live cameras.
  Frames are skipped only by the window code, which is not modelled here.
- A new module has `camEnabled == true` and the label "Switch On". The label matches `camEnabled` only
  after `OnStart` relabels the button.

## Model

| member | source | states |
|---|---|---|
| `CameraLookup.FindCamera` | Source/Kasselblad.cs:267-273 | returns the first camera, in enumeration order, whose name equals the argument; returns None exactly when no camera has that name |
| `CameraLookup.FirstNamed` | Source/Kasselblad.cs:267-273 | a found camera has the requested name and is one of the enumerated cameras |
| `CameraLookup.FirstNamedNone` | Source/Kasselblad.cs:267-273 | the search finds nothing if and only if no camera carries the name |
| `CameraLookup.FirstNamedAt` | Source/Kasselblad.cs:267-273 | a camera with the name and no such camera before it is exactly the one found |
| `CameraLookup.FirstNamedIgnoresOtherNames` | Source/Kasselblad.cs:267-273 | adding a camera with a different name anywhere in the enumeration does not change the result |
| `Styles.FilterFor` | Source/Kasselblad.cs:143-177 | a style selects no filter class exactly when it is `LazorDP` |
| `Styles.FilterForInjective` | Source/Kasselblad.cs:143-177 | no two styles instantiate the same filter class |
| `Kasselblad.Kasselblad.constructor` | Source/Kasselblad.cs:104-138 | six empty slots, FoV 60, no texture, switched on, style `LazorDP` with no filter (style and filter agree), label "Switch On" |
| `Kasselblad.Kasselblad.SetStyle` | Source/Kasselblad.cs:140-181 | sets the style to its argument; the filter is null exactly for `LazorDP`, otherwise a new filter of the style's class; `Activate` is logged once when there is a filter and never otherwise; style and filter agree afterwards; nothing else changes |
| `Kasselblad.Kasselblad.ToggleOnOff` | Source/Kasselblad.cs:38-46 | negates `camEnabled`; writes it into the enabled flag of slots 0 to 2 and leaves slots 3 to 5 alone; the label is "Switch Off" exactly when `camEnabled` is true; at the first empty slot among 0 to 2, stops with only the earlier slots written and the label unchanged |
| `Rig.FirstEmpty` | Source/Kasselblad.cs:42-43 | finds the first empty slot in a range, and returns None exactly when every slot in the range is filled |
| `Rig.SwitchSlotsEffect` | Source/Kasselblad.cs:42-43 | switching sets only the enabled flag of the first slots; no slot is filled or emptied; later slots are untouched |
| `Rig.SwitchTwiceRestores` | Source/Kasselblad.cs:38-46 | switching off and back on, with slots 0 to 2 filled and in step with the switch, restores the slots |
| `Rig.SwitchReachesEndIff` | Source/Kasselblad.cs:42-43 | on a freshly set-up rig, the switch reaches its end exactly when the scene has cameras named "GalaxyCamera", "Camera ScaledSpace" and "Camera 01" |
| `Kasselblad.Kasselblad.SetupCamera` | Source/Kasselblad.cs:204-217 | fills slot i with a clone of the first scene camera of the slot's name, with the rig's FoV, texture and enabled flag; leaves the slot as it was when there is none; touches no other slot |
| `Kasselblad.Kasselblad.InitRTT` | Source/Kasselblad.cs:183-192 | creates a fresh 1024 by 768 texture and sets up all six slots in order; the rest of the state is unchanged and style and filter still agree |
| `Kasselblad.Kasselblad.OnStart` | Source/Kasselblad.cs:52-67 | outside the editor, sets up the rig and makes the label match `camEnabled`; in the editor, leaves the rig alone |
| `Rig.RigInitialised` | Source/Kasselblad.cs:204-217 | from an empty rig: exactly six slots; slot i is empty if and only if no scene camera is named `GameCameras[i]`; a filled slot has the name "Kasselblad-" + source name, FoV `camFoV`, texture `_camTex` and enabled `_camEnabled` |
| `Rig.RigSlotCopiesFirstMatch` | Source/Kasselblad.cs:206-213 | a filled slot copies the settings and transform of the first scene camera with the slot's name |
| `Rig.RigNamesAreNotSourceNames` | Source/Kasselblad.cs:104-110 | no rig camera's name equals a source name, so rig cameras created during setup are never picked as sources |
| `Kasselblad.Kasselblad.RenderSlots` | Source/Kasselblad.cs:224-239 | each slot ends as `RenderedSlots` of the slots on entry; the log gains exactly one render call per filled slot, in slot order, of the aimed camera; the active render target is unchanged |
| `Kasselblad.Kasselblad.RenderCam` | Source/Kasselblad.cs:219-265 | the slots end as `RenderedSlots` of the slots on entry; the log gains exactly `RenderTrace` of the final slots; the active render target on exit is the one on entry |
| `Rig.RenderedSlotsEffect` | Source/Kasselblad.cs:224-239 | the same slots stay filled; only slots 2 and 3 get the rig position; every filled slot ends rotated by `rot` (the `forward` write is overwritten) with FoV `camFoV` and texture `_camTex`; name, settings and enabled flag are kept |
| `Rig.RendersAreFilledSlots` | Source/Kasselblad.cs:224-238 | every render call renders the camera held in a filled slot |
| `Rig.RendersInSlotOrder` | Source/Kasselblad.cs:224-238 | render calls go in strictly increasing slot order |
| `Rig.RendersCoverFilledSlots` | Source/Kasselblad.cs:224-238 | every filled slot is rendered |
| `Rig.RenderTraceShape` | Source/Kasselblad.cs:238-261 | with style and filter in agreement, a frame's calls are the renders, then exactly one dealpha blit, then either the grayscale blit and overlay draw (`LazorDP`) or exactly one application of the current filter (any other style); no filter is applied under `LazorDP` |

## Left out

- Engine internals are opaque log entries: `Camera.Render`, `Graphics.Blit` (which also makes its destination the active target, here always `_camTex`), `Camera.CopyFrom` beyond copying the record, the `GL` matrix calls around `DrawTexture`, and the dealpha shader source.
- Filter pixel math and `CameraFilter.InitializeAssets` belong to filter classes outside this file and are not modelled. The filter is an object whose class is recorded.
- `SetupMaterials` asset loading (the grayscale material, its ramp texture, the overlay texture) is not modelled. The grayscale blit and the overlay draw are named calls.
- Of the render texture's creation parameters, only the size 1024 by 768 is kept. The depth, format, colour space, `isPowerOfTwo` and `Create()` are not.
- `OnSave`/`OnLoad` persistence through the plugin configuration is storage I/O and is not modelled. So is the persisted `camFoV`, which the model treats as any value of the field.
- The window code is not modelled: `OnDraw`, `InitStyles`, `OnWindow`, window centering, and the draw-queue registration in `OnStart`. In the game, `OnWindow` is what calls `RenderCam` (only while switched on), `SetStyle` (per style button) and `toggleOnOff`.
- `OnUpdate` does nothing the rig depends on.
- The FoV slider bounds (30 to 90 in steps of 5) are a UI hint the code never enforces.
- `_camobjs`: each rig camera's game object appears only as the camera's name, "Kasselblad-" + source name.
- `Camera.allCameras` is a parameter, one snapshot for the whole setup. The game also lists the rig cameras created during setup. `RigNamesAreNotSourceNames` and `FirstNamedIgnoresOtherNames` show that this does not change which camera any slot clones.
- Vectors and quaternions are opaque. `transform.forward = aim` is recorded as `Facing(aim)` and not converted to a quaternion. It is overwritten at once by the rotation in any case.
- `CamStyle` is closed. A C# enum can hold an out-of-range integer, for which `SetStyle`'s switch has no case and keeps the previous filter. Such a value cannot be expressed here.
- `ToggleOnOff` returns the null dereference as an outcome. In the game the exception escapes to the engine's event handler.
- Power gating by resource availability, standby images and still capture have no code in this file.

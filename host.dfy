/**
 * The host game engine as the camera rig sees it: cameras, render textures,
 * the external filter objects, and the engine calls the rig makes, which are
 * recorded in order on an `Engine` object instead of being performed.
 */
module Host {

  datatype Option<+T> = None | Some(value: T)

  /** A point or direction in world space; the rig only stores and copies them. */
  datatype Vector3 = Vector3(x: real, y: real, z: real)

  datatype Quaternion = Quaternion(x: real, y: real, z: real, w: real)

  /**
   * The orientation of a camera's transform, as set by the last write to it:
   * `transform.forward = v` leaves the camera facing along `v`,
   * `transform.rotation = q` leaves it rotated by `q`.
   */
  datatype Orientation = Facing(forward: Vector3) | Rotated(rotation: Quaternion)

  /** An offscreen render target; the engine's own texture state is not modelled. */
  class RenderTexture {
    const width: nat
    const height: nat

    constructor (width: nat, height: nat)
      ensures this.width == width && this.height == height
    {
      this.width := width;
      this.height := height;
    }
  }

  /** The camera settings that `Camera.CopyFrom` carries over and the rig never touches. */
  datatype CameraSettings = CameraSettings(
    depth: real,
    cullingMask: int,
    clearFlags: nat,
    nearClipPlane: real,
    farClipPlane: real)

  /**
   * A camera: the name of its game object, its settings, and the fields the
   * rig writes (field of view, target texture, enabled flag, transform).
   */
  datatype Camera = Camera(
    name: string,
    settings: CameraSettings,
    fieldOfView: real,
    targetTexture: RenderTexture?,
    enabled: bool,
    position: Vector3,
    orientation: Orientation)

  /**
   * A camera added to a new game object called `name` and then made to match
   * `source` with `CopyFrom`: everything but the name comes from `source`,
   * including its transform.
   */
  function CopyFrom(source: Camera, name: string): Camera
  {
    source.(name := name)
  }

  /** The concrete filter classes of the external filter library, one per look. */
  datatype FilterKind =
    | BlackAndWhiteFilm
    | BlackAndWhiteLoResTV
    | BlackAndWhiteHiResTV
    | ColorFilm
    | ColorLoResTV
    | ColorHiResTV
    | NightVision
    | Normal
    | SepiaFilm
    | Thermal

  /** One instance of an external filter; its pixel transform is not modelled. */
  class CameraFilter {
    const kind: FilterKind

    constructor (kind: FilterKind)
      ensures this.kind == kind
    {
      this.kind := kind;
    }
  }

  /** The two full-surface shaders the rig blits with. */
  datatype Material = Dealpha | Grayscale

  /** One call from the rig into the engine or into a filter. */
  datatype EngineCall =
    | Render(slot: nat, camera: Camera)
    | Blit(source: RenderTexture?, dest: RenderTexture?, material: Material)
    | DrawOverlay(target: RenderTexture?)
    | RenderImageWithFilter(filter: CameraFilter, source: RenderTexture?, dest: RenderTexture?)
    | Activate(filter: CameraFilter)

  /**
   * The engine's global render state: the active render target
   * (`RenderTexture.active`, null for the screen) and the calls made so far.
   */
  class Engine {
    var active: RenderTexture?
    var log: seq<EngineCall>

    constructor (active: RenderTexture?)
      ensures this.active == active && log == []
    {
      this.active := active;
      log := [];
    }
  }
}

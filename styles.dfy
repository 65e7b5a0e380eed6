/**
 * The visual styles of the viewfinder and the filter each one selects.
 */
module Styles {
  import opened Host

  /** The closed set of styles; the names are the ones the style buttons show. */
  datatype CamStyle =
    | LazorDP
    | MT_BnW0
    | MT_BnW1
    | MT_BnW2
    | MT_COLOR0
    | MT_COLOR1
    | MT_COLOR2
    | MT_SEPIA
    | MT_NORMAL
    | MT_THERMAL
    | MT_NIGHTVISION

  /** The filter class a style instantiates; `LazorDP` uses none. */
  function FilterFor(style: CamStyle): (kind: Option<FilterKind>)
    ensures kind.None? <==> style == LazorDP
  {
    match style
    case LazorDP => None
    case MT_BnW0 => Some(BlackAndWhiteFilm)
    case MT_BnW1 => Some(BlackAndWhiteLoResTV)
    case MT_BnW2 => Some(BlackAndWhiteHiResTV)
    case MT_COLOR0 => Some(ColorFilm)
    case MT_COLOR1 => Some(ColorLoResTV)
    case MT_COLOR2 => Some(ColorHiResTV)
    case MT_NIGHTVISION => Some(NightVision)
    case MT_NORMAL => Some(Normal)
    case MT_SEPIA => Some(SepiaFilm)
    case MT_THERMAL => Some(Thermal)
  }

  /** No two styles share a filter class. */
  lemma FilterForInjective(a: CamStyle, b: CamStyle)
    ensures FilterFor(a) == FilterFor(b) ==> a == b
  {
  }

  /**
   * The style and the filter field agree: there is no filter exactly for
   * `LazorDP`, and otherwise the filter is of the style's class.
   */
  predicate StyleAgrees(style: CamStyle, filter: CameraFilter?)
  {
    (style == LazorDP <==> filter == null) &&
    (filter != null ==> FilterFor(style) == Some(filter.kind))
  }
}

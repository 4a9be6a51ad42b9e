/** Geometry of a single row of 16:9 video tiles: the constants of the grid,
    how many tiles are shown for a container width, and how large each tile is. */
module Layout {

  const MinVideoWidth: real := 160.0
  const MinVideoHeight: real := 90.0
  const Gap: real := 8.0
  const MaxVideos: nat := 8
  const AspectRatio: real := 16.0 / 9.0

  /** A width and a height, as the container and the drag handler report them. */
  datatype Dimensions = Dimensions(width: real, height: real)

  /** The size of one tile together with the size of the window holding the row. */
  datatype GridDimensions = GridDimensions(
    videoWidth: real,
    videoHeight: real,
    windowWidth: real,
    windowHeight: real)

  /** Width taken by n tiles of the given width placed in one row, a gap between neighbours. */
  function RowWidth(n: int, tileWidth: real): real
  {
    n as real * tileWidth + (n - 1) as real * Gap
  }

  /** n tiles of minimum width fit side by side in a container this wide
      (for no tiles, the width must not be below minus one gap). */
  predicate FitsAtMinimum(n: int, maxWidth: real)
  {
    RowWidth(n, MinVideoWidth) <= maxWidth
  }

  /** How many minimum-width tiles (each with its trailing gap) fit in the width. */
  function MaxVideosDisplayed(maxWidth: real): (r: int)
    ensures r as real * (MinVideoWidth + Gap) <= maxWidth + Gap
    ensures maxWidth + Gap < (r + 1) as real * (MinVideoWidth + Gap)
  {
    ((maxWidth + Gap) / (MinVideoWidth + Gap)).Floor
  }

  /** The number of tiles shown: the participants, capped by what fits at
      minimum width and by the fixed maximum. It is the largest count within
      the participants and the maximum whose row fits at minimum width. */
  function VisibleCount(numParticipants: nat, maxWidth: real): (r: int)
    ensures r <= numParticipants && r <= MaxVideos
    ensures maxWidth >= -Gap ==> r >= 0 && FitsAtMinimum(r, maxWidth)
    ensures forall k: nat :: k <= numParticipants && k <= MaxVideos && FitsAtMinimum(k, maxWidth) ==> k <= r
  {
    var maxVideosDisplayed := MaxVideosDisplayed(maxWidth);
    Min(Min(numParticipants, maxVideosDisplayed), MaxVideos)
  }

  function Min(a: int, b: int): int
  {
    if a <= b then a else b
  }

  /** With no participants nothing is shown, whatever width the container has
      (as long as the width is not below minus one gap, where the floor turns negative). */
  lemma NoParticipantsNoTiles(maxWidth: real)
    requires maxWidth >= -Gap
    ensures VisibleCount(0, maxWidth) == 0
  {
  }

  /** Size of each of videosToShow tiles in a window of maxWidth by maxHeight: the
      width left after the gaps is split evenly, the 16:9 height is capped at the
      window height and the width is derived again from the capped height. */
  function TileSize(videosToShow: int, maxWidth: real, maxHeight: real): (r: GridDimensions)
    ensures r.windowWidth == maxWidth && r.windowHeight == maxHeight
    ensures videosToShow == 0 ==> r.videoWidth == 0.0 && r.videoHeight == 0.0
    ensures videosToShow > 0 ==> r.videoWidth * 9.0 == r.videoHeight * 16.0
    ensures videosToShow > 0 ==> r.videoHeight <= maxHeight
  {
    if videosToShow == 0 then
      GridDimensions(0.0, 0.0, maxWidth, maxHeight)
    else
      var availableWidth := maxWidth - Gap * (videosToShow - 1) as real;
      var videoWidth := availableWidth / videosToShow as real;
      var videoHeight := videoWidth / AspectRatio;
      var adjustedVideoHeight := if videoHeight <= maxHeight then videoHeight else maxHeight;
      var adjustedVideoWidth := adjustedVideoHeight * AspectRatio;
      GridDimensions(adjustedVideoWidth, adjustedVideoHeight, maxWidth, maxHeight)
  }

  /** The row of tiles fits the window, and it is held by one of the two
      bounds: either the tiles are as tall as the window or the row is as wide. */
  lemma TileSizeFitsRow(n: nat, maxWidth: real, maxHeight: real)
    requires n > 0
    ensures RowWidth(n, TileSize(n, maxWidth, maxHeight).videoWidth) <= maxWidth
    ensures TileSize(n, maxWidth, maxHeight).videoHeight == maxHeight
         || RowWidth(n, TileSize(n, maxWidth, maxHeight).videoWidth) == maxWidth
  {
  }

  /** Every 16:9 tile that is no taller than the window and whose row fits the
      window is no larger than the tile chosen. */
  lemma TileSizeIsLargest(n: nat, maxWidth: real, maxHeight: real, w: real, h: real)
    requires n > 0
    requires w * 9.0 == h * 16.0
    requires h <= maxHeight
    requires RowWidth(n, w) <= maxWidth
    ensures w <= TileSize(n, maxWidth, maxHeight).videoWidth
    ensures h <= TileSize(n, maxWidth, maxHeight).videoHeight
  {
  }

  /** When the shown count fits at minimum width and the window is at least the
      minimum tile height, every tile is at least the minimum size. */
  lemma TileSizeAtLeastMinimum(n: nat, maxWidth: real, maxHeight: real)
    requires n > 0 && FitsAtMinimum(n, maxWidth)
    requires maxHeight >= MinVideoHeight
    ensures TileSize(n, maxWidth, maxHeight).videoWidth >= MinVideoWidth
    ensures TileSize(n, maxWidth, maxHeight).videoHeight >= MinVideoHeight
  {
    TileSizeIsLargest(n, maxWidth, maxHeight, MinVideoWidth, MinVideoHeight);
  }

  /** The opening layout: eight participants in a 1200 by 300 window show seven
      tiles of 1152/7 by 648/7. */
  lemma InitialLayout()
    ensures VisibleCount(8, 1200.0) == 7
    ensures TileSize(7, 1200.0, 300.0) == GridDimensions(1152.0 / 7.0, 648.0 / 7.0, 1200.0, 300.0)
  {
  }
}

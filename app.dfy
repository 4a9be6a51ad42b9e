/** The state of the page: the React state of the application component and of
    the resizable grid, and the listeners the grid registers on the document.
    Each effect is modelled as a function of the state it reads; each handler
    as a method that updates the state in place. */
module App {
  import opened Layout
  import opened AutoFit
  import opened Resize

  class VideoGridApp {
    var numParticipants: nat
    var maxWidth: real
    var maxHeight: real
    var lastSavedMaxWidth: real
    var prevNumParticipants: nat
    var isResizing: bool
    // listeners registered on the document, in registration order
    var listeners: seq<Listener>
    // number given to the closures of the next mouse-down
    var nextSession: nat

    /** The container never drops below the minimum tile size nor passes the
        width last chosen by dragging; the effects have recorded the current
        count; the listeners are whole drag sessions, present exactly while resizing. */
    ghost predicate Valid()
      reads this
    {
      MinVideoWidth <= maxWidth <= lastSavedMaxWidth
      && MinVideoHeight <= maxHeight
      && prevNumParticipants == numParticipants
      && Paired(listeners, 0, nextSession)
      && (isResizing <==> listeners != [])
    }

    /** The state at the first render. */
    constructor ()
      ensures Valid()
      ensures numParticipants == 8 && prevNumParticipants == 8
      ensures maxWidth == 1200.0 && lastSavedMaxWidth == 1200.0 && maxHeight == 300.0
      ensures !isResizing && listeners == [] && nextSession == 0
    {
      numParticipants := 8;
      maxWidth := 1200.0;
      maxHeight := 300.0;
      lastSavedMaxWidth := 1200.0;
      prevNumParticipants := 8;
      isResizing := false;
      listeners := [];
      nextSession := 0;
    }

    /** The number of tiles the visible-count effect derives from the state. */
    function VideosToShow(): (r: nat)
      reads this
      requires Valid()
      ensures r <= numParticipants && r <= MaxVideos && FitsAtMinimum(r, maxWidth)
      ensures forall k: nat :: k <= numParticipants && k <= MaxVideos && FitsAtMinimum(k, maxWidth) ==> k <= r
    {
      VisibleCount(numParticipants, maxWidth)
    }

    /** The tile and window size the grid's sizing effect derives from the state:
        every tile shown is at least the minimum size, 16:9, and the row fits. */
    function Grid(): (g: GridDimensions)
      reads this
      requires Valid()
      ensures g.windowWidth == maxWidth && g.windowHeight == maxHeight
      ensures VideosToShow() == 0 ==> g.videoWidth == 0.0 && g.videoHeight == 0.0
      ensures VideosToShow() > 0 ==>
                g.videoWidth >= MinVideoWidth && g.videoHeight >= MinVideoHeight
                && g.videoWidth * 9.0 == g.videoHeight * 16.0
                && g.videoHeight <= maxHeight
                && RowWidth(VideosToShow(), g.videoWidth) <= maxWidth
    {
      var n := VideosToShow();
      if n > 0 then
        TileSizeAtLeastMinimum(n, maxWidth, maxHeight);
        TileSizeFitsRow(n, maxWidth, maxHeight);
        TileSize(n, maxWidth, maxHeight)
      else
        TileSize(n, maxWidth, maxHeight)
    }

    /** A new participant count, followed by the auto-fit effect. */
    method SetNumParticipants(n: nat)
      requires Valid()
      modifies this
      ensures Valid()
      ensures numParticipants == n && prevNumParticipants == n
      ensures maxWidth == AutoFitWidth(n, old(numParticipants), old(maxWidth), old(lastSavedMaxWidth))
      ensures maxHeight == old(maxHeight) && lastSavedMaxWidth == old(lastSavedMaxWidth)
      ensures isResizing == old(isResizing) && listeners == old(listeners) && nextSession == old(nextSession)
    {
      numParticipants := n;
      // the auto-fit effect, setter by setter; AutoFitWidth is the rule it follows
      if numParticipants < prevNumParticipants && numParticipants > 0 {
        var optimalWindowWidth := OptimalWindowWidth(numParticipants);
        if optimalWindowWidth < maxWidth {
          maxWidth := optimalWindowWidth;
        }
      } else if numParticipants > prevNumParticipants {
        var optimalWindowWidth := OptimalWindowWidth(numParticipants);
        maxWidth := if optimalWindowWidth <= lastSavedMaxWidth then optimalWindowWidth else lastSavedMaxWidth;
      }
      prevNumParticipants := numParticipants;
    }

    /** The size reported by the grid becomes the container size and the last
        width chosen by dragging; nothing else changes. */
    method HandleResize(width: real, height: real)
      modifies this
      ensures maxWidth == width && maxHeight == height && lastSavedMaxWidth == width
      ensures numParticipants == old(numParticipants) && prevNumParticipants == old(prevNumParticipants)
      ensures isResizing == old(isResizing) && listeners == old(listeners) && nextSession == old(nextSession)
    {
      maxWidth := width;
      maxHeight := height;
      lastSavedMaxWidth := width;
    }

    /** Mouse-down on the resize handle: resizing starts, and a move handler that
        captured the pointer and the container size is registered, then an up handler. */
    method MouseDown(p: Point)
      requires Valid()
      modifies this
      ensures Valid()
      ensures isResizing
      ensures listeners == old(listeners) + Session(old(nextSession), p, Dimensions(old(maxWidth), old(maxHeight)))
      ensures nextSession == old(nextSession) + 1
      ensures maxWidth == old(maxWidth) && maxHeight == old(maxHeight) && lastSavedMaxWidth == old(lastSavedMaxWidth)
      ensures numParticipants == old(numParticipants) && prevNumParticipants == old(prevNumParticipants)
    {
      isResizing := true;
      var startSize := Dimensions(maxWidth, maxHeight);
      PairedSubscribe(listeners, 0, nextSession, p, startSize);
      listeners := listeners + [OnMove(nextSession, p, startSize)];
      listeners := listeners + [OnUp(nextSession)];
      assert listeners == old(listeners) + Session(nextSession, p, startSize);
      nextSession := nextSession + 1;
    }

    /** A pointer move: every registered move handler reports its clamped size,
        in order, and each report goes through HandleResize, so the last one
        decides the state. Without a drag in progress nothing is reported. */
    method MouseMove(p: Point) returns (emitted: seq<Dimensions>)
      requires Valid()
      modifies this
      ensures Valid()
      ensures emitted == MoveEmissions(old(listeners), p)
      ensures !old(isResizing) ==> emitted == []
      ensures emitted == [] ==>
                maxWidth == old(maxWidth) && maxHeight == old(maxHeight) && lastSavedMaxWidth == old(lastSavedMaxWidth)
      ensures emitted != [] ==>
                maxWidth == emitted[|emitted| - 1].width && maxHeight == emitted[|emitted| - 1].height
                && lastSavedMaxWidth == emitted[|emitted| - 1].width
      ensures listeners == old(listeners) && isResizing == old(isResizing) && nextSession == old(nextSession)
      ensures numParticipants == old(numParticipants) && prevNumParticipants == old(prevNumParticipants)
    {
      emitted := MoveEmissions(listeners, p);
      if emitted != [] {
        // earlier reports of the same move are overwritten field by field by the last one
        var last := emitted[|emitted| - 1];
        HandleResize(last.width, last.height);
      }
    }

    /** Mouse-up: every up handler runs, clears the resizing flag and removes the
        two listeners of its own session, so no listener is left. */
    method MouseUp()
      requires Valid()
      modifies this
      ensures Valid()
      ensures listeners == DispatchUp(old(listeners), old(listeners))
      ensures listeners == [] && !isResizing
      ensures maxWidth == old(maxWidth) && maxHeight == old(maxHeight) && lastSavedMaxWidth == old(lastSavedMaxWidth)
      ensures numParticipants == old(numParticipants) && prevNumParticipants == old(prevNumParticipants)
      ensures nextSession == old(nextSession)
    {
      if HasUpHandler(listeners) {
        isResizing := false;
      }
      DispatchUpClears(listeners, 0, nextSession);
      listeners := DispatchUp(listeners, listeners);
    }
  }

  /** A session of use: the opening layout, participants leaving and joining,
      then one drag. */
  method Scenario()
  {
    var app := new VideoGridApp();
    InitialLayout();
    assert app.VideosToShow() == 7;

    app.SetNumParticipants(3);
    assert app.maxWidth == 976.0;
    app.SetNumParticipants(10);
    assert app.maxWidth == 1200.0;

    app.MouseDown(Point(0.0, 0.0));
    assert app.listeners == Session(0, Point(0.0, 0.0), Dimensions(1200.0, 300.0));
    SingleSessionMove(0, Point(0.0, 0.0), Dimensions(1200.0, 300.0), Point(50.0, -20.0));
    var emitted := app.MouseMove(Point(50.0, -20.0));
    assert emitted == [Dimensions(1250.0, 280.0)];
    assert app.maxWidth == 1250.0 && app.lastSavedMaxWidth == 1250.0 && app.maxHeight == 280.0;

    app.MouseUp();
    emitted := app.MouseMove(Point(90.0, 0.0));
    assert emitted == [] && app.maxWidth == 1250.0;
  }
}

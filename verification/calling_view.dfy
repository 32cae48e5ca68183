/**
 * The native calling view: a remote video surface, a draggable self-view
 * thumbnail that snaps into place when a drag ends, and a status label.
 * Coordinates are reals; only the snapping arithmetic matters here, not
 * floating-point rounding.
 */
module View {
  import opened Wrappers
  import opened Sdk

  datatype Point = Point(x: real, y: real)
  datatype Size = Size(width: real, height: real)

  /** The states a pan gesture recognizer reports. */
  datatype GestureState = Possible | Began | Changed | Ended | Cancelled | Failed

  /** Size fixed for the self-view thumbnail by its layout constraints. */
  const ThumbSize: Size := Size(100.0, 180.0)

  /** Horizontal distance from the container edge of a snapped thumbnail centre. */
  const EdgeInset: real := 60.0

  /** Vertical snap: the three corrections run in order, each reading the
      centre the previous one left. The result never lies below `bound`;
      it lies inside [limit, bound] whenever that interval is non-empty,
      and is `bound` otherwise; a centre already inside stays put. */
  function SnapY(y: real, bound: real, limit: real): (r: real)
    ensures r <= bound
    ensures limit <= bound ==> limit <= r
    ensures limit > bound ==> r == bound
    ensures limit <= y <= bound ==> r == y
    ensures y >= bound ==> r == bound
    ensures y <= limit <= bound ==> r == limit
  {
    var afterFirst := if y >= bound then bound else y;
    var afterSecond := if afterFirst <= limit then limit else afterFirst;
    if afterSecond >= bound then bound else afterSecond
  }

  /** Horizontal snap: to the inset from the right edge when the centre is
      at or past the middle of the container, to the inset from the left
      edge otherwise. */
  function SnapX(x: real, width: real): (r: real)
    ensures r == width - EdgeInset || r == EdgeInset
    ensures x >= width / 2.0 ==> r == width - EdgeInset
    ensures x < width / 2.0 ==> r == EdgeInset
  {
    if x >= width / 2.0 then width - EdgeInset else EdgeInset
  }

  /** Where the thumbnail centre comes to rest after one gesture frame at
      pointer `p`: at the pointer, and snapped only when the drag ended. */
  function SettledCenter(p: Point, state: GestureState, container: Size, thumb: Size): (c: Point)
    ensures state != Ended ==> c == p
    ensures state == Ended ==> c.y <= container.height / 4.0
    ensures state == Ended ==> c.x == SnapX(p.x, container.width)
    ensures state == Ended ==> c.y == SnapY(p.y, container.height / 4.0, thumb.height - 20.0)
  {
    if state == Ended then
      Point(SnapX(p.x, container.width), SnapY(p.y, container.height / 4.0, thumb.height - 20.0))
    else
      p
  }

  class CallingView {
    /** Snapshot of the session's active call taken when the view was made. */
    var activeCall: Call?
    var name: Option<string>
    /** Centre of the self-view thumbnail in the view's coordinates. */
    var selfCenter: Point
    var selfAlpha: real
    var labelText: string
    const thumb: Size

    /** The view as created; `snapshot` is the session's active call at
        that moment and is never refreshed afterwards. The thumbnail's
        initial centre comes from layout constraints and is left open. */
    constructor (snapshot: Call?)
      ensures activeCall == snapshot && name == None
      ensures selfAlpha == 1.0 && labelText == "No video" && thumb == ThumbSize
    {
      activeCall := snapshot;
      name := None;
      selfAlpha := 1.0;
      labelText := "No video";
      thumb := ThumbSize;
    }

    /** The `name` property setter. */
    method SetName(prop: string)
      modifies this`name
      ensures name == Some(prop)
    {
      name := Some(prop);
    }

    /** One pan-gesture frame on the thumbnail. The thumbnail centre first
        follows the pointer, unclamped; on `Ended` it is corrected in place:
        three vertical corrections, then one horizontal one. Each animation
        block takes effect at once, so later checks read the corrected centre. */
    method HandleSelfViewGesture(location: Point, state: GestureState, container: Size)
      modifies this`selfCenter
      ensures selfCenter == SettledCenter(location, state, container, thumb)
    {
      selfCenter := location;
      var verticalBound := container.height / 4.0;
      var selfViewHeight := thumb.height - 20.0;
      if state == Ended {
        if selfCenter.y >= verticalBound {
          selfCenter := selfCenter.(y := verticalBound);
        }
        if selfCenter.y <= selfViewHeight {
          selfCenter := selfCenter.(y := selfViewHeight);
        }
        if selfCenter.y >= verticalBound {
          selfCenter := selfCenter.(y := verticalBound);
        }
        if selfCenter.x >= container.width / 2.0 {
          selfCenter := selfCenter.(x := container.width - EdgeInset);
        } else {
          selfCenter := selfCenter.(x := EdgeInset);
        }
      }
    }

    /** Attaches this view's two surfaces to its snapshot call, makes the
        thumbnail opaque and shows "active call". Without a snapshot call
        the source stops the process, so that is a precondition here. */
    method ConnectToCall()
      requires activeCall != null
      modifies this`selfAlpha, this`labelText, activeCall`videoRenderViews
      ensures activeCall.videoRenderViews == this
      ensures selfAlpha == 1.0 && labelText == "active call"
    {
      activeCall.videoRenderViews := this;
      selfAlpha := 1.0;
      labelText := "active call";
    }
  }

  /** The vertical corrections never look at x and the horizontal one never
      looks at y: moving the pointer along one axis leaves the other
      coordinate of the rest position unchanged. */
  lemma AxesIndependent(p: Point, q: Point, state: GestureState, container: Size, thumb: Size)
    ensures p.x == q.x ==> SettledCenter(p, state, container, thumb).x == SettledCenter(q, state, container, thumb).x
    ensures p.y == q.y ==> SettledCenter(p, state, container, thumb).y == SettledCenter(q, state, container, thumb).y
  {
  }

  /** Container 700 x 600 with the 180-point thumbnail: a drag ending at
      (550, 500) rests at (640, 150), one ending at (100, 500) at (60, 150).
      The second vertical correction lifts 150 to 160, the third brings it
      back to 150. */
  lemma WorkedExamples()
    ensures SettledCenter(Point(550.0, 500.0), Ended, Size(700.0, 600.0), ThumbSize) == Point(640.0, 150.0)
    ensures SettledCenter(Point(100.0, 500.0), Ended, Size(700.0, 600.0), ThumbSize) == Point(60.0, 150.0)
  {
  }
}

/**
 * The two pieces of the editor that are not drawing: the size constraint the host window is
 * held to, and the small state tree in which the processor remembers the editor's size.
 */
module Editor {

  const PresetManagerComponentHeight: int := 20
  const ContentMinHeight: int := 568
  const ContentMinWidth: int := 310
  /** Width over height of the pedal artwork. */
  const ContentAspectRatio: real := 0.545774647887324

  /** The smallest window height: the minimum content height plus the preset bar above it. */
  const MinWindowHeight: int := ContentMinHeight + PresetManagerComponentHeight

  function Max(a: int, b: int): (m: int)
    ensures m >= a && m >= b && (m == a || m == b)
  {
    if a >= b then a else b
  }

  /**
   * Rounding to the nearest integer, ties to the even neighbour, which is what the library's
   * round-to-int does with the processor's default rounding mode.
   */
  function RoundToInt(x: real): (n: int)
    ensures -0.5 <= n as real - x <= 0.5
    ensures (n as real - x == 0.5 || x - n as real == 0.5) ==> n % 2 == 0
  {
    var f := x.Floor;
    var fraction := x - f as real;
    if fraction < 0.5 then f
    else if fraction > 0.5 then f + 1
    else if f % 2 == 0 then f
    else f + 1
  }

  /** Rounding to the nearest integer never reverses the order of two values. */
  lemma RoundToIntMonotone(x: real, y: real)
    requires x <= y
    ensures RoundToInt(x) <= RoundToInt(y)
  {
  }

  /** A window size in pixels. */
  datatype Size = Size(width: int, height: int)

  /**
   * The size a requested window is constrained to. The content area below the preset bar is
   * at least the minimum content height, the width follows the content height through the
   * aspect ratio and is at least the minimum width; the requested width plays no part.
   */
  function ConstrainedSize(requestedHeight: int): (s: Size)
    ensures s.height >= MinWindowHeight && s.width >= ContentMinWidth
    ensures requestedHeight >= MinWindowHeight ==> s.height == requestedHeight
    ensures requestedHeight < MinWindowHeight ==> s.height == MinWindowHeight
  {
    var contentHeight := Max(ContentMinHeight, requestedHeight - PresetManagerComponentHeight);
    var contentWidth := Max(ContentMinWidth, RoundToInt(contentHeight as real * ContentAspectRatio));
    Size(contentWidth, contentHeight + PresetManagerComponentHeight)
  }

  /**
   * The minimum width never binds: the content width is always the content height times the
   * aspect ratio, rounded, because the minimum content height already gives the minimum width.
   */
  lemma WidthFollowsAspectRatio(requestedHeight: int)
    ensures var s := ConstrainedSize(requestedHeight);
            s.width == RoundToInt((s.height - PresetManagerComponentHeight) as real * ContentAspectRatio)
  {
    var contentHeight := Max(ContentMinHeight, requestedHeight - PresetManagerComponentHeight);
    assert RoundToInt(ContentMinHeight as real * ContentAspectRatio) == ContentMinWidth;
    RoundToIntMonotone(ContentMinHeight as real * ContentAspectRatio, contentHeight as real * ContentAspectRatio);
  }

  /** Constraining a size that is already constrained leaves it as it is. */
  lemma ConstrainedSizeIdempotent(requestedHeight: int)
    ensures var s := ConstrainedSize(requestedHeight);
            ConstrainedSize(s.height) == s
  {
  }

  /** Exactly the sizes the constraint produces are left unchanged by it. */
  lemma ConstrainedSizeFixedPoints(size: Size)
    ensures ConstrainedSize(size.height) == size <==>
              size.height >= MinWindowHeight
              && size.width == RoundToInt((size.height - PresetManagerComponentHeight) as real * ContentAspectRatio)
  {
    WidthFollowsAspectRatio(size.height);
  }

  /** A window rectangle: position and size. */
  class Rectangle {
    var x: int
    var y: int
    var width: int
    var height: int

    constructor (x: int, y: int, width: int, height: int)
      ensures this.x == x && this.y == y && this.width == width && this.height == height
    {
      this.x, this.y, this.width, this.height := x, y, width, height;
    }
  }

  /**
   * Resizes the host's proposed bounds to the constrained size, keeping their position. The
   * previous bounds, the limits and the four stretching flags the host passes along are not
   * consulted.
   */
  method CheckBounds(bounds: Rectangle)
    modifies bounds
    ensures Size(bounds.width, bounds.height) == ConstrainedSize(old(bounds.height))
    ensures bounds.x == old(bounds.x) && bounds.y == old(bounds.y)
  {
    var constrained := ConstrainedSize(bounds.height);
    bounds.width, bounds.height := constrained.width, constrained.height;
  }

  /** The editor's state as the processor keeps it: a tree type and the last window size. */
  datatype UiState = UiState(treeType: string, width: int, height: int)

  /** The state a new processor starts with: the minimum window, which the constraint leaves as it is. */
  function CreateUiStateSubtree(): (state: UiState)
    ensures state.treeType == "uiState"
    ensures state.width == ContentMinWidth && state.height == MinWindowHeight
    ensures ConstrainedSize(state.height) == Size(state.width, state.height)
  {
    UiState("uiState", ContentMinWidth, ContentMinHeight + PresetManagerComponentHeight)
  }
}

/// The geometry of resizing the preferences window to a panel: the window is
/// given the frame size that fits the panel's content while its top edge stays
/// where it was (the origin is the bottom-left corner, y grows upwards).
module WindowFrame {
  import opened Panels

  datatype Point = Point(x: real, y: real)

  /// A window frame: its origin (bottom-left corner) and size.
  datatype Rect = Rect(x: real, y: real, width: real, height: real)

  /// The frame the window is animated to when a panel whose content needs a
  /// window of size `target` is activated. The size becomes `target`, the
  /// top edge is kept, and horizontally the window grows or shrinks about its
  /// midpoint when the toolbar items are centred, otherwise about its left
  /// edge.
  function NewWindowFrame(current: Rect, target: Size, centered: bool): (r: Rect)
    ensures r.width == target.width && r.height == target.height
    ensures r.y + r.height == current.y + current.height
    ensures centered ==> r.x + r.width / 2.0 == current.x + current.width / 2.0
    ensures !centered ==> r.x == current.x
  {
    var deltaX := current.width - target.width;
    var deltaY := current.height - target.height;
    Rect(current.x + (if centered then deltaX / 2.0 else 0.0), current.y + deltaY,
         target.width, target.height)
  }

  /// The three properties of NewWindowFrame determine it: any frame of the
  /// target size that keeps the top edge and the midpoint (or the left edge)
  /// is that frame.
  lemma NewWindowFrameIsUnique(current: Rect, target: Size, centered: bool, r: Rect)
    requires r.width == target.width && r.height == target.height
    requires r.y + r.height == current.y + current.height
    requires centered ==> r.x + r.width / 2.0 == current.x + current.width / 2.0
    requires !centered ==> r.x == current.x
    ensures r == NewWindowFrame(current, target, centered)
  {
  }

  /// Resizing a window that already has the target size does not move it, so
  /// re-activating the active panel leaves the frame as it is.
  lemma ResizeToSameSizeKeepsFrame(current: Rect, centered: bool)
    ensures NewWindowFrame(current, Size(current.width, current.height), centered) == current
  {
  }

  /// The frame after the window is moved to `origin` (where centring the
  /// window on screen puts it); the size is kept.
  function MovedTo(r: Rect, origin: Point): Rect {
    Rect(origin.x, origin.y, r.width, r.height)
  }
}

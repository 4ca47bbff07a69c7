/** Projection of world positions to the screen, and the letterboxed playfield viewport
    (`update_unit_translation` and `update_viewport_rect` in main.rs). */
module Screen {
  import opened Arith
  import opened Toroidal
  import opened Ecs

  // ---------------------------------------------------------------------------------------------
  // Unit translation

  /** Screen x of a unit at world x, seen from the viewpoint: the wrapped displacement from the
      viewpoint, centred on the screen. */
  function ScreenX(x: real, viewpoint: real): (r: real)
    ensures -PlayfieldWidth * 0.5 <= r < PlayfieldWidth * 0.5
  {
    Wrap(x - viewpoint + PlayfieldWidth * 0.5, PlayfieldWidth) - PlayfieldWidth * 0.5
  }

  /** Moving the unit or the viewpoint by whole playfield widths does not move the unit on screen. */
  lemma ScreenXPeriodic(x: real, viewpoint: real, n: int, m: int)
    ensures ScreenX(x + n as real * PlayfieldWidth, viewpoint + m as real * PlayfieldWidth)
         == ScreenX(x, viewpoint)
  {
    var a := x - viewpoint + PlayfieldWidth * 0.5;
    assert x + n as real * PlayfieldWidth - (viewpoint + m as real * PlayfieldWidth) + PlayfieldWidth * 0.5
        == a + (n - m) as real * PlayfieldWidth;
    WrapPeriodic(a, PlayfieldWidth, n - m);
  }

  /** A unit less than half a playfield away from the viewpoint is drawn at its plain displacement. */
  lemma ScreenXNear(x: real, viewpoint: real)
    requires -PlayfieldWidth * 0.5 <= x - viewpoint < PlayfieldWidth * 0.5
    ensures ScreenX(x, viewpoint) == x - viewpoint
  {
    WrapInRange(x - viewpoint + PlayfieldWidth * 0.5, PlayfieldWidth);
  }

  /** The screen x differs from the plain displacement by whole playfield widths. */
  lemma ScreenXCongruent(x: real, viewpoint: real) returns (k: int)
    ensures x - viewpoint == ScreenX(x, viewpoint) + k as real * PlayfieldWidth
  {
    k := WrapCongruent(x - viewpoint + PlayfieldWidth * 0.5, PlayfieldWidth);
  }

  /** One row of the query `(&UnitPosition, &mut Transform)`: the world position and the x, y of
      the translation (its depth is never written). */
  datatype UnitRow = UnitRow(position: Vec2, translation: Vec2)

  /** `update_unit_translation`: every unit's translation becomes its screen position; world
      positions and the viewpoint are only read. */
  method UpdateUnitTranslation(units: array<UnitRow>, viewpoint: Viewpoint)
    modifies units
    ensures forall i :: 0 <= i < units.Length ==>
              units[i].position == old(units[i].position)
              && units[i].translation == Vec2(ScreenX(units[i].position.x, viewpoint.position), units[i].position.y)
  {
    var i := 0;
    while i < units.Length
      invariant 0 <= i <= units.Length
      invariant forall k :: 0 <= k < i ==>
                  units[k].position == old(units[k].position)
                  && units[k].translation == Vec2(ScreenX(units[k].position.x, viewpoint.position), units[k].position.y)
      invariant forall k :: i <= k < units.Length ==> units[k] == old(units[k])
    {
      var p := units[i].position;
      var tx := Wrap(p.x - viewpoint.position + PlayfieldWidth * 0.5, PlayfieldWidth) - PlayfieldWidth * 0.5;
      units[i] := units[i].(translation := Vec2(tx, p.y));
      i := i + 1;
    }
  }

  // ---------------------------------------------------------------------------------------------
  // Letterboxed viewport

  const MinAspect: real := 1.5
  const MaxAspect: real := 2.5

  /** The viewport size for a content area: letterboxed top and bottom when the content is too
      narrow, on the sides when it is too wide. Only called once the content is at least one
      pixel high. */
  function Letterbox(size: Vec2): (v: Vec2)
    requires size.y >= 1.0
    ensures v.x <= size.x && v.y <= size.y
    ensures v.x == size.x || v.y == size.y
    ensures size.x > 0.0 ==> 0.0 < v.y && MinAspect * v.y <= v.x <= MaxAspect * v.y
    ensures MinAspect * size.y <= size.x <= MaxAspect * size.y ==> v == size
  {
    AspectCompare(size.x, size.y);
    var aspect := size.x / size.y;
    if aspect < MinAspect then Vec2(size.x, size.x / MinAspect)
    else if aspect > MaxAspect then Vec2(size.y * MaxAspect, size.y)
    else size
  }

  /** Comparing the aspect ratio with a bound is comparing the width with the scaled height. */
  lemma AspectCompare(x: real, y: real)
    requires y > 0.0
    ensures x / y < MinAspect <==> x < MinAspect * y
    ensures x / y > MaxAspect <==> x > MaxAspect * y
  {
    assert (x / y) * y == x;
    if x / y < MinAspect { MulLeftStrict(y, x / y, MinAspect); } else { MulLeftMono(y, MinAspect, x / y); }
    if x / y > MaxAspect { MulLeftStrict(y, MaxAspect, x / y); } else { MulLeftMono(y, x / y, MaxAspect); }
  }

  datatype Rect = Rect(min: Vec2, max: Vec2)

  /** The size of the main content node and the centre its global transform places it at. */
  datatype ContentNode = ContentNode(size: Vec2, center: Vec2)

  /** The letterboxed viewport, centred in the content area (before clipping to the window). */
  function ViewportRect(content: ContentNode): (r: Rect)
    requires content.size.y >= 1.0
    ensures r.max.x - r.min.x == Letterbox(content.size).x
    ensures r.max.y - r.min.y == Letterbox(content.size).y
  {
    var contentPos := Vec2(content.center.x - content.size.x / 2.0, content.center.y - content.size.y / 2.0);
    var v := Letterbox(content.size);
    var pos := Vec2((content.size.x - v.x) * 0.5 + contentPos.x, (content.size.y - v.y) * 0.5 + contentPos.y);
    Rect(pos, Vec2(pos.x + v.x, pos.y + v.y))
  }

  /** The letterboxed viewport is centred: opposite margins inside the content area are equal and
      never negative. */
  lemma ViewportCentered(content: ContentNode)
    requires content.size.y >= 1.0
    ensures var r := ViewportRect(content);
            var lo := Vec2(content.center.x - content.size.x / 2.0, content.center.y - content.size.y / 2.0);
            var hi := Vec2(content.center.x + content.size.x / 2.0, content.center.y + content.size.y / 2.0);
            && r.min.x - lo.x == hi.x - r.max.x >= 0.0
            && r.min.y - lo.y == hi.y - r.max.y >= 0.0
  {
  }

  /** Whether a point lies in a rectangle, edges included. */
  predicate InRect(p: Vec2, r: Rect)
  {
    r.min.x <= p.x <= r.max.x && r.min.y <= p.y <= r.max.y
  }

  /** Whether two rectangles overlap, touching edges included. */
  predicate Overlap(a: Rect, b: Rect)
  {
    Max(a.min.x, b.min.x) <= Min(a.max.x, b.max.x) && Max(a.min.y, b.min.y) <= Min(a.max.y, b.max.y)
  }

  /** `Rect::intersect`: the overlap, with the minimum corner collapsed onto the maximum one when
      the rectangles do not overlap. */
  function Intersect(a: Rect, b: Rect): (r: Rect)
    ensures r.min.x <= r.max.x && r.min.y <= r.max.y
    ensures r.max.x <= a.max.x && r.max.x <= b.max.x && r.max.y <= a.max.y && r.max.y <= b.max.y
    ensures Overlap(a, b) ==> forall p :: InRect(p, r) <==> InRect(p, a) && InRect(p, b)
    ensures !Overlap(a, b) ==> r.min.x == r.max.x || r.min.y == r.max.y
  {
    var mx := Vec2(Max(a.min.x, b.min.x), Max(a.min.y, b.min.y));
    var Mx := Vec2(Min(a.max.x, b.max.x), Min(a.max.y, b.max.y));
    Rect(Vec2(Min(mx.x, Mx.x), Min(mx.y, Mx.y)), Mx)
  }

  const U32Max: nat := 0xFFFF_FFFF

  /** `as u32` on a float: saturating, truncating toward zero. */
  function AsU32(r: real): (n: nat)
    ensures n <= U32Max
    ensures 0.0 <= r < U32Max as real ==> n as real <= r < n as real + 1.0
  {
    if r <= 0.0 then 0 else if r >= U32Max as real then U32Max else r.Floor
  }

  /** A float ratio: finite, or the infinity or NaN a division by zero gives. */
  datatype Ratio = Finite(value: real) | NonFinite

  datatype ScalingMode = Default | Fixed(width: Ratio, height: real)
  datatype Projection = Orthographic(scalingMode: ScalingMode) | Perspective
  datatype CameraViewport = CameraViewport(physicalPosition: (nat, nat), physicalSize: (nat, nat))

  /** The playfield camera: its viewport and its projection. */
  class PlayfieldCamera {
    var viewport: Option<CameraViewport>
    var projection: Projection

    constructor (projection: Projection)
      ensures viewport == None && this.projection == projection
    {
      viewport := None;
      this.projection := projection;
    }
  }

  /** `update_viewport_rect`: with a content area under one pixel high the camera is left alone;
      otherwise the camera viewport becomes the letterboxed rectangle clipped to the window, and an
      orthographic projection gets a fixed height of 1 and the clipped rectangle's aspect ratio. */
  method UpdateViewportRect(content: ContentNode, windowWidth: nat, windowHeight: nat, camera: PlayfieldCamera)
    modifies camera
    ensures content.size.y < 1.0 ==> camera.viewport == old(camera.viewport) && camera.projection == old(camera.projection)
    ensures content.size.y >= 1.0 ==>
              var r := Intersect(ViewportRect(content), Rect(Zero, Vec2(windowWidth as real, windowHeight as real)));
              && camera.viewport == Some(CameraViewport((AsU32(r.min.x), AsU32(r.min.y)),
                                                         (AsU32(r.max.x - r.min.x), AsU32(r.max.y - r.min.y))))
              && camera.projection == (if old(camera.projection).Orthographic? then
                                         Orthographic(Fixed(if r.max.y - r.min.y == 0.0 then NonFinite
                                                            else Finite((r.max.x - r.min.x) / (r.max.y - r.min.y)), 1.0))
                                       else old(camera.projection))
  {
    var windowRect := Rect(Zero, Vec2(windowWidth as real, windowHeight as real));
    if content.size.y < 1.0 {
      return;
    }
    var contentPos := Vec2(content.center.x - content.size.x / 2.0, content.center.y - content.size.y / 2.0);
    var viewportSize := content.size;
    var contentAspect := viewportSize.x / viewportSize.y;
    if contentAspect < MinAspect {
      viewportSize := viewportSize.(y := viewportSize.x / MinAspect);
    } else if contentAspect > MaxAspect {
      viewportSize := viewportSize.(x := viewportSize.y * MaxAspect);
    }
    assert viewportSize == Letterbox(content.size);
    var viewportPos := Vec2((content.size.x - viewportSize.x) * 0.5 + contentPos.x,
                            (content.size.y - viewportSize.y) * 0.5 + contentPos.y);
    var letterboxed := Rect(viewportPos, Vec2(viewportPos.x + viewportSize.x, viewportPos.y + viewportSize.y));
    assert letterboxed == ViewportRect(content);
    var viewportRect := Intersect(letterboxed, windowRect);
    var width := viewportRect.max.x - viewportRect.min.x;
    var height := viewportRect.max.y - viewportRect.min.y;
    camera.viewport := Some(CameraViewport((AsU32(viewportRect.min.x), AsU32(viewportRect.min.y)),
                                           (AsU32(width), AsU32(height))));
    if !camera.projection.Orthographic? {
      return;
    }
    camera.projection := Orthographic(Fixed(if height == 0.0 then NonFinite else Finite(width / height), 1.0));
  }
}

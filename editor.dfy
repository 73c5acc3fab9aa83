/**
 * The canvas editor's pointer handling: a drag draws a rectangle, ellipse,
 * triangle, line or arrow from the press point to the release point; a click
 * places a star, heart or hexagon; a click with a pending image asks for the
 * image to be decoded and places it so that it covers the canvas. The arrow
 * keys nudge the active object.
 *
 * Trigonometry is abstracted: the arrow's direction is given as a unit
 * vector (see `IsDragDirection`) instead of being computed with atan2, cos
 * and sin.
 */
module Editor {
  import opened SceneGraph
  import opened History
  import opened Store
  import opened Shapes

  /** Tools drawn by dragging: a temporary object follows the pointer. */
  const DragModes: set<string> := {"rect", "circle", "triangle", "line", "arrow"}
  /** Tools placed by a single click at the pointer. */
  const ClickModes: set<string> := {"star", "heart", "hexagon"}

  /** The axis-aligned box a drag spans. */
  datatype Box = Box(left: real, top: real, width: real, height: real)

  /** The box spanned by the press point `s` and the current point `t`. */
  function DragBox(s: Point, t: Point): (b: Box)
    ensures b.width >= 0.0 && b.height >= 0.0
    ensures (b.left == s.x && b.left + b.width == t.x) || (b.left == t.x && b.left + b.width == s.x)
    ensures (b.top == s.y && b.top + b.height == t.y) || (b.top == t.y && b.top + b.height == s.y)
  {
    var minX := if s.x <= t.x then s.x else t.x;
    var minY := if s.y <= t.y then s.y else t.y;
    var w := if t.x >= s.x then t.x - s.x else s.x - t.x;
    var h := if t.y >= s.y then t.y - s.y else s.y - t.y;
    Box(minX, minY, w, h)
  }

  /** Dragging from `s` to `t` or from `t` to `s` spans the same box. */
  lemma DragBoxSymmetric(s: Point, t: Point)
    ensures DragBox(s, t) == DragBox(t, s)
  {
  }

  /** An outlined shape (transparent fill, black stroke of width 2) with its top-left corner at `p`. */
  function Outlined(shape: Shape, p: Point): Obj
  {
    Obj(0, shape, "", p.x, p.y, TopLeft, 1.0, 1.0, Transparent, Black, DefaultStrokeWidth, 1.0)
  }

  /** The temporary object a press creates for a drag tool: empty, at the pointer. */
  function TempShape(mode: string, p: Point): (o: Obj)
    requires mode in DragModes
    ensures o.left == p.x && o.top == p.y && o.origin == TopLeft
    ensures o.stroke == Black && o.strokeWidth == DefaultStrokeWidth && o.name == ""
    ensures mode == "line" || mode == "arrow" <==> o.shape.Line?
    ensures o.shape.Line? ==> o.shape.x1 == o.shape.x2 == p.x && o.shape.y1 == o.shape.y2 == p.y && o.fill == LibraryFill
    ensures mode == "rect" ==> o.shape == Rect(0.0, 0.0) && o.fill == Transparent
    ensures mode == "circle" ==> o.shape == Ellipse(0.0, 0.0) && o.fill == Transparent
    ensures mode == "triangle" ==> o.shape == Triangle(0.0, 0.0) && o.fill == Transparent
  {
    if mode == "rect" then Outlined(Rect(0.0, 0.0), p)
    else if mode == "circle" then Outlined(Ellipse(0.0, 0.0), p)
    else if mode == "triangle" then Outlined(Triangle(0.0, 0.0), p)
    else Outlined(Line(p.x, p.y, p.x, p.y), p).(fill := LibraryFill)
  }

  /**
   * The temporary object after the pointer moved to `t` in a drag that
   * started at `s`: boxes take the drag box, the ellipse half its sides as
   * radii, a line the press and current points as endpoints.
   */
  function Resized(o: Obj, mode: string, s: Point, t: Point): (r: Obj)
    ensures r.id == o.id && TypeOf(r.shape) == TypeOf(o.shape) && r.origin == o.origin
    ensures r.fill == o.fill && r.stroke == o.stroke && r.strokeWidth == o.strokeWidth
    ensures r.opacity == o.opacity && r.name == o.name && r.scaleX == o.scaleX && r.scaleY == o.scaleY
    ensures r.shape.Line? && (mode == "line" || mode == "arrow") ==>
              r.shape == Line(s.x, s.y, t.x, t.y) && r.left == o.left && r.top == o.top
    ensures r.shape.Ellipse? && mode == "circle" ==>
              var b := DragBox(s, t);
              r.left == b.left && r.top == b.top && 2.0 * r.shape.rx == b.width && 2.0 * r.shape.ry == b.height
    ensures (r.shape.Rect? || r.shape.Triangle?) && (mode == "rect" || mode == "triangle") ==>
              var b := DragBox(s, t);
              r.left == b.left && r.top == b.top && r.shape.width == b.width && r.shape.height == b.height
    ensures !(o.shape.Line? || o.shape.Ellipse? || o.shape.Rect? || o.shape.Triangle?) || mode !in DragModes ==> r == o
  {
    var b := DragBox(s, t);
    if (mode == "rect" || mode == "triangle") && (o.shape.Rect? || o.shape.Triangle?) then
      o.(left := b.left, top := b.top, shape := o.shape.(width := b.width, height := b.height))
    else if mode == "circle" && o.shape.Ellipse? then
      o.(left := b.left, top := b.top, shape := Ellipse(b.width / 2.0, b.height / 2.0))
    else if (mode == "line" || mode == "arrow") && o.shape.Line? then
      o.(shape := Line(s.x, s.y, t.x, t.y))
    else
      o
  }

  /** The preview depends only on the press point and the latest pointer position. */
  lemma LatestMoveWins(o: Obj, mode: string, s: Point, t1: Point, t2: Point)
    ensures Resized(Resized(o, mode, s, t1), mode, s, t2) == Resized(o, mode, s, t2)
  {
  }

  /** Moving back to the press point shows the temporary object as it was created. */
  lemma MoveToStartIsEmpty(mode: string, p: Point)
    requires mode in DragModes
    ensures Resized(TempShape(mode, p), mode, p, p) == TempShape(mode, p)
  {
  }

  /**
   * `(ux, uy)` is the unit vector of the drag from `s` to `t`, the value of
   * (cos a, sin a) for a = atan2(t.y - s.y, t.x - s.x); a drag that does not
   * move has angle 0.
   */
  predicate IsDragDirection(s: Point, t: Point, ux: real, uy: real)
  {
    var dx, dy := t.x - s.x, t.y - s.y;
    && ux * ux + uy * uy == 1.0
    && if dx == 0.0 && dy == 0.0 then ux == 1.0 && uy == 0.0
       else ux * dy == uy * dx && ux * dx + uy * dy > 0.0
  }

  /**
   * The finished arrow's path: the shaft from `s` to `t`, then two wings from
   * the tip to the points 18 back along the shaft and 9 to either side.
   */
  function ArrowPath(s: Point, t: Point, ux: real, uy: real): (cmds: seq<PathCmd>)
    ensures |cmds| == 6 && cmds[0] == MoveTo(s) && cmds[1] == LineTo(t)
    ensures cmds[2] == MoveTo(t) && cmds[4] == MoveTo(t) && cmds[3].LineTo? && cmds[5].LineTo?
  {
    var hx, hy := t.x - Head * ux, t.y - Head * uy;
    var nx, ny := -uy, ux;
    var wing := Head / 2.0;
    [MoveTo(s), LineTo(t),
     MoveTo(t), LineTo(Point(hx + wing * nx, hy + wing * ny)),
     MoveTo(t), LineTo(Point(hx - wing * nx, hy - wing * ny))]
  }

  /** The wing tips are (tx - 18ux - 9uy, ty - 18uy + 9ux) and (tx - 18ux + 9uy, ty - 18uy - 9ux). */
  lemma WingTips(s: Point, t: Point, ux: real, uy: real)
    ensures ArrowPath(s, t, ux, uy)[3].p == Point(t.x - 18.0 * ux - 9.0 * uy, t.y - 18.0 * uy + 9.0 * ux)
    ensures ArrowPath(s, t, ux, uy)[5].p == Point(t.x - 18.0 * ux + 9.0 * uy, t.y - 18.0 * uy - 9.0 * ux)
  {
  }

  /**
   * For a unit direction the arrowhead has the same shape whatever the
   * direction: each wing is at squared distance 18^2 + 9^2 from the tip, the
   * wings are symmetric about the shaft (their midpoint lies 18 back on it and
   * the segment between them is perpendicular to it) and 18 apart.
   */
  lemma {:induction false} WingGeometry(s: Point, t: Point, ux: real, uy: real)
    requires ux * ux + uy * uy == 1.0
    ensures var cmds := ArrowPath(s, t, ux, uy);
            var w1, w2 := cmds[3].p, cmds[5].p;
            && (t.x - w1.x) * (t.x - w1.x) + (t.y - w1.y) * (t.y - w1.y) == 405.0
            && (t.x - w2.x) * (t.x - w2.x) + (t.y - w2.y) * (t.y - w2.y) == 405.0
            && (w1.x + w2.x) / 2.0 == t.x - 18.0 * ux && (w1.y + w2.y) / 2.0 == t.y - 18.0 * uy
            && (w1.x - w2.x) * ux + (w1.y - w2.y) * uy == 0.0
            && (w1.x - w2.x) * (w1.x - w2.x) + (w1.y - w2.y) * (w1.y - w2.y) == 324.0
  {
    WingTips(s, t, ux, uy);
    var ax, ay := 18.0 * ux + 9.0 * uy, 18.0 * uy - 9.0 * ux;
    var cx, cy := 18.0 * ux - 9.0 * uy, 18.0 * uy + 9.0 * ux;
    assert ax * ax + ay * ay == 405.0 * (ux * ux + uy * uy);
    assert cx * cx + cy * cy == 405.0 * (ux * ux + uy * uy);
    assert (18.0 * uy) * (18.0 * uy) + (18.0 * ux) * (18.0 * ux) == 324.0 * (ux * ux + uy * uy);
  }

  /** A drag from (0,0) to (100,0) ends in wings at (82,9) and (82,-9). */
  lemma HorizontalArrowExample()
    ensures IsDragDirection(Point(0.0, 0.0), Point(100.0, 0.0), 1.0, 0.0)
    ensures ArrowPath(Point(0.0, 0.0), Point(100.0, 0.0), 1.0, 0.0)[3].p == Point(82.0, 9.0)
    ensures ArrowPath(Point(0.0, 0.0), Point(100.0, 0.0), 1.0, 0.0)[5].p == Point(82.0, -9.0)
  {
  }

  /**
   * Dragging the default arrow's shaft left to right draws the default
   * arrow's path, with the two wings listed in the other order.
   */
  lemma DragArrowMatchesDefault(left: real, top: real)
    ensures var d := ArrowAt(left, top);
            ArrowPath(Point(left - HalfLength, top), Point(left + HalfLength, top), 1.0, 0.0) == d[3 := d[5]][5 := d[3]]
  {
  }

  /** The arrow a drag creates: a plain path with no `arrow` tag. */
  function DragArrow(s: Point, t: Point, ux: real, uy: real): (o: Obj)
    ensures o.shape == Path(ArrowPath(s, t, ux, uy)) && o.name == ""
    ensures o.fill == Transparent && o.stroke == Black && o.strokeWidth == DefaultStrokeWidth
    ensures o.left == 0.0 && o.top == 0.0 && o.origin == TopLeft && o.scaleX == o.scaleY == 1.0
  {
    LibraryObject(Path(ArrowPath(s, t, ux, uy))).(stroke := Black, strokeWidth := DefaultStrokeWidth, fill := Transparent)
  }

  /**
   * A drag-drawn arrow is not tagged, so a style change treats it as a plain
   * shape: a fill change is written to it, unlike on the default arrow.
   */
  lemma DragArrowTakesFill(s: Point, t: Point, ux: real, uy: real, c: string)
    ensures !StrokeOnly(DragArrow(s, t, ux, uy))
    ensures Restyled(DragArrow(s, t, ux, uy), Fill(c)) == DragArrow(s, t, ux, uy).(fill := c)
    ensures StrokeOnly(Styled(Path(ArrowAt(s.x, s.y)), s.x, s.y).(name := "arrow"))
  {
  }

  /** JavaScript's `x || 1` on a number: zero is falsy. */
  function OrOne(x: real): (r: real)
    ensures x != 0.0 ==> r == x
    ensures x == 0.0 ==> r == 1.0
    ensures r != 0.0
  {
    if x == 0.0 then 1.0 else x
  }

  /**
   * The "cover" scale of a w x h image on a cw x ch canvas: the larger of the
   * two axis ratios, so that the scaled image reaches the canvas edge on one
   * axis and overflows (or reaches) it on the other.
   */
  function CoverScale(cw: real, ch: real, w: real, h: real): (scale: real)
    requires w >= 0.0 && h >= 0.0
    ensures scale * OrOne(w) >= cw && scale * OrOne(h) >= ch
    ensures scale * OrOne(w) == cw || scale * OrOne(h) == ch
  {
    var sx := cw / OrOne(w);
    var sy := ch / OrOne(h);
    assert sx * OrOne(w) == cw && sy * OrOne(h) == ch;
    if sx >= sy then
      assert sx * OrOne(h) >= sy * OrOne(h);
      sx
    else
      assert sy * OrOne(w) >= sx * OrOne(w);
      sy
  }

  /** The decoded image, centred on the canvas and scaled to cover it. */
  function CoverImage(url: string, w: real, h: real, cw: real, ch: real): (o: Obj)
    requires w >= 0.0 && h >= 0.0
    ensures o.shape == Image(url, w, h) && o.origin == Center
    ensures 2.0 * o.left == cw && 2.0 * o.top == ch
    ensures o.scaleX == o.scaleY == CoverScale(cw, ch, w, h)
    ensures o.fill == LibraryFill && o.strokeWidth == 0.0 && o.name == ""
  {
    var scale := CoverScale(cw, ch, w, h);
    LibraryObject(Image(url, w, h)).(strokeWidth := 0.0, left := cw / 2.0, top := ch / 2.0,
                                     origin := Center, scaleX := scale, scaleY := scale)
  }

  /** An image with a nonzero size placed by `CoverImage` covers the whole canvas. */
  lemma {:induction false} ImageCoversCanvas(url: string, w: real, h: real, cw: real, ch: real)
    requires w > 0.0 && h > 0.0
    ensures var o := CoverImage(url, w, h, cw, ch);
            && o.left - o.scaleX * w / 2.0 <= 0.0 && cw <= o.left + o.scaleX * w / 2.0
            && o.top - o.scaleY * h / 2.0 <= 0.0 && ch <= o.top + o.scaleY * h / 2.0
  {
    var scale := CoverScale(cw, ch, w, h);
    assert scale * w >= cw && scale * h >= ch;
  }

  datatype ArrowKey = ArrowUp | ArrowDown | ArrowLeft | ArrowRight

  /** The opposite arrow key. */
  function Opposite(k: ArrowKey): ArrowKey
  {
    match k
    case ArrowUp => ArrowDown
    case ArrowDown => ArrowUp
    case ArrowLeft => ArrowRight
    case ArrowRight => ArrowLeft
  }

  /** 10 with Shift held, 1 otherwise. */
  function NudgeStep(shift: bool): (r: real)
    ensures r > 0.0
    ensures shift <==> r == 10.0
    ensures !shift <==> r == 1.0
  {
    if shift then 10.0 else 1.0
  }

  /** The displacement one key press applies (y grows downwards). */
  function NudgeDelta(key: ArrowKey, shift: bool): (d: (real, real))
    ensures d.0 == 0.0 <==> d.1 != 0.0
    ensures d.0 * d.0 + d.1 * d.1 == NudgeStep(shift) * NudgeStep(shift)
    ensures d.0 < 0.0 <==> key == ArrowLeft
    ensures d.0 > 0.0 <==> key == ArrowRight
    ensures d.1 < 0.0 <==> key == ArrowUp
    ensures d.1 > 0.0 <==> key == ArrowDown
  {
    var step := NudgeStep(shift);
    match key
    case ArrowLeft => (-step, 0.0)
    case ArrowRight => (step, 0.0)
    case ArrowUp => (0.0, -step)
    case ArrowDown => (0.0, step)
  }

  /** The opposite key undoes a nudge's displacement. */
  lemma OppositeCancels(key: ArrowKey, shift: bool)
    ensures NudgeDelta(Opposite(key), shift).0 == -NudgeDelta(key, shift).0
    ensures NudgeDelta(Opposite(key), shift).1 == -NudgeDelta(key, shift).1
  {
  }

  /** An object moved by (dx, dy): a line by both endpoints, anything else by its position. */
  function Nudged(o: Obj, dx: real, dy: real): (r: Obj)
    ensures r.id == o.id && TypeOf(r.shape) == TypeOf(o.shape)
    ensures r.fill == o.fill && r.stroke == o.stroke && r.strokeWidth == o.strokeWidth && r.opacity == o.opacity
    ensures o.shape.Line? ==>
              && r.left == o.left && r.top == o.top
              && r.shape.x2 - r.shape.x1 == o.shape.x2 - o.shape.x1
              && r.shape.y2 - r.shape.y1 == o.shape.y2 - o.shape.y1
              && r.shape.x1 == o.shape.x1 + dx && r.shape.y1 == o.shape.y1 + dy
    ensures !o.shape.Line? ==> r.shape == o.shape && r.left == o.left + dx && r.top == o.top + dy
  {
    if TypeOf(o.shape) == "line" then
      o.(shape := Line(o.shape.x1 + dx, o.shape.y1 + dy, o.shape.x2 + dx, o.shape.y2 + dy))
    else
      o.(left := o.left + dx, top := o.top + dy)
  }

  /** A key press followed by the opposite key press returns the object to where it was. */
  lemma NudgeThenOpposite(o: Obj, key: ArrowKey, shift: bool)
    ensures var d, e := NudgeDelta(key, shift), NudgeDelta(Opposite(key), shift);
            Nudged(Nudged(o, d.0, d.1), e.0, e.1) == o
  {
    OppositeCancels(key, shift);
  }

  /**
   * `o` is the shape the click tool `kind` places at `p`: the ten-vertex
   * star, the heart path at scale 2, or the six-vertex hexagon, each with the
   * creators' common style.
   */
  ghost predicate ClickShape(kind: string, p: Point, o: Obj)
  {
    if kind == "star" then
      && o.shape.Polygon? && |o.shape.points| == 10
      && o == Styled(o.shape, p.x, p.y).(id := o.id)
      && forall i :: 0 <= i < 10 ==> o.shape.points[i] == SinNegCos(if i % 2 == 0 then 80.0 else 40.0, i, 5)
    else if kind == "heart" then
      o == Styled(Path(HeartPath), p.x, p.y).(id := o.id, scaleX := 2.0, scaleY := 2.0)
    else
      && o.shape.Polygon? && |o.shape.points| == 6
      && o == Styled(o.shape, p.x, p.y).(id := o.id)
      && forall i :: 0 <= i < 6 ==> o.shape.points[i] == CosSin(80.0, i, 3)
  }

  /** A click tool's shape placed at `p` (the star, heart or hexagon creator). */
  method CreateAt(canvas: Canvas, kind: string, p: Point) returns (o: Obj)
    requires canvas.Valid() && kind in ClickModes
    modifies canvas
    ensures canvas.Valid() && Placed(canvas, old(canvas.objects), o) && canvas.nextId > old(canvas.nextId)
    ensures canvas.Setting() == old(canvas.Setting())
    ensures o.left == p.x && o.top == p.y
    ensures TypeOf(o.shape) == (if kind == "heart" then "path" else "polygon")
    ensures ClickShape(kind, p, o)
  {
    if kind == "star" {
      o := CreateStar(canvas, p.x, p.y);
    } else if kind == "heart" {
      o := CreateHeart(canvas, p.x, p.y);
    } else {
      o := CreateHexagon(canvas, p.x, p.y);
    }
  }

  /** The identities `temp` names: none, or the one temporary object. */
  function TempIds(temp: Option<nat>): set<nat>
  {
    if temp.Some? then {temp.value} else {}
  }

  /** Adds the finished arrow, removes the temporary line and selects the arrow. */
  method FinishArrow(canvas: Canvas, arrow: Obj, temp: Option<nat>) returns (added: Obj)
    requires canvas.Valid() && (temp.Some? ==> temp.value < canvas.nextId)
    modifies canvas
    ensures canvas.Valid() && canvas.nextId > old(canvas.nextId)
    ensures added == arrow.(id := old(canvas.nextId))
    ensures canvas.objects == Without(old(canvas.objects) + [added], TempIds(temp))
    ensures added in canvas.objects && canvas.active == [added.id]
    ensures canvas.Setting() == old(canvas.Setting())
  {
    added := canvas.Add(arrow);
    if temp.Some? {
      canvas.Remove(temp.value);
    } else {
      WithoutAbsent(canvas.objects, {});
    }
    canvas.SetActiveObject(added.id);
  }

  /**
   * The pointer handlers' drag record (the tool being drawn, the press point
   * and the temporary object), over the store and the canvas they act on.
   */
  class Drawing {
    const store: CanvasStore
    const canvas: Canvas
    /** The tool being drawn; empty while idle. */
    var mode: string
    var startX: real
    var startY: real
    /** The temporary object that follows the pointer. */
    var temp: Option<nat>

    ghost predicate Valid()
      reads this, store, canvas
    {
      && store.canvas == canvas
      && store.Valid()
      && canvas.Valid()
      && (temp.Some? ==> temp.value < canvas.nextId)
    }

    constructor (store: CanvasStore, canvas: Canvas)
      requires store.canvas == canvas && store.Valid()
      ensures Valid() && this.store == store && this.canvas == canvas
      ensures mode == "" && startX == 0.0 && startY == 0.0 && temp == None
    {
      this.store := store;
      this.canvas := canvas;
      mode := "";
      startX, startY := 0.0, 0.0;
      temp := None;
    }

    /**
     * Pointer press at `p`. A pending shape wins over a pending image: a drag
     * tool starts a drag with an empty temporary object, a click tool places
     * its shape and clears the pending shape. Otherwise a pending image is
     * handed to the decoder (the returned URL); its placement is `ImageLoaded`.
     */
    method MouseDown(p: Point) returns (decode: Option<string>)
      requires Valid()
      modifies this, canvas, store`pendingShapeType
      ensures Valid()
      ensures store.Cursor() == old(store.Cursor()) && store.pendingImageUrl == old(store.pendingImageUrl)
      ensures canvas.Setting() == old(canvas.Setting())
      ensures old(store.pendingShapeType) == "" ==>
                && unchanged(this) && unchanged(canvas) && store.pendingShapeType == ""
                && decode == (if old(store.pendingImageUrl) != "" then Some(old(store.pendingImageUrl)) else None)
      ensures old(store.pendingShapeType) != "" ==>
                decode == None && mode == old(store.pendingShapeType) && startX == p.x && startY == p.y
      ensures old(store.pendingShapeType) in DragModes ==>
                && temp == Some(old(canvas.nextId))
                && canvas.objects == old(canvas.objects) + [TempShape(mode, p).(id := old(canvas.nextId))]
                && canvas.active == old(canvas.active)
                && store.pendingShapeType == old(store.pendingShapeType)
      ensures old(store.pendingShapeType) in ClickModes ==>
                && temp == old(temp) && store.pendingShapeType == ""
                && |canvas.objects| == |old(canvas.objects)| + 1
                && Placed(canvas, old(canvas.objects), canvas.objects[|old(canvas.objects)|])
                && canvas.objects[|old(canvas.objects)|].left == p.x
                && canvas.objects[|old(canvas.objects)|].top == p.y
                && TypeOf(canvas.objects[|old(canvas.objects)|].shape) == (if mode == "heart" then "path" else "polygon")
                && ClickShape(mode, p, canvas.objects[|old(canvas.objects)|])
      ensures old(store.pendingShapeType) != "" && old(store.pendingShapeType) !in DragModes + ClickModes ==>
                && temp == old(temp) && unchanged(canvas)
                && store.pendingShapeType == old(store.pendingShapeType)
    {
      var pendingShape := store.pendingShapeType;
      var pendingUrl := store.pendingImageUrl;
      if pendingShape != "" {
        mode := pendingShape;
        startX, startY := p.x, p.y;
        if pendingShape in DragModes {
          var added := canvas.Add(TempShape(pendingShape, p));
          temp := Some(added.id);
        } else if pendingShape in ClickModes {
          var _ := CreateAt(canvas, pendingShape, p);
          store.SetPendingShapeType("");
        }
        return None;
      }
      if pendingUrl != "" {
        return Some(pendingUrl);
      }
      return None;
    }

    /** Pointer move to `p`: reshapes the temporary object while a drag is in progress. */
    method MouseMove(p: Point)
      requires Valid()
      modifies canvas`objects
      ensures Valid()
      ensures mode == "" || temp.None? || IndexOfId(old(canvas.objects), temp.value).None? ==>
                canvas.objects == old(canvas.objects)
      ensures mode != "" && temp.Some? && IndexOfId(old(canvas.objects), temp.value).Some? ==>
                var i := IndexOfId(old(canvas.objects), temp.value).value;
                canvas.objects == old(canvas.objects)[i := Resized(old(canvas.objects)[i], mode, Point(startX, startY), p)]
    {
      if mode == "" || temp.None? {
        return;
      }
      var i := IndexOfId(canvas.objects, temp.value);
      if i.None? {
        return;
      }
      canvas.Update(i.value, Resized(canvas.objects[i.value], mode, Point(startX, startY), p));
    }

    /**
     * Pointer release at `p`, with `(ux, uy)` the unit direction of the drag.
     * Ends a drag: an arrow replaces its temporary line by the arrow path and
     * selects it; every tool then returns to idle, clears the pending shape
     * and snapshots once.
     */
    method MouseUp(p: Point, ux: real, uy: real)
      requires Valid()
      requires mode == "arrow" ==> IsDragDirection(Point(startX, startY), p, ux, uy)
      modifies this, canvas, store`pendingShapeType, store`history, store`historyStep, store`canUndo,
               store`canRedo, store`storedCanvas, store`storedBackground
      ensures Valid()
      ensures canvas.Setting() == old(canvas.Setting())
      ensures old(mode) == "" ==> unchanged(this) && unchanged(canvas) && unchanged(store)
      ensures old(mode) != "" ==>
                && mode == "" && startX == 0.0 && startY == 0.0 && temp == None
                && store.pendingShapeType == ""
                && store.Cursor() == Record(old(store.Cursor()), canvas.ToJSON())
                && store.storedCanvas == Some(canvas.ToJSON())
                && store.storedBackground == OrElse(canvas.backgroundColor, DefaultBackground)
      ensures old(mode) != "" && old(mode) != "arrow" ==> unchanged(canvas)
      ensures old(mode) == "arrow" ==>
                var arrow := DragArrow(Point(old(startX), old(startY)), p, ux, uy).(id := old(canvas.nextId));
                && canvas.objects == Without(old(canvas.objects) + [arrow], TempIds(old(temp)))
                && arrow in canvas.objects
                && canvas.active == [arrow.id]
    {
      if mode == "" {
        return;
      }
      if mode == "arrow" {
        var _ := FinishArrow(canvas, DragArrow(Point(startX, startY), p, ux, uy), temp);
      }
      mode := "";
      startX, startY := 0.0, 0.0;
      temp := None;
      store.SetPendingShapeType("");
      store.SaveState();
    }

    /**
     * The decoder's callback for the image at `url`, of natural size w x h:
     * places it centred and cover-scaled, selects it, snapshots and clears the
     * pending image.
     */
    method ImageLoaded(url: string, w: real, h: real)
      requires Valid() && w >= 0.0 && h >= 0.0
      modifies canvas, store`pendingImageUrl, store`history, store`historyStep, store`canUndo,
               store`canRedo, store`storedCanvas, store`storedBackground
      ensures Valid()
      ensures var img := CoverImage(url, w, h, old(canvas.width), old(canvas.height)).(id := old(canvas.nextId));
              Placed(canvas, old(canvas.objects), img)
      ensures canvas.Setting() == old(canvas.Setting())
      ensures store.Cursor() == Record(old(store.Cursor()), canvas.ToJSON())
      ensures store.storedCanvas == Some(canvas.ToJSON())
      ensures store.storedBackground == OrElse(canvas.backgroundColor, DefaultBackground)
      ensures store.pendingImageUrl == ""
    {
      var img := canvas.Add(CoverImage(url, w, h, canvas.width, canvas.height));
      canvas.SetActiveObject(img.id);
      store.SaveState();
      store.SetPendingImageUrl("");
    }

    /**
     * An arrow key press: moves the single active object by one step (see
     * `NudgeDelta` and `Nudged`), snapshots and re-selects it; without an
     * active object nothing changes.
     */
    method Nudge(key: ArrowKey, shift: bool)
      requires Valid()
      modifies canvas`objects, store`selectedObject, store`history, store`historyStep, store`canUndo,
               store`canRedo, store`storedCanvas, store`storedBackground
      ensures Valid()
      ensures old(canvas.GetActiveObject()).None? || IndexOfId(old(canvas.objects), old(canvas.GetActiveObject()).value).None? ==>
                unchanged(canvas) && unchanged(store)
      ensures old(canvas.GetActiveObject()).Some? && IndexOfId(old(canvas.objects), old(canvas.GetActiveObject()).value).Some? ==>
                var id := old(canvas.GetActiveObject()).value;
                var i := IndexOfId(old(canvas.objects), id).value;
                var d := NudgeDelta(key, shift);
                && canvas.objects == old(canvas.objects)[i := Nudged(old(canvas.objects)[i], d.0, d.1)]
                && store.Cursor() == Record(old(store.Cursor()), canvas.ToJSON())
                && store.storedCanvas == Some(canvas.ToJSON())
                && store.storedBackground == OrElse(canvas.backgroundColor, DefaultBackground)
                && store.selectedObject == Some(id)
    {
      var active := canvas.GetActiveObject();
      if active.None? {
        return;
      }
      var i := IndexOfId(canvas.objects, active.value);
      if i.None? {
        return;
      }
      var d := NudgeDelta(key, shift);
      canvas.Update(i.value, Nudged(canvas.objects[i.value], d.0, d.1));
      store.SaveState();
      store.SetSelectedObject(Some(active.value));
    }
  }
}

/**
 * The default shapes the editor can place: each creator builds one object
 * with the common style (transparent fill, black stroke of width 2, centred
 * on the given point), appends it to the canvas and makes it the active
 * object.
 */
module Shapes {
  import opened SceneGraph

  /** Half the length of a default line or arrow shaft. */
  const HalfLength: real := 100.0
  /** Length of an arrowhead wing measured along the shaft. */
  const Head: real := 18.0

  /** A shape with the creators' common style, centred on (left, top). */
  function Styled(shape: Shape, left: real, top: real): Obj
  {
    Obj(0, shape, "", left, top, Center, 1.0, 1.0, Transparent, Black, DefaultStrokeWidth, 1.0)
  }

  /** `o` was appended on top of `before` under a fresh identity and is the only active object. */
  ghost predicate Placed(c: Canvas, before: seq<Obj>, o: Obj)
    reads c
  {
    && c.objects == before + [o]
    && c.active == [o.id]
    && (forall p :: p in before ==> p.id != o.id)
  }

  /** Adds `o` to the canvas and makes it the active object. */
  method Place(canvas: Canvas, o: Obj) returns (added: Obj)
    requires canvas.Valid()
    modifies canvas
    ensures canvas.Valid() && Placed(canvas, old(canvas.objects), added) && canvas.nextId > old(canvas.nextId)
    ensures added == o.(id := old(canvas.nextId))
    ensures canvas.Setting() == old(canvas.Setting())
  {
    added := canvas.Add(o);
    canvas.SetActiveObject(added.id);
  }

  /** The default line: horizontal, 200 long, with its midpoint on (left, top). */
  function LineAt(left: real, top: real): (s: Shape)
    ensures s.Line? && s.y1 == top && s.y2 == top
    ensures s.x2 - s.x1 == 2.0 * HalfLength
    ensures (s.x1 + s.x2) / 2.0 == left
  {
    Line(left - HalfLength, top, left + HalfLength, top)
  }

  /**
   * The default arrow path: a horizontal shaft centred on (left, top) and two
   * wings from the tip back 18 along the shaft and 9 to either side.
   */
  function ArrowAt(left: real, top: real): (cmds: seq<PathCmd>)
    ensures |cmds| == 6
    ensures cmds[0] == MoveTo(Point(left - HalfLength, top)) && cmds[1] == LineTo(Point(left + HalfLength, top))
    ensures forall k :: k in {2, 4} ==> cmds[k] == MoveTo(cmds[1].p)
    ensures cmds[3].LineTo? && cmds[5].LineTo?
    ensures cmds[3].p.x == cmds[5].p.x == cmds[1].p.x - Head
    ensures cmds[3].p.y == top - Head / 2.0 && cmds[5].p.y == top + Head / 2.0
  {
    var x1, y1 := left - HalfLength, top;
    var x2, y2 := left + HalfLength, top;
    [MoveTo(Point(x1, y1)), LineTo(Point(x2, y2)),
     MoveTo(Point(x2, y2)), LineTo(Point(x2 - Head, y2 - Head / 2.0)),
     MoveTo(Point(x2, y2)), LineTo(Point(x2 - Head, y2 + Head / 2.0))]
  }

  /** The heart outline: four cubic curves, closed. */
  const HeartPath: seq<PathCmd> := [
    MoveTo(Point(0.0, -30.0)),
    CurveTo(Point(-20.0, -50.0), Point(-50.0, -50.0), Point(-50.0, -30.0)),
    CurveTo(Point(-50.0, -10.0), Point(-30.0, 10.0), Point(0.0, 30.0)),
    CurveTo(Point(30.0, 10.0), Point(50.0, -10.0), Point(50.0, -30.0)),
    CurveTo(Point(50.0, -50.0), Point(20.0, -50.0), Point(0.0, -30.0)),
    Close]

  /** The star's vertex loop: ten points, outer radius 80 at even and inner radius 40 at odd indices, at angle pi/5 * i. */
  method StarPoints() returns (points: seq<Vertex>)
    ensures |points| == 10
    ensures forall i :: 0 <= i < |points| ==> points[i].SinNegCos? && points[i].num == i && points[i].den == 5
    ensures forall i :: 0 <= i < |points| ==> points[i].radius == (if i % 2 == 0 then 80.0 else 40.0)
  {
    var spikes := 5;
    var outerRadius, innerRadius := 80.0, 40.0;
    points := [];
    for i := 0 to spikes * 2
      invariant |points| == i
      invariant forall j :: 0 <= j < i ==> points[j] == SinNegCos(if j % 2 == 0 then outerRadius else innerRadius, j, spikes)
    {
      var radius := if i % 2 == 0 then outerRadius else innerRadius;
      points := points + [SinNegCos(radius, i, spikes)];
    }
  }

  /** The hexagon's vertex loop: six points, all at radius 80, at angle pi/3 * i. */
  method HexagonPoints() returns (points: seq<Vertex>)
    ensures |points| == 6
    ensures forall i :: 0 <= i < |points| ==> points[i] == CosSin(80.0, i, 3)
  {
    var sides := 6;
    var radius := 80.0;
    points := [];
    for i := 0 to sides
      invariant |points| == i
      invariant forall j :: 0 <= j < i ==> points[j] == CosSin(radius, j, 3)
    {
      points := points + [CosSin(radius, i, 3)];
    }
  }

  method CreateRect(canvas: Canvas, left: real, top: real) returns (rect: Obj)
    requires canvas.Valid()
    modifies canvas
    ensures canvas.Valid() && Placed(canvas, old(canvas.objects), rect) && canvas.nextId > old(canvas.nextId)
    ensures canvas.Setting() == old(canvas.Setting())
    ensures rect == Styled(Rect(200.0, 150.0), left, top).(id := rect.id)
  {
    rect := Place(canvas, Styled(Rect(200.0, 150.0), left, top));
  }

  method CreateCircle(canvas: Canvas, left: real, top: real) returns (circle: Obj)
    requires canvas.Valid()
    modifies canvas
    ensures canvas.Valid() && Placed(canvas, old(canvas.objects), circle) && canvas.nextId > old(canvas.nextId)
    ensures canvas.Setting() == old(canvas.Setting())
    ensures circle == Styled(Circle(80.0), left, top).(id := circle.id)
  {
    circle := Place(canvas, Styled(Circle(80.0), left, top));
  }

  method CreateTriangle(canvas: Canvas, left: real, top: real) returns (triangle: Obj)
    requires canvas.Valid()
    modifies canvas
    ensures canvas.Valid() && Placed(canvas, old(canvas.objects), triangle) && canvas.nextId > old(canvas.nextId)
    ensures canvas.Setting() == old(canvas.Setting())
    ensures triangle == Styled(Triangle(150.0, 150.0), left, top).(id := triangle.id)
  {
    triangle := Place(canvas, Styled(Triangle(150.0, 150.0), left, top));
  }

  /** A line has no fill option, so it keeps the library's default fill. */
  method CreateLine(canvas: Canvas, left: real, top: real) returns (line: Obj)
    requires canvas.Valid()
    modifies canvas
    ensures canvas.Valid() && Placed(canvas, old(canvas.objects), line) && canvas.nextId > old(canvas.nextId)
    ensures canvas.Setting() == old(canvas.Setting())
    ensures line == Styled(LineAt(left, top), left, top).(id := line.id, fill := LibraryFill)
  {
    line := Place(canvas, Styled(LineAt(left, top), left, top).(fill := LibraryFill));
  }

  /** The arrow is one path tagged `arrow`, the tag the style reconciler routes on. */
  method CreateArrow(canvas: Canvas, left: real, top: real) returns (arrow: Obj)
    requires canvas.Valid()
    modifies canvas
    ensures canvas.Valid() && Placed(canvas, old(canvas.objects), arrow) && canvas.nextId > old(canvas.nextId)
    ensures canvas.Setting() == old(canvas.Setting())
    ensures arrow == Styled(Path(ArrowAt(left, top)), left, top).(id := arrow.id, name := "arrow")
  {
    arrow := Place(canvas, Styled(Path(ArrowAt(left, top)), left, top).(name := "arrow"));
  }

  method CreateStar(canvas: Canvas, left: real, top: real) returns (star: Obj)
    requires canvas.Valid()
    modifies canvas
    ensures canvas.Valid() && Placed(canvas, old(canvas.objects), star) && canvas.nextId > old(canvas.nextId)
    ensures canvas.Setting() == old(canvas.Setting())
    ensures star.shape.Polygon? && |star.shape.points| == 10
    ensures star == Styled(star.shape, left, top).(id := star.id)
    ensures forall i :: 0 <= i < 10 ==> star.shape.points[i] == SinNegCos(if i % 2 == 0 then 80.0 else 40.0, i, 5)
  {
    var points := StarPoints();
    star := Place(canvas, Styled(Polygon(points), left, top));
  }

  /** The heart is drawn at twice the size of its outline. */
  method CreateHeart(canvas: Canvas, left: real, top: real) returns (heart: Obj)
    requires canvas.Valid()
    modifies canvas
    ensures canvas.Valid() && Placed(canvas, old(canvas.objects), heart) && canvas.nextId > old(canvas.nextId)
    ensures canvas.Setting() == old(canvas.Setting())
    ensures heart == Styled(Path(HeartPath), left, top).(id := heart.id, scaleX := 2.0, scaleY := 2.0)
  {
    heart := Place(canvas, Styled(Path(HeartPath), left, top).(scaleX := 2.0, scaleY := 2.0));
  }

  method CreateHexagon(canvas: Canvas, left: real, top: real) returns (hexagon: Obj)
    requires canvas.Valid()
    modifies canvas
    ensures canvas.Valid() && Placed(canvas, old(canvas.objects), hexagon) && canvas.nextId > old(canvas.nextId)
    ensures canvas.Setting() == old(canvas.Setting())
    ensures hexagon.shape.Polygon? && |hexagon.shape.points| == 6
    ensures hexagon == Styled(hexagon.shape, left, top).(id := hexagon.id)
    ensures forall i :: 0 <= i < 6 ==> hexagon.shape.points[i] == CosSin(80.0, i, 3)
  {
    var points := HexagonPoints();
    hexagon := Place(canvas, Styled(Polygon(points), left, top));
  }
}

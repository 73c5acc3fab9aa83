/**
 * The scene graph of the cover editor: the objects a cover is made of, the
 * serialisable scene that the undo history stores, and the canvas that holds
 * the live objects.
 *
 * The canvas is the drawing library's canvas seen from the editor: an ordered
 * list of objects (index = paint order), a solid background colour and an
 * optional background image, the active (selected) objects, the viewport
 * transform and the canvas dimensions. Object identity is an `id` that the
 * canvas hands out when an object is added.
 */
module SceneGraph {

  datatype Option<T> = None | Some(value: T)

  /** Colours and widths that the editor gives every shape it creates. */
  const Transparent := "transparent"
  const Black := "#000000"
  const DefaultStrokeWidth: real := 2.0
  /** The background colour of a new canvas. */
  const DefaultBackground := "#f5f5f5"

  /** What the drawing library gives an object created without these options. */
  const LibraryFill := "rgb(0,0,0)"
  const LibraryStrokeWidth: real := 1.0

  /** JavaScript's `s || fallback` on a string: the empty string is falsy. */
  function OrElse(s: string, fallback: string): (r: string)
    ensures r == s || r == fallback
    ensures r == "" ==> fallback == ""
  {
    if s != "" then s else fallback
  }

  datatype Point = Point(x: real, y: real)

  /** One command of an SVG-like path, in absolute coordinates. */
  datatype PathCmd =
    | MoveTo(p: Point)
    | LineTo(p: Point)
    | CurveTo(c1: Point, c2: Point, p: Point)
    | Close

  /**
   * A polygon vertex in polar form about the shape's centre, at the angle
   * pi * num / den. The star uses (radius * sin a, -radius * cos a), the
   * hexagon (radius * cos a, radius * sin a); the Cartesian values are left to
   * the renderer.
   */
  datatype Vertex =
    | SinNegCos(radius: real, num: nat, den: nat)
    | CosSin(radius: real, num: nat, den: nat)

  /** Where `left`/`top` sit on the object (originX and originY are always set together). */
  datatype Origin = TopLeft | Center

  /** The variant part of a scene object. */
  datatype Shape =
    | Rect(width: real, height: real)
    | Ellipse(rx: real, ry: real)
    | Circle(radius: real)
    | Triangle(width: real, height: real)
    | Line(x1: real, y1: real, x2: real, y2: real)
    | Polygon(points: seq<Vertex>)
    | Path(commands: seq<PathCmd>)
    | Group(children: seq<Obj>)
    | Textbox(text: string, fontFamily: string, fontSize: real)
    | Image(src: string, naturalWidth: real, naturalHeight: real)

  /**
   * A scene object: identity, variant, the `name` tag, position, scale and the
   * style attributes. An empty colour string stands for an unset colour.
   */
  datatype Obj = Obj(
    id: nat,
    shape: Shape,
    name: string,
    left: real,
    top: real,
    origin: Origin,
    scaleX: real,
    scaleY: real,
    fill: string,
    stroke: string,
    strokeWidth: real,
    opacity: real)

  /** The drawing library's type tag of each variant. */
  function TypeOf(s: Shape): string
  {
    match s
    case Rect(_, _) => "rect"
    case Ellipse(_, _) => "ellipse"
    case Circle(_) => "circle"
    case Triangle(_, _) => "triangle"
    case Line(_, _, _, _) => "line"
    case Polygon(_) => "polygon"
    case Path(_) => "path"
    case Group(_) => "group"
    case Textbox(_, _, _) => "textbox"
    case Image(_, _, _) => "image"
  }

  /** An object with the drawing library's defaults for everything but its variant. */
  function LibraryObject(shape: Shape): Obj
  {
    Obj(0, shape, "", 0.0, 0.0, TopLeft, 1.0, 1.0, LibraryFill, "", LibraryStrokeWidth, 1.0)
  }

  /**
   * A serialised scene: what a history snapshot holds. Canvas dimensions are
   * not part of it.
   */
  datatype Scene = Scene(background: string, backgroundImage: Option<string>, objects: seq<Obj>)

  /** The position of the first object carrying `id`. */
  function IndexOfId(objs: seq<Obj>, id: nat): (r: Option<nat>)
    ensures r.Some? ==> r.value < |objs| && objs[r.value].id == id
    ensures r.Some? ==> forall j :: 0 <= j < r.value ==> objs[j].id != id
    ensures r.None? ==> forall j :: 0 <= j < |objs| ==> objs[j].id != id
  {
    if objs == [] then None
    else if objs[0].id == id then Some(0)
    else match IndexOfId(objs[1..], id)
      case None => None
      case Some(k) => Some(k + 1)
  }

  /** The objects whose identity is not in `ids`, in their paint order. */
  function Without(objs: seq<Obj>, ids: set<nat>): (r: seq<Obj>)
    ensures |r| <= |objs|
    ensures forall o :: o in r <==> o in objs && o.id !in ids
  {
    if objs == [] then []
    else if objs[0].id in ids then Without(objs[1..], ids)
    else [objs[0]] + Without(objs[1..], ids)
  }

  /** The identities listed in `ids`. */
  function IdsOf(ids: seq<nat>): set<nat>
  {
    set id | id in ids
  }

  /** Removing two identity sets one after the other removes their union. */
  lemma {:induction false} WithoutWithout(objs: seq<Obj>, a: set<nat>, b: set<nat>)
    ensures Without(Without(objs, a), b) == Without(objs, a + b)
  {
    if objs != [] {
      WithoutWithout(objs[1..], a, b);
    }
  }

  /** Removing identities that no object carries changes nothing. */
  lemma {:induction false} WithoutAbsent(objs: seq<Obj>, ids: set<nat>)
    requires forall o :: o in objs ==> o.id !in ids
    ensures Without(objs, ids) == objs
  {
    if objs != [] {
      assert objs[0] in objs;
      assert forall o :: o in objs[1..] ==> o in objs;
      WithoutAbsent(objs[1..], ids);
    }
  }

  /** Removal distributes over concatenation. */
  lemma {:induction false} WithoutAppend(a: seq<Obj>, b: seq<Obj>, ids: set<nat>)
    ensures Without(a + b, ids) == Without(a, ids) + Without(b, ids)
  {
    if a == [] {
      assert a + b == b;
    } else {
      assert (a + b)[1..] == a[1..] + b;
      WithoutAppend(a[1..], b, ids);
    }
  }

  /** An identity larger than every identity in `objs`. */
  function FreeId(objs: seq<Obj>): (r: nat)
    ensures forall o :: o in objs ==> o.id < r
  {
    if objs == [] then 0
    else
      var rest := FreeId(objs[1..]);
      assert forall o :: o in objs ==> o == objs[0] || o in objs[1..];
      if objs[0].id < rest then rest else objs[0].id + 1
  }

  const Identity: seq<real> := [1.0, 0.0, 0.0, 1.0, 0.0, 0.0]

  /** A canvas's size, background colour and image, and viewport transform. */
  datatype CanvasSetting = CanvasSetting(width: real, height: real, backgroundColor: string,
                                         backgroundImage: Option<string>, viewportTransform: Option<seq<real>>)

  /** What a raster export asks the renderer for. */
  datatype Raster = Raster(width: real, height: real, multiplier: real, viewport: seq<real>, content: Scene)

  /** The drawing library's canvas, reduced to what the editor reads and writes. */
  class Canvas {
    var width: real
    var height: real
    var backgroundColor: string
    var backgroundImage: Option<string>
    var objects: seq<Obj>
    /** Identities of the active (selected) objects. */
    var active: seq<nat>
    var viewportTransform: Option<seq<real>>
    /** The identity the next added object receives. */
    var nextId: nat

    /** Every object on the canvas has an identity below `nextId`. */
    ghost predicate Valid()
      reads this
    {
      forall o :: o in objects ==> o.id < nextId
    }

    constructor (width: real, height: real, backgroundColor: string)
      ensures Valid()
      ensures this.width == width && this.height == height
      ensures this.backgroundColor == backgroundColor && backgroundImage == None
      ensures objects == [] && active == [] && viewportTransform == Some(Identity)
    {
      this.width := width;
      this.height := height;
      this.backgroundColor := backgroundColor;
      backgroundImage := None;
      objects := [];
      active := [];
      viewportTransform := Some(Identity);
      nextId := 0;
    }

    /** The canvas's size, background and viewport, as one value. */
    function Setting(): CanvasSetting
      reads this
    {
      CanvasSetting(width, height, backgroundColor, backgroundImage, viewportTransform)
    }

    /** Serialises the scene (objects and background). */
    function ToJSON(): Scene
      reads this
    {
      Scene(backgroundColor, backgroundImage, objects)
    }

    /** Appends `o` on top of the paint order under a fresh identity. */
    method Add(o: Obj) returns (added: Obj)
      requires Valid()
      modifies this
      ensures Valid()
      ensures added == o.(id := old(nextId)) && objects == old(objects) + [added]
      ensures forall p :: p in old(objects) ==> p.id != added.id
      ensures nextId > old(nextId)
      ensures width == old(width) && height == old(height) && active == old(active)
      ensures backgroundColor == old(backgroundColor) && backgroundImage == old(backgroundImage)
      ensures viewportTransform == old(viewportTransform)
    {
      added := o.(id := nextId);
      objects := objects + [added];
      nextId := nextId + 1;
    }

    /** Removes the object carrying `id`, if any. */
    method Remove(id: nat)
      requires Valid()
      modifies this`objects
      ensures Valid()
      ensures objects == Without(old(objects), {id})
    {
      objects := Without(objects, {id});
    }

    /** Replaces the object at `i` by a new state of the same object. */
    method Update(i: nat, o: Obj)
      requires Valid() && i < |objects| && o.id == objects[i].id
      modifies this`objects
      ensures Valid()
      ensures objects == old(objects)[i := o]
    {
      assert objects[i] in objects;
      objects := objects[i := o];
    }

    method SetActiveObject(id: nat)
      modifies this`active
      ensures active == [id]
    {
      active := [id];
    }

    /** The single active object, if exactly one is active. */
    function GetActiveObject(): Option<nat>
      reads this
    {
      if |active| == 1 then Some(active[0]) else None
    }

    method DiscardActiveObject()
      modifies this`active
      ensures active == []
    {
      active := [];
    }

    /** Empties the canvas: objects, selection and both backgrounds; dimensions stay. */
    method Clear()
      requires Valid()
      modifies this`objects, this`active, this`backgroundColor, this`backgroundImage
      ensures Valid()
      ensures objects == [] && active == [] && backgroundColor == "" && backgroundImage == None
    {
      objects := [];
      active := [];
      backgroundColor := "";
      backgroundImage := None;
    }

    method SetDimensions(w: real, h: real)
      modifies this`width, this`height
      ensures width == w && height == h
    {
      width := w;
      height := h;
    }

    /** Replaces the scene wholesale by a snapshot; nothing of the old scene is merged in. */
    method LoadFromJSON(s: Scene)
      requires Valid()
      modifies this`objects, this`active, this`backgroundColor, this`backgroundImage, this`nextId
      ensures Valid()
      ensures ToJSON() == s && active == []
      ensures nextId >= old(nextId)
    {
      objects := s.objects;
      backgroundColor := s.background;
      backgroundImage := s.backgroundImage;
      active := [];
      var free := FreeId(s.objects);
      if free > nextId {
        nextId := free;
      }
    }

    method SetBackgroundImage(image: Option<string>)
      modifies this`backgroundImage
      ensures backgroundImage == image
    {
      backgroundImage := image;
    }

    method SetViewportTransform(vt: seq<real>)
      modifies this`viewportTransform
      ensures viewportTransform == Some(vt)
    {
      viewportTransform := Some(vt);
    }

    /** The raster request for the current scene under the current viewport transform. */
    function ToDataURL(w: real, h: real, multiplier: real): Raster
      reads this
    {
      Raster(w, h, multiplier,
             if viewportTransform.Some? then viewportTransform.value else Identity,
             ToJSON())
    }
  }
}

/**
 * The editor's store: the undo/redo history over scene snapshots, the
 * selection, the background colour, the pending tool, and the style
 * reconciler that routes a style change to a line, an arrow path, an arrow
 * group (line + arrowhead triangle) or a plain shape.
 */
module Store {
  import opened SceneGraph
  import opened History

  /** A style property and its new value, as the style panels send them. */
  datatype Prop =
    | Fill(color: string)
    | Stroke(color: string)
    | StrokeWidth(width: real)
    | Opacity(value: real)
    | FontFamily(family: string)
    | FontSize(size: real)

  /**
   * The drawing library's `set(property, value)`: writes one attribute. A font
   * property only exists on a textbox; on other objects it has no attribute to
   * land on in this model.
   */
  function Set(o: Obj, p: Prop): (r: Obj)
    ensures r.id == o.id && r.name == o.name && TypeOf(r.shape) == TypeOf(o.shape)
    ensures r.left == o.left && r.top == o.top
    ensures p.Fill? ==> r == o.(fill := p.color)
    ensures p.Stroke? ==> r == o.(stroke := p.color)
    ensures p.StrokeWidth? ==> r == o.(strokeWidth := p.width)
    ensures p.Opacity? ==> r == o.(opacity := p.value)
    ensures (p.FontFamily? || p.FontSize?) && !o.shape.Textbox? ==> r == o
    ensures p.FontFamily? && o.shape.Textbox? ==> r == o.(shape := o.shape.(fontFamily := p.family))
    ensures p.FontSize? && o.shape.Textbox? ==> r == o.(shape := o.shape.(fontSize := p.size))
  {
    match p
    case Fill(c) => o.(fill := c)
    case Stroke(c) => o.(stroke := c)
    case StrokeWidth(w) => o.(strokeWidth := w)
    case Opacity(v) => o.(opacity := v)
    case FontFamily(f) => if o.shape.Textbox? then o.(shape := o.shape.(fontFamily := f)) else o
    case FontSize(s) => if o.shape.Textbox? then o.(shape := o.shape.(fontSize := s)) else o
  }

  /** The first child whose type tag is `t` (the source's `_objects.find`). */
  function FindType(cs: seq<Obj>, t: string): (r: Option<nat>)
    ensures r.Some? ==> r.value < |cs| && TypeOf(cs[r.value].shape) == t
    ensures r.Some? ==> forall j :: 0 <= j < r.value ==> TypeOf(cs[j].shape) != t
    ensures r.None? <==> forall j :: 0 <= j < |cs| ==> TypeOf(cs[j].shape) != t
  {
    if cs == [] then None
    else if TypeOf(cs[0].shape) == t then Some(0)
    else match FindType(cs[1..], t)
      case None => None
      case Some(k) => Some(k + 1)
  }

  /** The search only looks at type tags. */
  lemma {:induction false} FindTypeByTags(cs: seq<Obj>, ds: seq<Obj>, t: string)
    requires |cs| == |ds|
    requires forall i :: 0 <= i < |cs| ==> TypeOf(cs[i].shape) == TypeOf(ds[i].shape)
    ensures FindType(cs, t) == FindType(ds, t)
  {
    if cs != [] {
      forall i | 0 <= i < |cs| - 1
        ensures TypeOf(cs[1..][i].shape) == TypeOf(ds[1..][i].shape)
      {
        assert cs[1..][i] == cs[i + 1] && ds[1..][i] == ds[i + 1];
      }
      FindTypeByTags(cs[1..], ds[1..], t);
      assert TypeOf(cs[0].shape) == TypeOf(ds[0].shape);
    }
  }

  /** One step of the group fill: every child except a line takes the colour. */
  function FillChild(child: Obj, c: string): Obj
  {
    if TypeOf(child.shape) != "line" then child.(fill := c) else child
  }

  /**
   * The children of a group after a fill change: the reference definition
   * that the loop `FillChildren` is proved to compute.
   */
  function FilledChildren(cs: seq<Obj>, c: string): (r: seq<Obj>)
    ensures |r| == |cs|
    ensures forall i :: 0 <= i < |cs| ==> TypeOf(r[i].shape) == TypeOf(cs[i].shape)
    ensures forall i :: 0 <= i < |cs| && TypeOf(cs[i].shape) == "line" ==> r[i] == cs[i]
    ensures forall i :: 0 <= i < |cs| && TypeOf(cs[i].shape) != "line" ==> r[i] == cs[i].(fill := c)
  {
    if cs == [] then [] else [FillChild(cs[0], c)] + FilledChildren(cs[1..], c)
  }

  /** The group fill loop over the children, in place; it computes `FilledChildren`. */
  method FillChildren(cs: seq<Obj>, c: string) returns (r: seq<Obj>)
    ensures r == FilledChildren(cs, c)
  {
    r := cs;
    var i := 0;
    while i < |r|
      invariant 0 <= i <= |r| == |cs|
      invariant forall j :: 0 <= j < i ==> r[j] == FillChild(cs[j], c)
      invariant forall j :: i <= j < |r| ==> r[j] == cs[j]
    {
      if TypeOf(r[i].shape) != "line" {
        r := r[i := r[i].(fill := c)];
      }
      i := i + 1;
    }
  }

  /** The in-place dispatch of `updateShapeStyle` on one object; it computes `Restyled`. */
  method Reconcile(obj: Obj, p: Prop) returns (updated: Obj)
    ensures updated == Restyled(obj, p)
  {
    updated := obj;
    if StrokeOnly(obj) {
      if p.Stroke? || p.StrokeWidth? || p.Opacity? {
        updated := Set(obj, p);
      }
    } else if obj.shape.Group? {
      var cs := obj.shape.children;
      var line := FindType(cs, "line");
      var triangle := FindType(cs, "triangle");
      if p.Stroke? && line.Some? {
        cs := cs[line.value := cs[line.value].(stroke := p.color)];
        if triangle.Some? {
          cs := cs[triangle.value := cs[triangle.value].(fill := p.color)];
        }
        updated := obj.(shape := Group(cs));
      } else if p.StrokeWidth? && line.Some? {
        cs := cs[line.value := cs[line.value].(strokeWidth := p.width)];
        updated := obj.(shape := Group(cs));
      } else if p.Opacity? {
        updated := obj.(opacity := p.value);
      } else if p.Fill? {
        cs := FillChildren(cs, p.color);
        updated := obj.(shape := Group(cs));
      }
    } else {
      updated := Set(obj, p);
    }
  }

  /** A line, or a path tagged `arrow`: only stroke properties apply. */
  predicate StrokeOnly(o: Obj)
    ensures StrokeOnly(o) <==> o.shape.Line? || (o.shape.Path? && o.name == "arrow")
  {
    TypeOf(o.shape) == "line" || (TypeOf(o.shape) == "path" && o.name == "arrow")
  }

  /**
   * The object after `updateShapeStyle(property, value)`: the reference
   * definition that `Reconcile` is proved to compute and the lemmas below use.
   */
  function Restyled(o: Obj, p: Prop): (r: Obj)
    ensures r.id == o.id && r.name == o.name && TypeOf(r.shape) == TypeOf(o.shape)
    ensures r.left == o.left && r.top == o.top && r.origin == o.origin
  {
    if StrokeOnly(o) then
      if p.Stroke? || p.StrokeWidth? || p.Opacity? then Set(o, p) else o
    else if o.shape.Group? then
      var cs := o.shape.children;
      var line := FindType(cs, "line");
      var tri := FindType(cs, "triangle");
      if p.Stroke? && line.Some? then
        var withLine := cs[line.value := cs[line.value].(stroke := p.color)];
        var withHead := if tri.Some? then withLine[tri.value := withLine[tri.value].(fill := p.color)] else withLine;
        o.(shape := Group(withHead))
      else if p.StrokeWidth? && line.Some? then
        o.(shape := Group(cs[line.value := cs[line.value].(strokeWidth := p.width)]))
      else if p.Opacity? then
        o.(opacity := p.value)
      else if p.Fill? then
        o.(shape := Group(FilledChildren(cs, p.color)))
      else
        o
    else
      Set(o, p)
  }

  /** A line or an arrow path ignores a fill change and a font change. */
  lemma StrokeOnlyIgnoresFill(o: Obj, p: Prop)
    requires StrokeOnly(o) && (p.Fill? || p.FontFamily? || p.FontSize?)
    ensures Restyled(o, p) == o
  {
  }

  /** A line or an arrow path takes stroke, stroke width and opacity directly. */
  lemma StrokeOnlyTakesStroke(o: Obj, p: Prop)
    requires StrokeOnly(o) && (p.Stroke? || p.StrokeWidth? || p.Opacity?)
    ensures Restyled(o, p) == Set(o, p)
  {
  }

  /** Any other non-group object gets the property written directly. */
  lemma PlainShapeTakesProperty(o: Obj, p: Prop)
    requires !StrokeOnly(o) && !o.shape.Group?
    ensures Restyled(o, p) == Set(o, p)
  {
  }

  /**
   * Arrow group, stroke: the first line child takes the colour, the first
   * triangle child's fill follows it, every other child and every attribute of
   * the group itself is left as it was.
   */
  lemma ArrowGroupStroke(o: Obj, c: string)
    requires o.shape.Group? && !StrokeOnly(o) && FindType(o.shape.children, "line").Some?
    ensures var r := Restyled(o, Stroke(c));
            var cs, rs := o.shape.children, r.shape.children;
            var line, tri := FindType(cs, "line").value, FindType(cs, "triangle");
            && r.shape.Group? && r == o.(shape := Group(rs)) && |rs| == |cs|
            && rs[line] == cs[line].(stroke := c)
            && (tri.Some? ==> rs[tri.value] == cs[tri.value].(fill := c))
            && (forall i :: 0 <= i < |cs| && i != line && (tri.None? || i != tri.value) ==> rs[i] == cs[i])
  {
  }

  /** Arrow group, stroke width: only the first line child changes. */
  lemma ArrowGroupStrokeWidth(o: Obj, w: real)
    requires o.shape.Group? && !StrokeOnly(o) && FindType(o.shape.children, "line").Some?
    ensures var r := Restyled(o, StrokeWidth(w));
            var cs, line := o.shape.children, FindType(o.shape.children, "line").value;
            r == o.(shape := Group(cs[line := cs[line].(strokeWidth := w)]))
  {
  }

  /** Arrow group, opacity: the group as a whole changes, no child does. */
  lemma ArrowGroupOpacity(o: Obj, v: real)
    requires o.shape.Group? && !StrokeOnly(o)
    ensures Restyled(o, Opacity(v)) == o.(opacity := v)
  {
  }

  /** Arrow group, fill: every child that is not a line takes the colour. */
  lemma ArrowGroupFill(o: Obj, c: string)
    requires o.shape.Group? && !StrokeOnly(o)
    ensures var r := Restyled(o, Fill(c));
            var cs := o.shape.children;
            && r == o.(shape := Group(r.shape.children)) && |r.shape.children| == |cs|
            && forall i :: 0 <= i < |cs| ==>
                 r.shape.children[i] == (if TypeOf(cs[i].shape) == "line" then cs[i] else cs[i].(fill := c))
  {
  }

  /** The arrowhead's fill equals the arrow line's stroke (when a group has both). */
  predicate Coupled(o: Obj)
  {
    o.shape.Group? ==>
      var line := FindType(o.shape.children, "line");
      var tri := FindType(o.shape.children, "triangle");
      line.Some? && tri.Some? ==> o.shape.children[tri.value].fill == o.shape.children[line.value].stroke
  }

  /** A stroke change on an arrow group couples the arrowhead to the line. */
  lemma StrokeCouples(o: Obj, c: string)
    requires o.shape.Group? && !StrokeOnly(o)
    requires FindType(o.shape.children, "line").Some?
    ensures Coupled(Restyled(o, Stroke(c)))
  {
    var r := Restyled(o, Stroke(c));
    FindTypeByTags(o.shape.children, r.shape.children, "line");
    FindTypeByTags(o.shape.children, r.shape.children, "triangle");
  }

  /** Every change except a fill keeps an arrow group's coupling. */
  lemma RestyleKeepsCoupling(o: Obj, p: Prop)
    requires Coupled(o) && !p.Fill?
    ensures Coupled(Restyled(o, p))
  {
    var r := Restyled(o, p);
    if o.shape.Group? && !StrokeOnly(o) {
      assert r.shape.Group?;
      FindTypeByTags(o.shape.children, r.shape.children, "line");
      FindTypeByTags(o.shape.children, r.shape.children, "triangle");
    }
  }

  /** A fill change on an arrow group recolours the arrowhead away from the line. */
  lemma FillUncouples()
    ensures var line := LibraryObject(Line(0.0, 0.0, 10.0, 0.0)).(stroke := Black);
            var head := LibraryObject(Triangle(4.0, 4.0)).(fill := Black);
            var arrow := LibraryObject(Group([line, head]));
            Coupled(arrow) && !Coupled(Restyled(arrow, Fill(Transparent)))
  {
    var line := LibraryObject(Line(0.0, 0.0, 10.0, 0.0)).(stroke := Black);
    var head := LibraryObject(Triangle(4.0, 4.0)).(fill := Black);
    var arrow := LibraryObject(Group([line, head]));
    var filled := [line, head.(fill := Transparent)];
    assert FindType([line, head], "line") == Some(0);
    assert FindType([line, head], "triangle") == Some(1);
    assert FilledChildren([line, head], Transparent) == filled;
    assert Restyled(arrow, Fill(Transparent)) == arrow.(shape := Group(filled));
    assert FindType(filled, "line") == Some(0);
    assert FindType(filled, "triangle") == Some(1);
  }

  /** The delete loop: removes from the canvas each object named in `ids`, in turn. */
  method RemoveEach(canvas: Canvas, ids: seq<nat>)
    requires canvas.Valid()
    modifies canvas`objects
    ensures canvas.Valid()
    ensures canvas.objects == Without(old(canvas.objects), IdsOf(ids))
  {
    WithoutAbsent(canvas.objects, {});
    assert IdsOf(ids[..0]) == {};
    var i := 0;
    while i < |ids|
      invariant 0 <= i <= |ids|
      invariant canvas.Valid()
      invariant canvas.objects == Without(old(canvas.objects), IdsOf(ids[..i]))
    {
      WithoutWithout(old(canvas.objects), IdsOf(ids[..i]), {ids[i]});
      assert ids[..i + 1] == ids[..i] + [ids[i]];
      assert IdsOf(ids[..i + 1]) == IdsOf(ids[..i]) + {ids[i]};
      canvas.Remove(ids[i]);
      i := i + 1;
    }
    assert ids[..i] == ids;
  }

  /**
   * The clearing sequence that starting a new canvas and resetting one share:
   * no objects, no selection, no background image, the given size and
   * background colour.
   */
  method Wipe(canvas: Canvas, width: real, height: real, background: string)
    requires canvas.Valid()
    modifies canvas`objects, canvas`active, canvas`backgroundColor, canvas`backgroundImage, canvas`width, canvas`height
    ensures canvas.Valid()
    ensures canvas.objects == [] && canvas.active == [] && canvas.backgroundImage == None
    ensures canvas.backgroundColor == background && canvas.width == width && canvas.height == height
  {
    canvas.Clear();
    canvas.SetDimensions(width, height);
    canvas.backgroundColor := background;
    canvas.SetBackgroundImage(None);
  }

  /** The zustand store of the editor. */
  class CanvasStore {
    var canvas: Canvas?
    /** Identity of the selected object. */
    var selectedObject: Option<nat>
    var backgroundColor: string
    var canvasWidth: real
    var canvasHeight: real
    var history: seq<Scene>
    var historyStep: int
    var canUndo: bool
    var canRedo: bool
    /** Empty while no image or shape is pending (null and "" are both falsy in the source). */
    var pendingImageUrl: string
    var pendingShapeType: string
    /** The durable key-value entries: the last snapshot and the last background colour ("" = absent). */
    var storedCanvas: Option<Scene>
    var storedBackground: string

    /** The history with its cursor. */
    function Cursor(): Timeline
      reads this
    {
      Timeline(history, historyStep)
    }

    /** The history is well formed, and the undo/redo flags agree with the cursor. */
    ghost predicate Valid()
      reads this, canvas
    {
      && Cursor().Valid()
      && canUndo == Cursor().CanUndo()
      && canRedo == Cursor().CanRedo()
      && (canvas != null ==> canvas.Valid())
    }

    /** The attached canvas as a set (empty while there is none), for the frames of the methods below. */
    function Attached(): set<Canvas>
      reads this
    {
      if canvas == null then {} else {canvas}
    }

    /** The position on the canvas of the selected object, if it is there. */
    function Target(): Option<nat>
      reads this, canvas
    {
      if canvas != null && selectedObject.Some? then IndexOfId(canvas.objects, selectedObject.value) else None
    }

    constructor (storedCanvas: Option<Scene>, storedBackground: string)
      ensures Valid()
      ensures canvas == null && selectedObject == None && backgroundColor == DefaultBackground
      ensures canvasWidth == 1920.0 && canvasHeight == 1080.0
      ensures Cursor() == Empty && !canUndo && !canRedo
      ensures pendingImageUrl == "" && pendingShapeType == ""
      ensures this.storedCanvas == storedCanvas && this.storedBackground == storedBackground
    {
      canvas := null;
      selectedObject := None;
      backgroundColor := DefaultBackground;
      canvasWidth, canvasHeight := 1920.0, 1080.0;
      history, historyStep := [], -1;
      canUndo, canRedo := false, false;
      pendingImageUrl, pendingShapeType := "", "";
      this.storedCanvas, this.storedBackground := storedCanvas, storedBackground;
    }

    method SetSelectedObject(id: Option<nat>)
      modifies this`selectedObject
      ensures selectedObject == id
    {
      selectedObject := id;
    }

    method SetPendingImageUrl(url: string)
      modifies this`pendingImageUrl
      ensures pendingImageUrl == url
    {
      pendingImageUrl := url;
    }

    method SetPendingShapeType(t: string)
      modifies this`pendingShapeType
      ensures pendingShapeType == t
    {
      pendingShapeType := t;
    }

    /**
     * Snapshots the live scene into the history (branch discard, append,
     * eviction past the capacity) and into the durable store. Without a canvas
     * it does nothing.
     */
    method SaveState()
      requires Valid()
      modifies this`history, this`historyStep, this`canUndo, this`canRedo, this`storedCanvas, this`storedBackground
      ensures Valid()
      ensures canvas == null ==> Cursor() == old(Cursor()) && storedCanvas == old(storedCanvas) && storedBackground == old(storedBackground)
      ensures canvas != null ==> Cursor() == Record(old(Cursor()), canvas.ToJSON())
      ensures canvas != null ==> storedCanvas == Some(canvas.ToJSON())
      ensures canvas != null ==> storedBackground == OrElse(canvas.backgroundColor, DefaultBackground)
    {
      if canvas == null {
        return;
      }
      var json := canvas.ToJSON();
      var newHistory := history[..historyStep + 1] + [json];
      if |newHistory| > Capacity {
        newHistory := newHistory[1..];
      }
      var newStep := |newHistory| - 1;
      history, historyStep := newHistory, newStep;
      canUndo, canRedo := newStep > 0, false;
      storedCanvas := Some(json);
      storedBackground := OrElse(canvas.backgroundColor, DefaultBackground);
    }

    /**
     * Restores the previous snapshot; a no-op without a canvas or at the
     * oldest entry. Loading a snapshot clears the canvas first, which drops
     * the active selection and, through the editor's `selection:cleared`
     * handler, the store's selection.
     */
    method Undo()
      requires Valid()
      modifies this`historyStep, this`canUndo, this`canRedo, this`backgroundColor, this`selectedObject,
               Attached()`objects, Attached()`active, Attached()`backgroundColor, Attached()`backgroundImage,
               Attached()`nextId
      ensures Valid()
      ensures old(canvas == null || historyStep <= 0) ==> unchanged(this) && (canvas != null ==> unchanged(canvas))
      ensures old(canvas != null && historyStep > 0) ==>
                && Cursor() == Undone(old(Cursor()))
                && canvas.ToJSON() == history[historyStep] && canRedo
                && canvas.active == [] && selectedObject == None
                && backgroundColor == OrElse(canvas.backgroundColor, DefaultBackground)
    {
      if canvas == null || historyStep <= 0 {
        return;
      }
      var newStep := historyStep - 1;
      canvas.LoadFromJSON(history[newStep]);
      selectedObject := None;
      historyStep := newStep;
      canUndo, canRedo := newStep > 0, true;
      backgroundColor := OrElse(canvas.backgroundColor, DefaultBackground);
    }

    /**
     * Restores the next snapshot; a no-op without a canvas or at the newest
     * entry. As with undo, the selection is dropped.
     */
    method Redo()
      requires Valid()
      modifies this`historyStep, this`canUndo, this`canRedo, this`backgroundColor, this`selectedObject,
               Attached()`objects, Attached()`active, Attached()`backgroundColor, Attached()`backgroundImage,
               Attached()`nextId
      ensures Valid()
      ensures old(canvas == null || historyStep >= |history| - 1) ==> unchanged(this) && (canvas != null ==> unchanged(canvas))
      ensures old(canvas != null && historyStep < |history| - 1) ==>
                && Cursor() == Redone(old(Cursor()))
                && canvas.ToJSON() == history[historyStep] && canUndo
                && (canRedo <==> historyStep < |history| - 1)
                && canvas.active == [] && selectedObject == None
                && backgroundColor == OrElse(canvas.backgroundColor, DefaultBackground)
    {
      if canvas == null || historyStep >= |history| - 1 {
        return;
      }
      var newStep := historyStep + 1;
      canvas.LoadFromJSON(history[newStep]);
      selectedObject := None;
      historyStep := newStep;
      canUndo, canRedo := true, newStep < |history| - 1;
      backgroundColor := OrElse(canvas.backgroundColor, DefaultBackground);
    }

    /** The state reset that starting a new canvas and resetting one share: no selection, nothing pending, an empty history. */
    method ForgetHistory()
      requires canvas != null ==> canvas.Valid()
      modifies this`selectedObject, this`history, this`historyStep, this`canUndo, this`canRedo,
               this`pendingImageUrl, this`pendingShapeType
      ensures Valid()
      ensures selectedObject == None && pendingImageUrl == "" && pendingShapeType == ""
      ensures Cursor() == Empty && !canUndo && !canRedo
    {
      selectedObject := None;
      history, historyStep := [], -1;
      canUndo, canRedo := false, false;
      pendingImageUrl, pendingShapeType := "", "";
    }

    /**
     * A new, empty canvas of the given size on the default background, with a
     * history that holds exactly its first snapshot.
     */
    method NewCanvas(width: real, height: real)
      requires Valid()
      modifies this`canvasWidth, this`canvasHeight, this`backgroundColor, this`selectedObject,
               this`pendingImageUrl, this`pendingShapeType,
               this`history, this`historyStep, this`canUndo, this`canRedo, this`storedCanvas, this`storedBackground,
               Attached()`objects, Attached()`active, Attached()`backgroundColor, Attached()`backgroundImage,
               Attached()`width, Attached()`height
      ensures Valid()
      ensures canvasWidth == width && canvasHeight == height && backgroundColor == DefaultBackground
      ensures selectedObject == None && pendingImageUrl == "" && pendingShapeType == ""
      ensures canvas == null ==> Cursor() == Empty && unchanged(this`storedCanvas, this`storedBackground)
      ensures canvas != null ==>
                && canvas.objects == [] && canvas.active == []
                && canvas.backgroundColor == DefaultBackground && canvas.backgroundImage == None
                && canvas.width == width && canvas.height == height
                && history == [canvas.ToJSON()] && historyStep == 0 && !canUndo && !canRedo
                && storedCanvas == Some(canvas.ToJSON()) && storedBackground == DefaultBackground
    {
      if canvas != null {
        Wipe(canvas, width, height, DefaultBackground);
      }
      canvasWidth, canvasHeight := width, height;
      backgroundColor := DefaultBackground;
      ForgetHistory();
      SaveState();
    }

    /**
     * Empties the current canvas, keeping its size and background colour, with
     * a history that holds exactly the emptied scene.
     */
    method ResetCanvas()
      requires Valid()
      modifies this`selectedObject, this`pendingImageUrl, this`pendingShapeType,
               this`history, this`historyStep, this`canUndo, this`canRedo, this`storedCanvas, this`storedBackground,
               Attached()`objects, Attached()`active, Attached()`backgroundColor, Attached()`backgroundImage,
               Attached()`width, Attached()`height
      ensures Valid()
      ensures selectedObject == None && pendingImageUrl == "" && pendingShapeType == ""
      ensures canvas == null ==> Cursor() == Empty && unchanged(this`storedCanvas, this`storedBackground)
      ensures canvas != null ==>
                && canvas.objects == [] && canvas.active == []
                && canvas.backgroundColor == OrElse(backgroundColor, DefaultBackground)
                && canvas.backgroundImage == None
                && canvas.width == canvasWidth && canvas.height == canvasHeight
                && history == [canvas.ToJSON()] && historyStep == 0 && !canUndo && !canRedo
                && storedCanvas == Some(canvas.ToJSON()) && storedBackground == canvas.backgroundColor
    {
      if canvas != null {
        Wipe(canvas, canvasWidth, canvasHeight, OrElse(backgroundColor, DefaultBackground));
      }
      ForgetHistory();
      SaveState();
    }

    /** Sets the background colour, snapshotting the canvas when there is one. */
    method SetBackgroundColor(color: string)
      requires Valid()
      modifies this`backgroundColor,
               this`history, this`historyStep, this`canUndo, this`canRedo, this`storedCanvas, this`storedBackground,
               Attached()`backgroundColor
      ensures Valid() && backgroundColor == color
      ensures canvas == null ==> Cursor() == old(Cursor()) && unchanged(this`storedCanvas, this`storedBackground)
      ensures canvas != null ==>
                && canvas.backgroundColor == color
                && Cursor() == Record(old(Cursor()), canvas.ToJSON())
                && storedCanvas == Some(canvas.ToJSON()) && storedBackground == OrElse(color, DefaultBackground)
    {
      if canvas != null {
        canvas.backgroundColor := color;
        SaveState();
      }
      backgroundColor := color;
    }

    /** Resizes the canvas, snapshotting it when there is one. */
    method SetCanvasSize(width: real, height: real)
      requires Valid()
      modifies this`canvasWidth, this`canvasHeight,
               this`history, this`historyStep, this`canUndo, this`canRedo, this`storedCanvas, this`storedBackground,
               Attached()`width, Attached()`height
      ensures Valid()
      ensures canvasWidth == width && canvasHeight == height
      ensures canvas == null ==> Cursor() == old(Cursor()) && unchanged(this`storedCanvas, this`storedBackground)
      ensures canvas != null ==>
                && canvas.width == width && canvas.height == height
                && Cursor() == Record(old(Cursor()), canvas.ToJSON())
                && storedCanvas == Some(canvas.ToJSON())
                && storedBackground == OrElse(canvas.backgroundColor, DefaultBackground)
    {
      if canvas != null {
        canvas.SetDimensions(width, height);
        SaveState();
      }
      canvasWidth, canvasHeight := width, height;
    }

    /**
     * Applies a text property to the selected object when it is a textbox,
     * then snapshots once; otherwise nothing changes.
     */
    method UpdateTextStyle(p: Prop)
      requires Valid()
      modifies this`history, this`historyStep, this`canUndo, this`canRedo, this`storedCanvas, this`storedBackground,
               Attached()`objects
      ensures Valid()
      ensures old(Target()).None? || !old(canvas.objects[Target().value].shape.Textbox?) ==>
                unchanged(this) && (canvas != null ==> unchanged(canvas))
      ensures old(Target()).Some? && old(canvas.objects[Target().value].shape.Textbox?) ==>
                var i := old(Target()).value;
                && canvas.objects == old(canvas.objects)[i := Set(old(canvas.objects[i]), p)]
                && Cursor() == Record(old(Cursor()), canvas.ToJSON())
                && storedCanvas == Some(canvas.ToJSON())
                && storedBackground == OrElse(canvas.backgroundColor, DefaultBackground)
    {
      var t := Target();
      if t.None? {
        return;
      }
      var obj := canvas.objects[t.value];
      if !obj.shape.Textbox? {
        return;
      }
      canvas.Update(t.value, Set(obj, p));
      SaveState();
    }

    /**
     * Routes a style property to the selected object (see `Restyled`) and
     * snapshots once; with no selected object nothing changes.
     */
    method UpdateShapeStyle(p: Prop)
      requires Valid()
      modifies this`history, this`historyStep, this`canUndo, this`canRedo, this`storedCanvas, this`storedBackground,
               Attached()`objects
      ensures Valid()
      ensures old(Target()).None? ==> unchanged(this) && (canvas != null ==> unchanged(canvas))
      ensures old(Target()).Some? ==>
                var i := old(Target()).value;
                && canvas.objects == old(canvas.objects)[i := Restyled(old(canvas.objects[i]), p)]
                && Cursor() == Record(old(Cursor()), canvas.ToJSON())
                && storedCanvas == Some(canvas.ToJSON())
                && storedBackground == OrElse(canvas.backgroundColor, DefaultBackground)
    {
      var t := Target();
      if t.None? {
        return;
      }
      var i := t.value;
      var updated := Reconcile(canvas.objects[i], p);
      canvas.Update(i, updated);
      SaveState();
    }

    /**
     * Removes every active object, clears the selection and snapshots once;
     * with no active object nothing changes.
     */
    method DeleteSelected()
      requires Valid()
      modifies this`selectedObject,
               this`history, this`historyStep, this`canUndo, this`canRedo, this`storedCanvas, this`storedBackground,
               Attached()`objects, Attached()`active
      ensures Valid()
      ensures canvas == null || old(canvas.active) == [] ==> unchanged(this) && (canvas != null ==> unchanged(canvas))
      ensures canvas != null && old(canvas.active) != [] ==>
                && canvas.objects == Without(old(canvas.objects), IdsOf(old(canvas.active)))
                && canvas.active == [] && selectedObject == None
                && Cursor() == Record(old(Cursor()), canvas.ToJSON())
                && storedCanvas == Some(canvas.ToJSON())
                && storedBackground == OrElse(canvas.backgroundColor, DefaultBackground)
    {
      if canvas == null {
        return;
      }
      var activeObjects := canvas.active;
      if |activeObjects| == 0 {
        return;
      }
      RemoveEach(canvas, activeObjects);
      canvas.DiscardActiveObject();
      SaveState();
      selectedObject := None;
    }

    /**
     * Startup: restores the stored snapshot and background colour when there
     * is one (which, as with undo, drops the selection), then snapshots the
     * live scene as the history's next entry.
     */
    method LoadFromStorage()
      requires Valid()
      modifies this`backgroundColor, this`selectedObject,
               this`history, this`historyStep, this`canUndo, this`canRedo, this`storedCanvas, this`storedBackground,
               Attached()`objects, Attached()`active, Attached()`backgroundColor, Attached()`backgroundImage,
               Attached()`nextId
      ensures Valid()
      ensures canvas == null ==> unchanged(this)
      ensures canvas != null && old(storedCanvas).None? ==>
                && canvas.ToJSON() == old(canvas.ToJSON()) && canvas.active == old(canvas.active)
                && selectedObject == old(selectedObject) && backgroundColor == old(backgroundColor)
      ensures canvas != null && old(storedCanvas).Some? ==>
                && canvas.objects == old(storedCanvas).value.objects
                && canvas.backgroundImage == old(storedCanvas).value.backgroundImage
                && canvas.backgroundColor == OrElse(old(storedBackground), old(storedCanvas).value.background)
                && backgroundColor == (if old(storedBackground) != "" then old(storedBackground) else old(backgroundColor))
                && canvas.active == [] && selectedObject == None
      ensures canvas != null ==>
                && Cursor() == Record(old(Cursor()), canvas.ToJSON())
                && storedCanvas == Some(canvas.ToJSON())
                && storedBackground == OrElse(canvas.backgroundColor, DefaultBackground)
    {
      if canvas == null {
        return;
      }
      if storedCanvas.Some? {
        canvas.LoadFromJSON(storedCanvas.value);
        selectedObject := None;
        if storedBackground != "" {
          canvas.backgroundColor := storedBackground;
          backgroundColor := storedBackground;
        }
      }
      SaveState();
    }

    /** Attaches the canvas and loads the stored scene into it. */
    method SetCanvas(c: Canvas)
      requires Valid() && c.Valid()
      modifies this`canvas, this`backgroundColor, this`selectedObject,
               this`history, this`historyStep, this`canUndo, this`canRedo, this`storedCanvas, this`storedBackground,
               c`objects, c`active, c`backgroundColor, c`backgroundImage, c`nextId
      ensures Valid() && canvas == c
      ensures old(storedCanvas).None? ==>
                && c.ToJSON() == old(c.ToJSON()) && c.active == old(c.active)
                && selectedObject == old(selectedObject) && backgroundColor == old(backgroundColor)
      ensures old(storedCanvas).Some? ==>
                && c.objects == old(storedCanvas).value.objects
                && c.backgroundImage == old(storedCanvas).value.backgroundImage
                && c.backgroundColor == OrElse(old(storedBackground), old(storedCanvas).value.background)
                && backgroundColor == (if old(storedBackground) != "" then old(storedBackground) else old(backgroundColor))
                && c.active == [] && selectedObject == None
      ensures Cursor() == Record(old(Cursor()), c.ToJSON())
      ensures storedCanvas == Some(c.ToJSON()) && storedBackground == OrElse(c.backgroundColor, DefaultBackground)
    {
      canvas := c;
      LoadFromStorage();
    }
  }
}

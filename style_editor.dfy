/**
 * The shape style panel: which controls it shows for the selected object and
 * the fill, stroke and stroke width it displays, read back from the object
 * with the panel's defaults for unset values.
 */
module StyleEditor {
  import opened SceneGraph
  import opened Store

  predicate IsLine(o: Obj)
    ensures IsLine(o) <==> o.shape.Line?
  {
    TypeOf(o.shape) == "line"
  }

  /** A group with at least one line among its children. */
  predicate IsArrowGroup(o: Obj)
    ensures IsArrowGroup(o) <==> o.shape.Group? && FindType(o.shape.children, "line").Some?
  {
    TypeOf(o.shape) == "group" && exists i :: 0 <= i < |o.shape.children| && TypeOf(o.shape.children[i].shape) == "line"
  }

  /** A path tagged `arrow`. */
  predicate IsArrowPath(o: Obj)
    ensures IsArrowPath(o) <==> o.shape.Path? && o.name == "arrow"
    ensures IsArrowPath(o) || IsLine(o) <==> StrokeOnly(o)
  {
    TypeOf(o.shape) == "path" && o.name == "arrow"
  }

  /** What the panel shows. */
  datatype Panel = Hidden | StrokeControls | FullControls

  /** No panel without a selection or for a textbox; only stroke controls for lines and arrows. */
  function PanelFor(selected: Option<Obj>): (r: Panel)
    ensures r.Hidden? <==> selected.None? || TypeOf(selected.value.shape) == "textbox"
  {
    if selected.None? || TypeOf(selected.value.shape) == "textbox" then Hidden
    else
      var o := selected.value;
      if IsLine(o) || IsArrowGroup(o) || IsArrowPath(o) then StrokeControls else FullControls
  }

  /** The line child an arrow group's stroke is read from. */
  function CurrentLine(o: Obj): (r: Option<nat>)
    ensures r.Some? ==> o.shape.Group? && r.value < |o.shape.children| && IsLine(o.shape.children[r.value])
    ensures r.Some? <==> IsArrowGroup(o)
  {
    if IsArrowGroup(o) then
      var i := FindType(o.shape.children, "line");
      assert i.Some? by {
        var k :| 0 <= k < |o.shape.children| && TypeOf(o.shape.children[k].shape) == "line";
      }
      i
    else None
  }

  /** The displayed fill: none for a line or an arrow group, `transparent` when unset. */
  function CurrentFill(o: Obj): (r: Option<string>)
    ensures r.None? <==> IsLine(o) || IsArrowGroup(o)
    ensures r.Some? ==> r.value != "" && (o.fill != "" ==> r.value == o.fill)
    ensures r.Some? && o.fill == "" ==> r.value == Transparent
  {
    if IsLine(o) || IsArrowGroup(o) then None else Some(OrElse(o.fill, Transparent))
  }

  /** The displayed stroke: an arrow group's line stroke or the object's own, black when unset. */
  function CurrentStroke(o: Obj): (r: string)
    ensures r != ""
    ensures CurrentLine(o).None? && o.stroke != "" ==> r == o.stroke
    ensures CurrentLine(o).None? && o.stroke == "" ==> r == Black
    ensures CurrentLine(o).Some? ==>
              var line := o.shape.children[CurrentLine(o).value];
              r == (if line.stroke != "" then line.stroke else Black)
  {
    var line := CurrentLine(o);
    OrElse(if line.Some? then o.shape.children[line.value].stroke else o.stroke, Black)
  }

  /** The displayed stroke width: an arrow group's line width or the object's own, 2 when zero. */
  function CurrentStrokeWidth(o: Obj): (r: real)
    ensures r != 0.0
    ensures CurrentLine(o).None? && o.strokeWidth != 0.0 ==> r == o.strokeWidth
    ensures CurrentLine(o).None? && o.strokeWidth == 0.0 ==> r == DefaultStrokeWidth
    ensures CurrentLine(o).Some? ==>
              var line := o.shape.children[CurrentLine(o).value];
              r == (if line.strokeWidth != 0.0 then line.strokeWidth else DefaultStrokeWidth)
  {
    var line := CurrentLine(o);
    var w := if line.Some? then o.shape.children[line.value].strokeWidth else o.strokeWidth;
    if w == 0.0 then DefaultStrokeWidth else w
  }

  /** The panel's stroke-only variant is exactly the objects the store styles stroke-only, plus arrow groups. */
  lemma StrokeControlsMatchStore(o: Obj)
    requires TypeOf(o.shape) != "textbox"
    ensures PanelFor(Some(o)) == StrokeControls <==> StrokeOnly(o) || IsArrowGroup(o)
    ensures PanelFor(Some(o)) == FullControls <==> !StrokeOnly(o) && !IsArrowGroup(o)
  {
  }

  /** The two child lists carry the same type tags, position by position. */
  predicate SameTags(cs: seq<Obj>, ds: seq<Obj>)
  {
    |cs| == |ds| && forall i :: 0 <= i < |cs| ==> TypeOf(cs[i].shape) == TypeOf(ds[i].shape)
  }

  /** Style changes on a group never change the type of a child. */
  lemma RestyleKeepsTags(o: Obj, p: Prop)
    requires o.shape.Group?
    ensures Restyled(o, p).shape.Group? && SameTags(o.shape.children, Restyled(o, p).shape.children)
  {
    var cs := o.shape.children;
    if !StrokeOnly(o) && !p.Fill? && p.Stroke? {
      var line := FindType(cs, "line");
      if line.Some? {
        var withLine := cs[line.value := cs[line.value].(stroke := p.color)];
        assert SameTags(cs, withLine);
      }
    }
  }

  /** Style changes keep the children's type tags, so an arrow group stays an arrow group. */
  lemma {:induction false} RestyleKeepsArrowGroup(o: Obj, p: Prop)
    ensures IsArrowGroup(Restyled(o, p)) <==> IsArrowGroup(o)
    ensures IsArrowGroup(o) ==> CurrentLine(Restyled(o, p)) == CurrentLine(o)
  {
    if o.shape.Group? {
      var r := Restyled(o, p);
      RestyleKeepsTags(o, p);
      var cs, rs := o.shape.children, r.shape.children;
      if IsArrowGroup(o) {
        var k :| 0 <= k < |cs| && TypeOf(cs[k].shape) == "line";
        assert TypeOf(rs[k].shape) == "line";
      }
      if IsArrowGroup(r) {
        var k :| 0 <= k < |rs| && TypeOf(rs[k].shape) == "line";
        assert TypeOf(cs[k].shape) == "line";
      }
      FindTypeByTags(cs, rs, "line");
    }
  }

  /**
   * Writing a non-empty stroke through the store and reading it back through
   * the panel gives the written colour, for every object except a group with
   * no line child (whose stroke the store leaves alone).
   */
  lemma StrokeRoundTrip(o: Obj, c: string)
    requires c != ""
    requires o.shape.Group? ==> IsArrowGroup(o)
    ensures CurrentStroke(Restyled(o, Stroke(c))) == c
  {
    RestyleKeepsArrowGroup(o, Stroke(c));
    if IsArrowGroup(o) {
      ArrowGroupStroke(o, c);
    }
  }

  /** A stroke width written through the store reads back as written, or as 2 when it is zero. */
  lemma StrokeWidthRoundTrip(o: Obj, w: real)
    requires o.shape.Group? ==> IsArrowGroup(o)
    ensures CurrentStrokeWidth(Restyled(o, StrokeWidth(w))) == (if w == 0.0 then DefaultStrokeWidth else w)
  {
    RestyleKeepsArrowGroup(o, StrokeWidth(w));
    if IsArrowGroup(o) {
      ArrowGroupStrokeWidth(o, w);
    }
  }

  /** On an object the panel offers a fill control for, a non-empty fill reads back as written. */
  lemma FillRoundTrip(o: Obj, c: string)
    requires c != "" && PanelFor(Some(o)) == FullControls && !o.shape.Group?
    ensures CurrentFill(Restyled(o, Fill(c))) == Some(c)
  {
  }

  /** An opacity change leaves every displayed value as it was. */
  lemma OpacityKeepsDisplay(o: Obj, v: real)
    ensures var r := Restyled(o, Opacity(v));
            CurrentFill(r) == CurrentFill(o) && CurrentStroke(r) == CurrentStroke(o)
            && CurrentStrokeWidth(r) == CurrentStrokeWidth(o)
  {
    RestyleKeepsArrowGroup(o, Opacity(v));
  }
}

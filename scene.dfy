/**
 The Paper.js scene that `createRectangle` builds: the active layer's children, each either
 a group of items or a single item, and the pure operations the handlers apply to them.
 */
module Scene {
  import opened Geometry

  /** Distance between a rectangle edge and the label that measures it. */
  const LabelGap: real := 10.0

  /** Text appended to every measurement. */
  const Unit: string := " mm"

  /** The content of a measurement label: a number followed by a unit suffix. */
  datatype Caption = Caption(value: real, suffix: string)

  /** A leaf item of the scene: a `paper.Path.Rectangle` or a `paper.PointText`. */
  datatype Item =
    | Path(bounds: Rect, visible: bool)
    | PointText(point: Point, content: Caption, visible: bool)
  {
    /** The point that a translation moves. */
    function Anchor(): Point {
      if Path? then bounds.topLeft else point
    }

    /** The item moved by `d`; everything but its position is kept. */
    function Translate(d: Point): (r: Item)
      ensures r.Anchor() == Anchor().Add(d)
      ensures r.Path? == Path? && r.visible == visible
      ensures Path? ==> r.bounds.width == bounds.width && r.bounds.height == bounds.height
      ensures PointText? ==> r.content == content
    {
      match this
      case Path(b, v) => Path(b.Translate(d), v)
      case PointText(p, c, v) => PointText(p.Add(d), c, v)
    }

    /** What the measurement sweep does to one member of a group: a label takes the flag, anything else is kept. */
    function WithLabelVisibility(flag: bool): (r: Item)
      ensures r.PointText? == PointText? && r.Anchor() == Anchor()
      ensures PointText? ==> r.visible == flag && r.content == content
      ensures !PointText? ==> r == this
    {
      match this
      case PointText(p, c, _) => PointText(p, c, flag)
      case Path(_, _) => this
    }
  }

  /** A child of the active layer: a `paper.Group` of items, or an item that is not a group. */
  datatype LayerChild = Group(items: seq<Item>) | Plain(item: Item)

  /** The three items `createRectangle` groups for a rectangle of the given size centred on `center`. */
  function NewGroup(center: Point, width: real, height: real): (g: seq<Item>)
    ensures |g| == 3 && g[0].Path? && g[1].PointText? && g[2].PointText?
    ensures g[0].bounds.Center() == center
    ensures g[0].bounds.width == width && g[0].bounds.height == height
    ensures g[1].point == Point(g[0].bounds.TopMid().x, g[0].bounds.TopMid().y - LabelGap)
    ensures g[2].point == Point(g[0].bounds.RightMid().x + LabelGap, g[0].bounds.RightMid().y)
    ensures g[1].content == Caption(width, Unit) && g[2].content == Caption(height, Unit)
    ensures g[0].visible && g[1].visible && g[2].visible
    ensures width > 0.0 && height > 0.0 ==> MeasuredGroup(g)
  {
    [ Path(CenteredRect(center, width, height), true),
      PointText(Point(center.x, center.y - height / 2.0 - LabelGap), Caption(width, Unit), true),
      PointText(Point(center.x + width / 2.0 + LabelGap, center.y), Caption(height, Unit), true) ]
  }

  /**
   The shape every group of the scene keeps: a visible rectangle of positive size, a width
   label `LabelGap` above the middle of its top edge showing its width, a height label
   `LabelGap` right of the middle of its right edge showing its height, the two labels
   shown or hidden together.
   */
  ghost predicate MeasuredGroup(items: seq<Item>) {
    && |items| == 3
    && items[0].Path? && items[1].PointText? && items[2].PointText?
    && var r := items[0].bounds;
    && r.width > 0.0 && r.height > 0.0 && items[0].visible
    && items[1].point == Point(r.TopMid().x, r.TopMid().y - LabelGap)
    && items[2].point == Point(r.RightMid().x + LabelGap, r.RightMid().y)
    && items[1].content == Caption(r.width, Unit)
    && items[2].content == Caption(r.height, Unit)
    && items[1].visible == items[2].visible
  }

  /** Every group of the layer has the shape `createRectangle` gives it. */
  ghost predicate AllMeasured(children: seq<LayerChild>) {
    forall i :: 0 <= i < |children| && children[i].Group? ==> MeasuredGroup(children[i].items)
  }

  /** Every member of a group moved by `d` (setting a group's position moves all its children). */
  function TranslateAll(items: seq<Item>, d: Point): (r: seq<Item>)
    ensures |r| == |items|
    ensures forall k :: 0 <= k < |r| ==> r[k].Anchor() == items[k].Anchor().Add(d)
  {
    seq(|items|, k requires 0 <= k < |items| => items[k].Translate(d))
  }

  /** The members of one group after the measurement sweep. */
  function LabelsSetTo(items: seq<Item>, flag: bool): (r: seq<Item>)
    ensures |r| == |items|
    ensures forall k :: 0 <= k < |r| ==> r[k].PointText? == items[k].PointText? && r[k].Anchor() == items[k].Anchor()
    ensures forall k :: 0 <= k < |r| && items[k].PointText? ==> r[k].visible == flag && r[k].content == items[k].content
    ensures forall k :: 0 <= k < |r| && !items[k].PointText? ==> r[k] == items[k]
  {
    seq(|items|, k requires 0 <= k < |items| => items[k].WithLabelVisibility(flag))
  }

  /** One layer child after the measurement sweep: groups have their labels set, other children are left alone. */
  function SweepChild(c: LayerChild, flag: bool): (r: LayerChild)
    ensures r.Group? == c.Group?
    ensures c.Plain? ==> r == c
    ensures c.Group? ==> |r.items| == |c.items|
  {
    match c
    case Group(items) => Group(LabelsSetTo(items, flag))
    case Plain(_) => c
  }

  /** The whole layer after the measurement sweep. */
  function SweepLayer(children: seq<LayerChild>, flag: bool): (r: seq<LayerChild>)
    ensures |r| == |children|
    ensures forall i :: 0 <= i < |r| ==> r[i].Group? == children[i].Group?
    ensures forall i :: 0 <= i < |r| && children[i].Plain? ==> r[i] == children[i]
  {
    seq(|children|, i requires 0 <= i < |children| => SweepChild(children[i], flag))
  }

  /** Every label that is a member of a group of the layer is shown or hidden as `flag` says. */
  ghost predicate LabelsMatch(children: seq<LayerChild>, flag: bool) {
    forall i, k ::
      (0 <= i < |children| && children[i].Group? && 0 <= k < |children[i].items| &&
       children[i].items[k].PointText?) ==> children[i].items[k].visible == flag
  }

  // ----- the group created by createRectangle -----

  /** A measured group is exactly the one `createRectangle` builds for its centre and size, up to the labels' visibility. */
  lemma MeasuredGroupIsNewGroup(items: seq<Item>)
    requires MeasuredGroup(items)
    ensures var r := items[0].bounds;
      items == LabelsSetTo(NewGroup(r.Center(), r.width, r.height), items[1].visible)
  {
    var r := items[0].bounds;
    var g := LabelsSetTo(NewGroup(r.Center(), r.width, r.height), items[1].visible);
    CenteredRectUnique(r);
    assert g[0] == items[0];
    assert g[1] == items[1];
    assert g[2] == items[2];
  }

  // ----- dragging a group -----

  /** Dragging a group keeps its rectangle's size and the label-to-rectangle offsets. */
  lemma TranslateKeepsMeasured(items: seq<Item>, d: Point)
    requires MeasuredGroup(items)
    ensures MeasuredGroup(TranslateAll(items, d))
  {
    var t := TranslateAll(items, d);
    assert t[0] == items[0].Translate(d);
    assert t[1] == items[1].Translate(d);
    assert t[2] == items[2].Translate(d);
  }

  /** Dragging the group built for centre `c` by `d` gives the group built for centre `c + d`. */
  lemma TranslateNewGroup(c: Point, width: real, height: real, d: Point)
    ensures TranslateAll(NewGroup(c, width, height), d) == NewGroup(c.Add(d), width, height)
  {
    var t := TranslateAll(NewGroup(c, width, height), d);
    var n := NewGroup(c.Add(d), width, height);
    assert t[0] == n[0];
    assert t[1] == n[1];
    assert t[2] == n[2];
  }

  /** Relative positions of the members of a group, and their visibility, survive a drag. */
  lemma TranslateKeepsOffsets(items: seq<Item>, d: Point)
    ensures var t := TranslateAll(items, d);
      forall j, k :: 0 <= j < |items| && 0 <= k < |items| ==>
        t[j].Anchor().Sub(t[k].Anchor()) == items[j].Anchor().Sub(items[k].Anchor())
        && t[j].visible == items[j].visible
  {
  }

  /** A drag by `d` followed by a drag by `-d` restores the group. */
  lemma TranslateInverse(items: seq<Item>, d: Point)
    ensures TranslateAll(TranslateAll(items, d), d.Neg()) == items
  {
    var t := TranslateAll(TranslateAll(items, d), d.Neg());
    forall k | 0 <= k < |items| ensures t[k] == items[k] {
      match items[k]
      case Path(b, v) =>
      case PointText(p, c, v) =>
    }
  }

  /** Two drags in a row move the group by the sum of their deltas. */
  lemma TranslateCompose(items: seq<Item>, d1: Point, d2: Point)
    ensures TranslateAll(TranslateAll(items, d1), d2) == TranslateAll(items, d1.Add(d2))
  {
    var t := TranslateAll(TranslateAll(items, d1), d2);
    var u := TranslateAll(items, d1.Add(d2));
    forall k | 0 <= k < |items| ensures t[k] == u[k] {
      match items[k]
      case Path(b, v) =>
      case PointText(p, c, v) =>
    }
  }

  /** Replacing one group of the layer by its dragged copy keeps the layer's groups measured. */
  lemma DragKeepsAllMeasured(children: seq<LayerChild>, i: nat, d: Point)
    requires AllMeasured(children)
    requires i < |children| && children[i].Group?
    ensures AllMeasured(children[i := Group(TranslateAll(children[i].items, d))])
  {
    TranslateKeepsMeasured(children[i].items, d);
  }

  // ----- creating a rectangle -----

  /** Appending a newly built group of positive size keeps the layer's groups measured. */
  lemma AppendKeepsAllMeasured(children: seq<LayerChild>, c: Point, width: real, height: real)
    requires AllMeasured(children)
    requires width > 0.0 && height > 0.0
    ensures AllMeasured(children + [Group(NewGroup(c, width, height))])
  {
    var n := children + [Group(NewGroup(c, width, height))];
    forall i | 0 <= i < |n| && n[i].Group? ensures MeasuredGroup(n[i].items) {
      if i < |children| {
        assert n[i] == children[i];
      }
    }
  }

  // ----- the measurement sweep -----

  /** After the sweep every label inside a group is shown or hidden as `flag` says. */
  lemma SweepSetsLabels(children: seq<LayerChild>, flag: bool)
    ensures LabelsMatch(SweepLayer(children, flag), flag)
  {
  }

  /**
   The sweep changes nothing but label visibility: the layer keeps its length and kinds of
   children, children that are not groups are unchanged, and inside a group every member keeps
   its kind and position, rectangles keep their visibility and labels their content.
   */
  lemma SweepChangesOnlyLabelVisibility(children: seq<LayerChild>, flag: bool)
    ensures var s := SweepLayer(children, flag);
      && |s| == |children|
      && (forall i :: 0 <= i < |s| ==> s[i].Group? == children[i].Group?)
      && (forall i :: 0 <= i < |s| && children[i].Plain? ==> s[i] == children[i])
      && (forall i, k :: 0 <= i < |s| && children[i].Group? && 0 <= k < |children[i].items| ==>
            k < |s[i].items|
            && s[i].items[k].Path? == children[i].items[k].Path?
            && s[i].items[k].Anchor() == children[i].items[k].Anchor()
            && (children[i].items[k].Path? ==> s[i].items[k] == children[i].items[k])
            && (children[i].items[k].PointText? ==>
                  s[i].items[k].content == children[i].items[k].content
                  && s[i].items[k].visible == flag))
      && (forall i :: 0 <= i < |s| && children[i].Group? ==> |s[i].items| == |children[i].items|)
  {
  }

  /** The sweep keeps every group measured. */
  lemma SweepKeepsAllMeasured(children: seq<LayerChild>, flag: bool)
    requires AllMeasured(children)
    ensures AllMeasured(SweepLayer(children, flag))
  {
    var s := SweepLayer(children, flag);
    forall i | 0 <= i < |s| && s[i].Group? ensures MeasuredGroup(s[i].items) {
      assert s[i] == SweepChild(children[i], flag);
      var items := children[i].items;
      assert s[i].items[0] == items[0];
    }
  }

  /** A layer whose labels already match `flag` is left unchanged by a sweep with `flag`. */
  lemma SweepInSyncIsIdentity(children: seq<LayerChild>, flag: bool)
    requires LabelsMatch(children, flag)
    ensures SweepLayer(children, flag) == children
  {
    var s := SweepLayer(children, flag);
    forall i | 0 <= i < |children| ensures s[i] == children[i] {
      if children[i].Group? {
        var items := children[i].items;
        assert LabelsSetTo(items, flag) == items by {
          forall k | 0 <= k < |items| ensures LabelsSetTo(items, flag)[k] == items[k] {
            if items[k].PointText? {
              assert items[k].visible == flag;
            }
          }
        }
      }
    }
  }

  /** Sweeping twice with the same flag is the same as sweeping once. */
  lemma SweepIdempotent(children: seq<LayerChild>, flag: bool)
    ensures SweepLayer(SweepLayer(children, flag), flag) == SweepLayer(children, flag)
  {
    SweepSetsLabels(children, flag);
    SweepInSyncIsIdentity(SweepLayer(children, flag), flag);
  }

  /** Of two sweeps in a row, only the second one's flag is visible in the result. */
  lemma SweepLastWins(children: seq<LayerChild>, first: bool, second: bool)
    ensures SweepLayer(SweepLayer(children, first), second) == SweepLayer(children, second)
  {
    var s := SweepLayer(SweepLayer(children, first), second);
    var t := SweepLayer(children, second);
    forall i | 0 <= i < |children| ensures s[i] == t[i] {
      if children[i].Group? {
        var items := children[i].items;
        assert LabelsSetTo(LabelsSetTo(items, first), second) == LabelsSetTo(items, second);
      }
    }
  }

  /** The layer of the page: `paper.project.activeLayer`, whose list of children the handlers change. */
  class Layer {
    var children: seq<LayerChild>

    /** The invariant the modelled handlers keep (drags move whole groups): every group is a measured rectangle group. */
    ghost predicate Valid()
      reads this
    {
      AllMeasured(children)
    }

    /** The empty layer `paper.setup` starts from. */
    constructor ()
      ensures children == [] && Valid()
    {
      children := [];
    }
  }
}

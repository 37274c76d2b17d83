/** `arrangeWindows` (src/main/index.js): placing the managed windows on the
    primary display's work area. The `managedWindows` map from slot name to
    window becomes the registry's map from slot name to the window's bounds;
    `setBounds` on a window is an update of that map. */
module Windows {

  datatype Rect = Rect(x: int, y: int, width: int, height: int)

  /** Two rectangles share an interior point. */
  predicate Overlap(a: Rect, b: Rect) {
    a.x < b.x + b.width && b.x < a.x + a.width && a.y < b.y + b.height && b.y < a.y + a.height
  }

  /** `inner` lies inside `outer`. */
  predicate Within(inner: Rect, outer: Rect) {
    outer.x <= inner.x && inner.x + inner.width <= outer.x + outer.width
    && outer.y <= inner.y && inner.y + inner.height <= outer.y + outer.height
  }

  /** The bounds each slot of `arrangement` receives on `area`, halves and
      quarters rounded down as `Math.floor` does (Dafny's `/ 2` floors too). An
      arrangement the switch does not name has no slots. */
  function Layout(arrangement: string, area: Rect): map<string, Rect> {
    var halfW := area.width / 2;
    var halfH := area.height / 2;
    if arrangement == "split-horizontal" then
      map["left" := Rect(area.x, area.y, halfW, area.height),
          "right" := Rect(area.x + halfW, area.y, halfW, area.height)]
    else if arrangement == "split-vertical" then
      map["top" := Rect(area.x, area.y, area.width, halfH),
          "bottom" := Rect(area.x, area.y + halfH, area.width, halfH)]
    else if arrangement == "quadrant" then
      map["top-left" := Rect(area.x, area.y, halfW, halfH),
          "top-right" := Rect(area.x + halfW, area.y, halfW, halfH),
          "bottom-left" := Rect(area.x, area.y + halfH, halfW, halfH),
          "bottom-right" := Rect(area.x + halfW, area.y + halfH, halfW, halfH)]
    else map[]
  }

  /** Registered windows whose slot the layout names take its bounds; every other
      registered window keeps its own, and no window is added or removed. */
  function Arranged(bounds: map<string, Rect>, layout: map<string, Rect>): (r: map<string, Rect>)
    ensures r.Keys == bounds.Keys
  {
    map k | k in bounds :: if k in layout then layout[k] else bounds[k]
  }

  class WindowRegistry {
    /** The bounds of each managed window, by slot name. */
    var bounds: map<string, Rect>

    constructor(initial: map<string, Rect>)
      ensures bounds == initial
    {
      bounds := initial;
    }

    /** Sets the bounds of the window in `slot` when one is registered there. */
    method Place(slot: string, r: Rect)
      modifies this
      ensures bounds == if slot in old(bounds) then old(bounds)[slot := r] else old(bounds)
    {
      if slot in bounds {
        bounds := bounds[slot := r];
      }
    }

    /** `arrangeWindows(arrangement)` with `area` the primary display's work area. */
    method ArrangeWindows(arrangement: string, area: Rect)
      modifies this
      ensures bounds == Arranged(old(bounds), Layout(arrangement, area))
    {
      ghost var start := bounds;
      ArrangedNothing(start);
      if arrangement == "split-horizontal" {
        var halfWidth := area.width / 2;
        var height := area.height;
        var left := Rect(area.x, area.y, halfWidth, height);
        var right := Rect(area.x + halfWidth, area.y, halfWidth, height);
        Place("left", left);
        ArrangedPlace(start, map[], "left", left);
        Place("right", right);
        ArrangedPlace(start, map["left" := left], "right", right);
      } else if arrangement == "split-vertical" {
        var width := area.width;
        var halfHeight := area.height / 2;
        var top := Rect(area.x, area.y, width, halfHeight);
        var bottom := Rect(area.x, area.y + halfHeight, width, halfHeight);
        Place("top", top);
        ArrangedPlace(start, map[], "top", top);
        Place("bottom", bottom);
        ArrangedPlace(start, map["top" := top], "bottom", bottom);
      } else if arrangement == "quadrant" {
        ArrangeQuadrants(area);
      } else {
        assert Layout(arrangement, area) == map[];
      }
    }

    /** The `quadrant` case of `arrangeWindows`. */
    method ArrangeQuadrants(area: Rect)
      modifies this
      ensures bounds == Arranged(old(bounds), Layout("quadrant", area))
    {
      ghost var start := bounds;
      ArrangedNothing(start);
      var quadWidth := area.width / 2;
      var quadHeight := area.height / 2;
      var topLeft := Rect(area.x, area.y, quadWidth, quadHeight);
      var topRight := Rect(area.x + quadWidth, area.y, quadWidth, quadHeight);
      var bottomLeft := Rect(area.x, area.y + quadHeight, quadWidth, quadHeight);
      var bottomRight := Rect(area.x + quadWidth, area.y + quadHeight, quadWidth, quadHeight);
      Place("top-left", topLeft);
      ArrangedPlace(start, map[], "top-left", topLeft);
      Place("top-right", topRight);
      ArrangedPlace(start, map["top-left" := topLeft], "top-right", topRight);
      Place("bottom-left", bottomLeft);
      ArrangedPlace(start, map["top-left" := topLeft, "top-right" := topRight], "bottom-left", bottomLeft);
      Place("bottom-right", bottomRight);
      ArrangedPlace(start, map["top-left" := topLeft, "top-right" := topRight, "bottom-left" := bottomLeft],
                    "bottom-right", bottomRight);
    }
  }

  /** An empty layout moves no window. */
  lemma ArrangedNothing(bounds: map<string, Rect>)
    ensures Arranged(bounds, map[]) == bounds
  {
  }

  /** Adding one slot to a layout places that slot's window, if one is registered,
      after the others: layouts can be applied one slot at a time. */
  lemma ArrangedPlace(bounds: map<string, Rect>, layout: map<string, Rect>, slot: string, r: Rect)
    requires slot !in layout
    ensures var before := Arranged(bounds, layout);
            Arranged(bounds, layout[slot := r]) == if slot in before then before[slot := r] else before
  {
  }

  /** Each registered slot of the arrangement gets its layout rectangle; windows
      in other slots, and every window under an unknown arrangement, keep theirs. */
  lemma ArrangedSpec(bounds: map<string, Rect>, arrangement: string, area: Rect)
    ensures var r := Arranged(bounds, Layout(arrangement, area));
            && (forall k :: k in bounds && k in Layout(arrangement, area) ==> r[k] == Layout(arrangement, area)[k])
            && (forall k :: k in bounds && k !in Layout(arrangement, area) ==> r[k] == bounds[k])
            && (arrangement !in {"split-horizontal", "split-vertical", "quadrant"} ==> r == bounds)
  {
  }

  /** Split horizontally: the left and right halves, each ⌊w/2⌋ wide and the full
      height, side by side and not overlapping. */
  lemma SplitHorizontal(area: Rect)
    ensures var l := Layout("split-horizontal", area);
            && l.Keys == {"left", "right"}
            && l["left"] == Rect(area.x, area.y, area.width / 2, area.height)
            && l["right"] == Rect(area.x + area.width / 2, area.y, area.width / 2, area.height)
            && !Overlap(l["left"], l["right"])
  {
  }

  /** Split vertically: top and bottom halves, each ⌊h/2⌋ high, not overlapping. */
  lemma SplitVertical(area: Rect)
    ensures var l := Layout("split-vertical", area);
            && l.Keys == {"top", "bottom"}
            && l["top"] == Rect(area.x, area.y, area.width, area.height / 2)
            && l["bottom"] == Rect(area.x, area.y + area.height / 2, area.width, area.height / 2)
            && !Overlap(l["top"], l["bottom"])
  {
  }

  /** The four quadrants are ⌊w/2⌋ by ⌊h/2⌋. */
  lemma QuadrantSizes(area: Rect)
    ensures var l := Layout("quadrant", area);
            && l.Keys == {"top-left", "top-right", "bottom-left", "bottom-right"}
            && (forall k :: k in l ==> l[k].width == area.width / 2 && l[k].height == area.height / 2)
  {
  }

  /** No two quadrants overlap. */
  lemma QuadrantsDisjoint(area: Rect)
    ensures var l := Layout("quadrant", area);
            forall a, b :: a in l && b in l && a != b ==> !Overlap(l[a], l[b])
  {
    var l := Layout("quadrant", area);
    assert l.Keys == {"top-left", "top-right", "bottom-left", "bottom-right"};
  }

  /** On an area of non-negative size every quadrant lies inside it. */
  lemma QuadrantsInside(area: Rect)
    requires area.width >= 0 && area.height >= 0
    ensures var l := Layout("quadrant", area);
            forall k :: k in l ==> Within(l[k], area)
  {
    var l := Layout("quadrant", area);
    assert l.Keys == {"top-left", "top-right", "bottom-left", "bottom-right"};
  }
}

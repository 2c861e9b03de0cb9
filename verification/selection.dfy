/**
 * Selection geometry: the drag rectangle, its normalised ranges, and the
 * strict-containment scan that turns a rectangle into point ids.
 */
module Selection {
  import opened ReductionData

  /** A drag rectangle in world space; (x1, y1) is where the drag started. */
  datatype Rectangle2D = Rectangle2D(x1: real, x2: real, y1: real, y2: real)
  {
    /** The x extent as (min, max) of the two corners, whichever corner was the start. */
    function RangeX(): (r: (real, real))
      ensures r.0 <= r.1 && multiset{r.0, r.1} == multiset{x1, x2}
    {
      if x1 <= x2 then (x1, x2) else (x2, x1)
    }

    /** The y extent as (min, max) of the two corners, whichever corner was the start. */
    function RangeY(): (r: (real, real))
      ensures r.0 <= r.1 && multiset{r.0, r.1} == multiset{y1, y2}
    {
      if y1 <= y2 then (y1, y2) else (y2, y1)
    }

    /** Both normalised ranges have zero width: the gesture was a click. */
    predicate IsClick() {
      RangeX().0 == RangeX().1 && RangeY().0 == RangeY().1
    }
  }

  /** A click is exactly a gesture whose two corners coincide. */
  lemma ClickIffCornersCoincide(rect: Rectangle2D)
    ensures rect.IsClick() <==> rect.x1 == rect.x2 && rect.y1 == rect.y2
  {
  }

  /** Point `i` lies strictly inside the open box (rx.0, rx.1) x (ry.0, ry.1). */
  predicate StrictlyInside(d: ReductionViewData, i: nat, rx: (real, real), ry: (real, real))
    requires d.WellFormed() && i < d.numPoint
  {
    rx.0 < d.PointX(i) < rx.1 && ry.0 < d.PointY(i) < ry.1
  }

  predicate StrictlyIncreasing(s: seq<nat>) {
    forall k, l :: 0 <= k < l < |s| ==> s[k] < s[l]
  }

  /** The ids among the first `n` points that lie strictly inside, in scan order. */
  function InsideIds(d: ReductionViewData, rx: (real, real), ry: (real, real), n: nat): seq<nat>
    requires d.WellFormed() && n <= d.numPoint
  {
    if n == 0 then []
    else InsideIds(d, rx, ry, n - 1) + (if StrictlyInside(d, n - 1, rx, ry) then [n - 1] else [])
  }

  /** The scan's result: exactly the inside ids below `n`, each once, in ascending order. */
  lemma {:induction false} InsideIdsExact(d: ReductionViewData, rx: (real, real), ry: (real, real), n: nat)
    requires d.WellFormed() && n <= d.numPoint
    ensures StrictlyIncreasing(InsideIds(d, rx, ry, n))
    ensures forall k :: 0 <= k < |InsideIds(d, rx, ry, n)| ==> InsideIds(d, rx, ry, n)[k] < n
    ensures forall i :: 0 <= i < n ==> (i in InsideIds(d, rx, ry, n) <==> StrictlyInside(d, i, rx, ry))
  {
    if n > 0 {
      InsideIdsExact(d, rx, ry, n - 1);
    }
  }

  /** A range of zero width on either axis selects nothing: the comparisons are strict. */
  lemma {:induction false} DegenerateRangeSelectsNothing(d: ReductionViewData, rx: (real, real), ry: (real, real), n: nat)
    requires d.WellFormed() && n <= d.numPoint
    requires rx.0 >= rx.1 || ry.0 >= ry.1
    ensures InsideIds(d, rx, ry, n) == []
  {
    if n > 0 {
      DegenerateRangeSelectsNothing(d, rx, ry, n - 1);
    }
  }

  /**
   * The rectangle scan: visits every point once, in id order, and pushes the
   * id of each point strictly inside the ranges.
   */
  method SelectInside(d: ReductionViewData, rx: (real, real), ry: (real, real)) returns (selected: seq<nat>)
    requires d.WellFormed()
    ensures selected == InsideIds(d, rx, ry, d.numPoint)
    ensures StrictlyIncreasing(selected)
    ensures forall k :: 0 <= k < |selected| ==> selected[k] < d.numPoint
    ensures forall i :: 0 <= i < d.numPoint ==> (i in selected <==> StrictlyInside(d, i, rx, ry))
  {
    selected := [];
    var (x1, x2) := rx;
    var (y1, y2) := ry;
    for i := 0 to d.numPoint
      invariant selected == InsideIds(d, rx, ry, i)
    {
      var px := d.data[i * 2];
      var py := d.data[i * 2 + 1];
      if px > x1 && px < x2 && py > y1 && py < y2 {
        selected := selected + [i];
      }
    }
    InsideIdsExact(d, rx, ry, d.numPoint);
  }
}

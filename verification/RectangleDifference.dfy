/**
 * Rectangle geometry for the preheat (precaching) window of the photo grid:
 * which vertical strips enter and leave the window when it moves, whether a
 * move is large enough to act on, and how the window is grown from the
 * visible rectangle. Coordinates are reals, not IEEE floats.
 */
module RectangleDifferenceCalculator {

  /**
   * CGRect. Like CoreGraphics, the min/max accessors and `Width`/`Height`
   * standardise a negative width or height; the stored origin and size
   * (`origin.x`, `size.width`) are kept as given.
   */
  datatype Rect = Rect(x: real, y: real, width: real, height: real) {
    function MinX(): real { if width < 0.0 then x + width else x }
    function MaxX(): real { if width < 0.0 then x else x + width }
    function MinY(): real { if height < 0.0 then y + height else y }
    function MaxY(): real { if height < 0.0 then y else y + height }
    function MidY(): real { y + height / 2.0 }
    /** `CGRect.width`: the standardised width, never negative. */
    function Width(): real { if width < 0.0 then -width else width }
  }

  /** DifferenceResult: the strips that enter the window and the strips that leave it. */
  datatype DifferenceResult = DifferenceResult(added: seq<Rect>, removed: seq<Rect>)

  /** The default expansion ratio of createPreheatRect: half the visible height above and below. */
  const DefaultExpansionRatio: real := 0.5

  /**
   * `a.intersects(b)`, taken as an overlap of positive area: the open
   * intervals of the two rectangles overlap on both axes. CoreGraphics is
   * not part of this model; this is the reading the geometry relies on.
   */
  predicate Intersects(a: Rect, b: Rect) {
    && a.MinX() < a.MaxX() && b.MinX() < b.MaxX()
    && a.MinY() < a.MaxY() && b.MinY() < b.MaxY()
    && a.MinX() < b.MaxX() && b.MinX() < a.MaxX()
    && a.MinY() < b.MaxY() && b.MinY() < a.MaxY()
  }

  function Abs(v: real): real { if v < 0.0 then -v else v }

  /** The vertical coordinate `y` lies in the half-open span [MinY, MaxY) of `r`. */
  predicate InY(r: Rect, y: real) { r.MinY() <= y < r.MaxY() }

  /** Some rectangle of `rs` spans the vertical coordinate `y`. */
  predicate Covers(rs: seq<Rect>, y: real) { exists i :: 0 <= i < |rs| && InY(rs[i], y) }

  /**
   * The difference between two windows, as a value. Without an overlap the
   * whole new window enters and the whole old one leaves; with one, the
   * bottom and top edges are compared independently.
   */
  function Differences(oldRect: Rect, newRect: Rect): (d: DifferenceResult)
    ensures !Intersects(oldRect, newRect) ==> d == DifferenceResult([newRect], [oldRect])
    ensures |d.added| + |d.removed| <= 2
    ensures Intersects(oldRect, newRect) ==>
      forall r <- d.added :: r.x == newRect.x && r.width == newRect.Width() && r.height > 0.0
    ensures Intersects(oldRect, newRect) ==>
      forall r <- d.removed :: r.x == oldRect.x && r.width == oldRect.Width() && r.height > 0.0
  {
    if Intersects(oldRect, newRect) then
      var bottomGrowth :=
        if newRect.MaxY() > oldRect.MaxY()
        then [Rect(newRect.x, oldRect.MaxY(), newRect.Width(), newRect.MaxY() - oldRect.MaxY())]
        else [];
      var topGrowth :=
        if oldRect.MinY() > newRect.MinY()
        then [Rect(newRect.x, newRect.MinY(), newRect.Width(), oldRect.MinY() - newRect.MinY())]
        else [];
      var bottomShrink :=
        if newRect.MaxY() < oldRect.MaxY()
        then [Rect(oldRect.x, newRect.MaxY(), oldRect.Width(), oldRect.MaxY() - newRect.MaxY())]
        else [];
      var topShrink :=
        if oldRect.MinY() < newRect.MinY()
        then [Rect(oldRect.x, oldRect.MinY(), oldRect.Width(), newRect.MinY() - oldRect.MinY())]
        else [];
      DifferenceResult(bottomGrowth + topGrowth, bottomShrink + topShrink)
    else
      DifferenceResult([newRect], [oldRect])
  }

  /** calculateDifferences: builds the two lists by conditional appends. */
  method CalculateDifferences(oldRect: Rect, newRect: Rect) returns (result: DifferenceResult)
    ensures result == Differences(oldRect, newRect)
  {
    if Intersects(oldRect, newRect) {
      var added: seq<Rect> := [];
      var removed: seq<Rect> := [];
      // the window grew downwards
      if newRect.MaxY() > oldRect.MaxY() {
        added := added + [Rect(newRect.x, oldRect.MaxY(), newRect.Width(), newRect.MaxY() - oldRect.MaxY())];
      }
      // the window grew upwards
      if oldRect.MinY() > newRect.MinY() {
        added := added + [Rect(newRect.x, newRect.MinY(), newRect.Width(), oldRect.MinY() - newRect.MinY())];
      }
      // the window shrank from the bottom
      if newRect.MaxY() < oldRect.MaxY() {
        removed := removed + [Rect(oldRect.x, newRect.MaxY(), oldRect.Width(), oldRect.MaxY() - newRect.MaxY())];
      }
      // the window shrank from the top
      if oldRect.MinY() < newRect.MinY() {
        removed := removed + [Rect(oldRect.x, oldRect.MinY(), oldRect.Width(), newRect.MinY() - oldRect.MinY())];
      }
      result := DifferenceResult(added, removed);
    } else {
      result := DifferenceResult([newRect], [oldRect]);
    }
  }

  /**
   * When the windows overlap, the added strips span exactly the vertical
   * range the new window gains: inside the new window and outside the old.
   */
  lemma {:induction false} AddedCoverGainedRange(oldRect: Rect, newRect: Rect, y: real)
    requires Intersects(oldRect, newRect)
    ensures Covers(Differences(oldRect, newRect).added, y) <==> InY(newRect, y) && !InY(oldRect, y)
  {
    var added := Differences(oldRect, newRect).added;
    if InY(newRect, y) && !InY(oldRect, y) {
      if y >= oldRect.MaxY() {
        assert InY(added[0], y);
      } else {
        var i := |added| - 1;
        assert InY(added[i], y);
      }
    }
    if Covers(added, y) {
      var i :| 0 <= i < |added| && InY(added[i], y);
      assert InY(newRect, y) && !InY(oldRect, y);
    }
  }

  /**
   * When the windows overlap, the removed strips span exactly the vertical
   * range the old window loses: inside the old window and outside the new.
   */
  lemma {:induction false} RemovedCoverLostRange(oldRect: Rect, newRect: Rect, y: real)
    requires Intersects(oldRect, newRect)
    ensures Covers(Differences(oldRect, newRect).removed, y) <==> InY(oldRect, y) && !InY(newRect, y)
  {
    var removed := Differences(oldRect, newRect).removed;
    if InY(oldRect, y) && !InY(newRect, y) {
      if y >= newRect.MaxY() {
        assert InY(removed[0], y);
      } else {
        var i := |removed| - 1;
        assert InY(removed[i], y);
      }
    }
    if Covers(removed, y) {
      var i :| 0 <= i < |removed| && InY(removed[i], y);
      assert InY(oldRect, y) && !InY(newRect, y);
    }
  }

  /**
   * The window-level reading of the two coverage lemmas: the new window lies
   * within the old one plus the added strips, and what is left of the old
   * window once the removed strips are taken away lies within the new one.
   */
  lemma {:induction false} DifferencesAccountForBothWindows(oldRect: Rect, newRect: Rect)
    requires Intersects(oldRect, newRect)
    ensures forall y :: InY(newRect, y) ==> InY(oldRect, y) || Covers(Differences(oldRect, newRect).added, y)
    ensures forall y :: InY(oldRect, y) && !Covers(Differences(oldRect, newRect).removed, y) ==> InY(newRect, y)
  {
    forall y | InY(newRect, y)
      ensures InY(oldRect, y) || Covers(Differences(oldRect, newRect).added, y)
    {
      AddedCoverGainedRange(oldRect, newRect, y);
    }
    forall y | InY(oldRect, y) && !Covers(Differences(oldRect, newRect).removed, y)
      ensures InY(newRect, y)
    {
      RemovedCoverLostRange(oldRect, newRect, y);
    }
  }

  /**
   * Horizontally, every strip starts at its window's origin and is as wide
   * as the window's standardised width; for a window of non-negative width
   * that is exactly the window's column span.
   */
  lemma StripColumns(oldRect: Rect, newRect: Rect)
    requires Intersects(oldRect, newRect)
    ensures forall r <- Differences(oldRect, newRect).added ::
      r.MinX() == newRect.x && r.MaxX() == newRect.x + newRect.Width()
    ensures forall r <- Differences(oldRect, newRect).removed ::
      r.MinX() == oldRect.x && r.MaxX() == oldRect.x + oldRect.Width()
    ensures newRect.width >= 0.0 ==>
      forall r <- Differences(oldRect, newRect).added :: r.MinX() == newRect.MinX() && r.MaxX() == newRect.MaxX()
    ensures oldRect.width >= 0.0 ==>
      forall r <- Differences(oldRect, newRect).removed :: r.MinX() == oldRect.MinX() && r.MaxX() == oldRect.MaxX()
  {
  }

  /**
   * A window stored with a negative width: the strip is built from the
   * window's origin and standardised width, so it lies to the right of the
   * window's columns rather than over them.
   */
  lemma NegativeWidthStripStartsAtOrigin()
    ensures Intersects(Rect(0.0, 0.0, 100.0, 100.0), Rect(100.0, 0.0, -100.0, 150.0))
    ensures Differences(Rect(0.0, 0.0, 100.0, 100.0), Rect(100.0, 0.0, -100.0, 150.0))
      == DifferenceResult([Rect(100.0, 100.0, 100.0, 50.0)], [])
  {
  }

  /**
   * A window compared with itself: nothing enters or leaves when it has
   * area; a degenerate rectangle does not intersect itself and is swapped.
   */
  lemma IdenticalWindows(r: Rect)
    ensures Intersects(r, r) <==> r.width != 0.0 && r.height != 0.0
    ensures Intersects(r, r) ==> Differences(r, r) == DifferenceResult([], [])
    ensures !Intersects(r, r) ==> Differences(r, r) == DifferenceResult([r], [r])
  {
  }

  /** shouldUpdateCache: the vertical midpoints moved strictly more than the threshold. */
  function ShouldUpdateCache(current: Rect, previous: Rect, threshold: real): (update: bool)
    ensures update <==> current.MidY() > previous.MidY() + threshold || previous.MidY() > current.MidY() + threshold
  {
    Abs(current.MidY() - previous.MidY()) > threshold
  }

  /** The decision does not depend on which window is called current. */
  lemma ShouldUpdateCacheSymmetric(a: Rect, b: Rect, threshold: real)
    ensures ShouldUpdateCache(a, b, threshold) == ShouldUpdateCache(b, a, threshold)
  {
  }

  /** A move of exactly the threshold is not acted on; any longer move is. */
  lemma ShouldUpdateCacheStrict(current: Rect, previous: Rect, threshold: real)
    ensures Abs(current.MidY() - previous.MidY()) == threshold ==> !ShouldUpdateCache(current, previous, threshold)
    ensures Abs(current.MidY() - previous.MidY()) > threshold ==> ShouldUpdateCache(current, previous, threshold)
  {
  }

  /**
   * `insetBy(dx:dy:)` on a rectangle whose size stays non-negative: the
   * origin moves in by (dx, dy) and the size shrinks by twice that.
   */
  function InsetBy(r: Rect, dx: real, dy: real): Rect
    requires r.width >= 2.0 * dx && r.height >= 2.0 * dy
  {
    Rect(r.x + dx, r.y + dy, r.width - 2.0 * dx, r.height - 2.0 * dy)
  }

  /**
   * createPreheatRect: the visible rectangle grown by `expansionRatio` times
   * its height above and below, keeping its horizontal span and its centre.
   */
  function CreatePreheatRect(visible: Rect, expansionRatio: real): (preheat: Rect)
    requires visible.width >= 0.0 && visible.height >= 0.0 && expansionRatio >= 0.0
    ensures preheat.x == visible.x && preheat.width == visible.width
    ensures preheat.MidY() == visible.MidY()
    ensures preheat.y == visible.y - expansionRatio * visible.height
    ensures preheat.height == visible.height * (1.0 + 2.0 * expansionRatio)
    ensures preheat.MinY() <= visible.MinY() && visible.MaxY() <= preheat.MaxY()
    ensures expansionRatio == 0.0 ==> preheat == visible
  {
    InsetBy(visible, 0.0, -expansionRatio * visible.height)
  }

  /** The default expansion on concrete numbers: (0, 100, 200, 200) grows to (0, 0, 200, 400). */
  lemma PreheatDefaultExpansion()
    ensures CreatePreheatRect(Rect(0.0, 100.0, 200.0, 200.0), DefaultExpansionRatio) == Rect(0.0, 0.0, 200.0, 400.0)
  {
  }

  /** Scrolled down to y = 400, the same visible size grows to (0, 300, 200, 400). */
  lemma PreheatAfterScroll()
    ensures CreatePreheatRect(Rect(0.0, 400.0, 200.0, 200.0), DefaultExpansionRatio) == Rect(0.0, 300.0, 200.0, 400.0)
  {
  }

  /**
   * Between those two windows the midpoint moved 300 points, more than a
   * third of the 200-point viewport, so the window is updated.
   */
  lemma ScrollIsSignificant()
    ensures ShouldUpdateCache(Rect(0.0, 300.0, 200.0, 400.0), Rect(0.0, 0.0, 200.0, 400.0), 200.0 / 3.0)
  {
  }

  /** The update of that scroll adds the strip below the old window and drops the strip above the new one. */
  lemma ScrollDifferences()
    ensures Differences(Rect(0.0, 0.0, 200.0, 400.0), Rect(0.0, 300.0, 200.0, 400.0))
         == DifferenceResult([Rect(0.0, 400.0, 200.0, 300.0)], [Rect(0.0, 0.0, 200.0, 300.0)])
  {
  }
}

/**
 * Which committed records the `plot_hit_location` screen draws on the field
 * image. The screen's loop keeps a record when both its coordinates are
 * truthy, so a record whose coordinate is pixel 0 is left off the chart
 * although the click branch logged it. `PlottedAsWritten` is that test and
 * `PlotPointsAsWritten` the chart it draws; `IsPlotted` and `PlotPoints` are
 * the intended ones.
 */
module SprayChart {
  import opened Wrappers
  import opened AtBatWorkflow

  /** The filter as written: Python truthiness of two optional integers. */
  predicate PlottedAsWritten(r: HitRecord) {
    r.x.Some? && r.x.value != 0 && r.y.Some? && r.y.value != 0
  }

  /** The filter as intended: the record carries both coordinates. */
  predicate IsPlotted(r: HitRecord) {
    r.x.Some? && r.y.Some?
  }

  /** The points drawn for `hits`, in record order, keeping the records that
      carry both coordinates and pass `keep`. */
  function PlotPointsWith(hits: seq<HitRecord>, keep: HitRecord -> bool): seq<(int, int)> {
    if hits == [] then []
    else
      var rest := PlotPointsWith(hits[..|hits| - 1], keep);
      var r := hits[|hits| - 1];
      if r.x.Some? && r.y.Some? && keep(r) then rest + [(r.x.value, r.y.value)] else rest
  }

  /** The chart the `plot_hit_location` loop draws. */
  function PlotPointsAsWritten(hits: seq<HitRecord>): seq<(int, int)> {
    PlotPointsWith(hits, PlottedAsWritten)
  }

  /** The chart with every record that carries both coordinates. */
  function PlotPoints(hits: seq<HitRecord>): seq<(int, int)> {
    PlotPointsWith(hits, IsPlotted)
  }

  /** Drawing the chart for two runs of records draws both charts. */
  lemma {:induction false} PlotPointsAppend(a: seq<HitRecord>, b: seq<HitRecord>, keep: HitRecord -> bool)
    ensures PlotPointsWith(a + b, keep) == PlotPointsWith(a, keep) + PlotPointsWith(b, keep)
    decreases |b|
  {
    if b != [] {
      var b' := b[..|b| - 1];
      assert (a + b)[..|a + b| - 1] == a + b';
      assert (a + b)[|a + b| - 1] == b[|b| - 1];
      PlotPointsAppend(a, b', keep);
    } else {
      assert a + b == a;
    }
  }

  /** A point is drawn exactly when some record that passes `keep` carries it
      as its coordinates. */
  lemma {:induction false} PlotPointsWithExactly(hits: seq<HitRecord>, keep: HitRecord -> bool, p: (int, int))
    ensures p in PlotPointsWith(hits, keep) <==>
      exists i :: 0 <= i < |hits| && hits[i].x == Some(p.0) && hits[i].y == Some(p.1) && keep(hits[i])
    decreases |hits|
  {
    if hits != [] {
      var front := hits[..|hits| - 1];
      PlotPointsWithExactly(front, keep, p);
      if exists i :: 0 <= i < |hits| && hits[i].x == Some(p.0) && hits[i].y == Some(p.1) && keep(hits[i]) {
        var i :| 0 <= i < |hits| && hits[i].x == Some(p.0) && hits[i].y == Some(p.1) && keep(hits[i]);
        if i < |front| {
          assert front[i] == hits[i];
        }
      }
      if p in PlotPointsWith(front, keep) {
        var i :| 0 <= i < |front| && front[i].x == Some(p.0) && front[i].y == Some(p.1) && keep(front[i]);
        assert hits[i] == front[i];
      }
    }
  }

  /** The loop as written draws a point exactly when some record carries it
      and neither of its coordinates is 0. */
  lemma PlotPointsAsWrittenExactly(hits: seq<HitRecord>, p: (int, int))
    ensures p in PlotPointsAsWritten(hits) <==>
      exists i :: 0 <= i < |hits| && hits[i].x == Some(p.0) && hits[i].y == Some(p.1) && p.0 != 0 && p.1 != 0
  {
    PlotPointsWithExactly(hits, PlottedAsWritten, p);
  }

  /** The intended chart draws a point exactly when some record carries it. */
  lemma PlotPointsExactly(hits: seq<HitRecord>, p: (int, int))
    ensures p in PlotPoints(hits) <==>
      exists i :: 0 <= i < |hits| && hits[i].x == Some(p.0) && hits[i].y == Some(p.1)
  {
    PlotPointsWithExactly(hits, IsPlotted, p);
  }

  /** A click at the left edge of the field image commits a record, and the
      chart as written does not draw it: its points are those before the
      click, while the intended chart gains the point. */
  lemma EdgeClickIsNotPlottedAsWritten(s: Session, id: string)
    requires s.stage == LogHitLocation
    ensures var t := Step(s, ClickField(Some(Click(Some(0), Some(150))), id, false));
      && |t.hitData| == |s.hitData| + 1
      && !PlottedAsWritten(t.hitData[|s.hitData|])
      && PlotPointsAsWritten(t.hitData) == PlotPointsAsWritten(s.hitData)
      && PlotPoints(t.hitData) == PlotPoints(s.hitData) + [(0, 150)]
  {
  }

  /** With the intended filter, a click that reports both coordinates adds
      exactly its point to the chart. */
  lemma ClickedHitIsPlotted(s: Session, c: Click, id: string, insertRaises: bool)
    requires c.x.Some? && c.y.Some?
    ensures PlotPoints(Step(s, ClickField(Some(c), id, insertRaises)).hitData)
         == PlotPoints(s.hitData) + [(c.x.value, c.y.value)]
  {
  }
}

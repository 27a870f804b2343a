/**
 * The progress handler of the transcoder: ffmpeg reports a completion percentage, and
 * the handler sends `⚙️ Transcoding: <floor(percent)>% done` whenever the percentage is
 * present, non-zero and its floor is a multiple of ten. It keeps no state between
 * reports: it is not a filter on crossed 10% boundaries.
 *
 * A report's percentage is `None` when it is absent or not a number (both falsy).
 */
module Progress {
  import opened Wrappers
  import opened Text

  /** `progress.percent && Math.floor(progress.percent) % 10 === 0`. */
  predicate Sends(percent: Option<real>)
  {
    percent.Some? && percent.value != 0.0 && percent.value.Floor % 10 == 0
  }

  function ProgressText(k: int): string
  {
    "\U{2699}\U{FE0F} Transcoding: " + ShowInt(k) + "% done"
  }

  /**
   * The message a report produces, if any: one exactly for a present, non-zero percentage
   * lying in some window [10k, 10k + 1), and it carries the percentage's floor.
   */
  function OnProgress(percent: Option<real>): (r: Option<string>)
    ensures r.Some? <==> percent.Some? && percent.value != 0.0 && exists k :: InTenWindow(percent.value, k)
    ensures r.Some? ==> r.value == "\U{2699}\U{FE0F} Transcoding: " + ShowInt(percent.value.Floor) + "% done"
  {
    if percent.None? then None
    else
      SendsIffInWindow(percent.value);
      if Sends(percent) then Some(ProgressText(percent.value.Floor)) else None
  }

  /** The percentages reported to the user for a stream of reports, in report order. */
  function NotifiedPercents(reports: seq<Option<real>>): seq<int>
  {
    if |reports| == 0 then []
    else
      var last := reports[|reports| - 1];
      NotifiedPercents(reports[..|reports| - 1]) + (if Sends(last) then [last.value.Floor] else [])
  }

  /** x lies in the one-unit window that starts at the multiple of ten 10k. */
  predicate InTenWindow(x: real, k: int)
  {
    (10 * k) as real <= x < (10 * k + 1) as real
  }

  // ---------------------------------------------------------------------------

  /**
   * The handler sends exactly for the non-zero percentages that lie in some window
   * [10k, 10k + 1): a percentage anywhere else sends nothing, whatever came before.
   */
  lemma SendsIffInWindow(x: real)
    ensures Sends(Some(x)) <==> x != 0.0 && exists k :: InTenWindow(x, k)
  {
    var f := x.Floor;
    assert f as real <= x < (f + 1) as real;
    if Sends(Some(x)) {
      var k := f / 10;
      assert 10 * k == f;
      assert InTenWindow(x, k);
    }
    if x != 0.0 && exists k :: InTenWindow(x, k) {
      var k :| InTenWindow(x, k);
      assert f < 10 * k + 1 && 10 * k < f + 1 by {
        assert (f as real) < (10 * k + 1) as real;
        assert ((10 * k) as real) < (f + 1) as real;
      }
      assert f == 10 * k;
      assert f % 10 == 0;
    }
  }

  /** A fraction of one percent is reported as "0% done". */
  lemma FractionReportsZero(x: real)
    requires 0.0 < x < 1.0
    ensures OnProgress(Some(x)) == Some("\U{2699}\U{FE0F} Transcoding: " + "0" + "% done")
  {
    assert x.Floor == 0;
    assert ShowInt(0) == "0";
  }

  /** Every report in [10, 11) sends "10% done" again: nothing suppresses repeats. */
  lemma RepeatsWithinWindow(reports: seq<Option<real>>)
    requires forall i :: 0 <= i < |reports| ==> reports[i].Some? && 10.0 <= reports[i].value < 11.0
    ensures NotifiedPercents(reports) == seq(|reports|, i => 10)
  {
    if |reports| > 0 {
      var init := reports[..|reports| - 1];
      RepeatsWithinWindow(init);
      assert reports[|reports| - 1].value.Floor == 10;
    }
  }

  lemma NotifiedSnoc(init: seq<Option<real>>, last: Option<real>)
    ensures NotifiedPercents(init + [last]) == NotifiedPercents(init) + (if Sends(last) then [last.value.Floor] else [])
  {
    assert (init + [last])[..|init|] == init;
  }

  /** A jump from 9% to 27% crosses the 10% and 20% boundaries and sends nothing. */
  lemma JumpSendsNothing()
    ensures NotifiedPercents([Some(9.0), Some(27.0)]) == []
  {
    NotifiedSnoc([], Some(9.0));
    NotifiedSnoc([Some(9.0)], Some(27.0));
  }

  /** The stream 3, 11, 27, 99, 100 sends only "100% done", not 10, 20 and 90. */
  lemma BoundaryExample()
    ensures NotifiedPercents([Some(3.0), Some(11.0), Some(27.0), Some(99.0), Some(100.0)]) == [100]
  {
    var a, b, c, d, e := Some(3.0), Some(11.0), Some(27.0), Some(99.0), Some(100.0);
    assert !Sends(a) by { assert (3.0).Floor == 3; }
    assert !Sends(b) by { assert (11.0).Floor == 11; }
    assert !Sends(c) by { assert (27.0).Floor == 27; }
    assert !Sends(d) by { assert (99.0).Floor == 99; }
    assert Sends(e) && e.value.Floor == 100 by { assert (100.0).Floor == 100; }
    assert NotifiedPercents([a]) == [] by {
      NotifiedSnoc([], a);
      assert [] + [a] == [a];
    }
    assert NotifiedPercents([a, b]) == [] by {
      NotifiedSnoc([a], b);
      assert [a] + [b] == [a, b];
    }
    assert NotifiedPercents([a, b, c]) == [] by {
      NotifiedSnoc([a, b], c);
      assert [a, b] + [c] == [a, b, c];
    }
    assert NotifiedPercents([a, b, c, d]) == [] by {
      NotifiedSnoc([a, b, c], d);
      assert [a, b, c] + [d] == [a, b, c, d];
    }
    NotifiedSnoc([a, b, c, d], e);
    assert [a, b, c, d] + [e] == [a, b, c, d, e];
  }

  /** Each notified percentage is a multiple of ten and is the floor of one of the reports. */
  lemma {:induction false} NotifiedPercentsSound(reports: seq<Option<real>>)
    ensures |NotifiedPercents(reports)| <= |reports|
    ensures forall j :: 0 <= j < |NotifiedPercents(reports)| ==>
      NotifiedPercents(reports)[j] % 10 == 0 &&
      exists i :: 0 <= i < |reports| && reports[i].Some? && reports[i].value.Floor == NotifiedPercents(reports)[j]
  {
    if |reports| > 0 {
      var init := reports[..|reports| - 1];
      NotifiedPercentsSound(init);
      var p := NotifiedPercents(reports);
      forall j | 0 <= j < |p|
        ensures p[j] % 10 == 0 &&
          exists i :: 0 <= i < |reports| && reports[i].Some? && reports[i].value.Floor == p[j]
      {
        if j < |NotifiedPercents(init)| {
          assert p[j] == NotifiedPercents(init)[j];
          var i :| 0 <= i < |init| && init[i].Some? && init[i].value.Floor == p[j];
          assert reports[i] == init[i];
        } else {
          assert reports[|reports| - 1].value.Floor == p[j];
        }
      }
    }
  }

  predicate NonDecreasing(reports: seq<Option<real>>)
  {
    forall i, j :: 0 <= i < j < |reports| && reports[i].Some? && reports[j].Some? ==>
      reports[i].value <= reports[j].value
  }

  /** When ffmpeg's percentages never go down, neither do the notified ones. */
  lemma {:induction false} NotifiedPercentsMonotone(reports: seq<Option<real>>)
    requires NonDecreasing(reports)
    ensures forall i, j :: 0 <= i < j < |NotifiedPercents(reports)| ==>
      NotifiedPercents(reports)[i] <= NotifiedPercents(reports)[j]
  {
    if |reports| > 0 {
      var init := reports[..|reports| - 1];
      var last := reports[|reports| - 1];
      assert NonDecreasing(init);
      NotifiedPercentsMonotone(init);
      NotifiedPercentsSound(init);
      var p, q := NotifiedPercents(reports), NotifiedPercents(init);
      if Sends(last) {
        forall j | 0 <= j < |q|
          ensures q[j] <= last.value.Floor
        {
          assert q[j] % 10 == 0;
          var i :| 0 <= i < |init| && init[i].Some? && init[i].value.Floor == q[j];
          assert reports[i] == init[i];
          assert init[i].value <= last.value;
        }
      }
    }
  }
}

/**
 * The bottom-of-list detector of `handleScroll` (app/home/index.js).
 *
 * Scroll metrics are integers; the one-unit tolerance of the source is kept.
 * The part of the screen's state the detector touches is the flag
 * `isEndReached` and the page counter.
 */
module ScrollEdge {

  /** One scroll event: content height, viewport height and vertical offset. */
  datatype Sample = Sample(contentHeight: int, viewportHeight: int, scrollOffset: int)

  datatype Detector = Detector(isEndReached: bool, page: int)

  /** `scrollOffset >= bottomPosition - 1` with `bottomPosition = contentHeight - viewportHeight`. */
  predicate AtBottom(s: Sample)
    ensures AtBottom(s) <==> s.contentHeight - s.viewportHeight - s.scrollOffset <= 1
  {
    var bottomPosition := s.contentHeight - s.viewportHeight;
    s.scrollOffset >= bottomPosition - 1
  }

  /** A sample triggers the next-page fetch only on reaching the bottom, not while staying there. */
  predicate Fires(d: Detector, s: Sample)
    ensures Fires(d, s) ==> AtBottom(s)
    ensures d.isEndReached ==> !Fires(d, s)
    ensures AtBottom(s) && !d.isEndReached ==> Fires(d, s)
  {
    AtBottom(s) && !d.isEndReached
  }

  /** The effect of one sample on the flag and the page counter. */
  function Step(d: Detector, s: Sample): (r: Detector)
    ensures r.isEndReached == AtBottom(s)
    ensures r.page == if Fires(d, s) then d.page + 1 else d.page
  {
    if AtBottom(s) then
      if !d.isEndReached then Detector(true, d.page + 1) else d
    else if d.isEndReached then Detector(false, d.page)
    else d
  }

  /** The effect of a sequence of samples, one after the other. */
  function Run(d: Detector, samples: seq<Sample>): Detector
    decreases |samples|
  {
    if samples == [] then d else Run(Step(d, samples[0]), samples[1..])
  }

  /** Independent count of the fetches a sample sequence triggers: the samples
      at the bottom whose predecessor (the initial flag for the first one)
      was not. */
  function RisingEdges(wasAtBottom: bool, samples: seq<Sample>): nat
    decreases |samples|
  {
    if samples == [] then 0
    else
      var last := samples[|samples| - 1];
      var before := if |samples| == 1 then wasAtBottom else AtBottom(samples[|samples| - 2]);
      RisingEdges(wasAtBottom, samples[..|samples| - 1]) + (if AtBottom(last) && !before then 1 else 0)
  }

  lemma {:induction false} RunAppend(d: Detector, s: seq<Sample>, t: seq<Sample>)
    ensures Run(d, s + t) == Run(Run(d, s), t)
    decreases |s|
  {
    if s == [] {
      assert s + t == t;
    } else {
      assert (s + t)[0] == s[0];
      assert (s + t)[1..] == s[1..] + t;
      RunAppend(Step(d, s[0]), s[1..], t);
    }
  }

  /** After a run the flag is the last sample's at-bottom condition, and the
      page has grown by exactly the number of rising edges. */
  lemma {:induction false} RunCountsRisingEdges(d: Detector, samples: seq<Sample>)
    ensures Run(d, samples).page == d.page + RisingEdges(d.isEndReached, samples)
    ensures Run(d, samples).isEndReached
         == if samples == [] then d.isEndReached else AtBottom(samples[|samples| - 1])
    decreases |samples|
  {
    if samples != [] {
      var n := |samples|;
      var init := samples[..n - 1];
      assert samples == init + [samples[n - 1]];
      RunAppend(d, init, [samples[n - 1]]);
      RunCountsRisingEdges(d, init);
      assert Run(Run(d, init), [samples[n - 1]]) == Step(Run(d, init), samples[n - 1]);
      if n > 1 {
        assert init[|init| - 1] == samples[n - 2];
      }
    }
  }

  /** Any number of consecutive samples at the bottom raise the page by one
      if the detector was armed, and by nothing if it was not. */
  lemma {:induction false} StayAtBottom(d: Detector, samples: seq<Sample>)
    requires samples != []
    requires forall i :: 0 <= i < |samples| ==> AtBottom(samples[i])
    ensures Run(d, samples) == Detector(true, if d.isEndReached then d.page else d.page + 1)
    decreases |samples|
  {
    var next := Step(d, samples[0]);
    assert next == Detector(true, if d.isEndReached then d.page else d.page + 1);
    if |samples| > 1 {
      assert forall i :: 0 <= i < |samples[1..]| ==> AtBottom(samples[1..][i]) by {
        forall i | 0 <= i < |samples[1..]| ensures AtBottom(samples[1..][i]) {
          assert samples[1..][i] == samples[i + 1];
        }
      }
      StayAtBottom(next, samples[1..]);
    }
  }

  /** Samples away from the bottom re-arm the detector and leave the page alone. */
  lemma {:induction false} AwayFromBottom(d: Detector, samples: seq<Sample>)
    requires samples != []
    requires forall i :: 0 <= i < |samples| ==> !AtBottom(samples[i])
    ensures Run(d, samples) == Detector(false, d.page)
    decreases |samples|
  {
    var next := Step(d, samples[0]);
    if |samples| > 1 {
      assert forall i :: 0 <= i < |samples[1..]| ==> !AtBottom(samples[1..][i]) by {
        forall i | 0 <= i < |samples[1..]| ensures !AtBottom(samples[1..][i]) {
          assert samples[1..][i] == samples[i + 1];
        }
      }
      AwayFromBottom(next, samples[1..]);
    }
  }

  /** Reaching the bottom, leaving it and reaching it again loads two pages. */
  lemma LeaveAndReturn(d: Detector, first: seq<Sample>, away: seq<Sample>, again: seq<Sample>)
    requires !d.isEndReached
    requires first != [] && away != [] && again != []
    requires forall i :: 0 <= i < |first| ==> AtBottom(first[i])
    requires forall i :: 0 <= i < |away| ==> !AtBottom(away[i])
    requires forall i :: 0 <= i < |again| ==> AtBottom(again[i])
    ensures Run(d, first + away + again) == Detector(true, d.page + 2)
  {
    RunAppend(d, first + away, again);
    RunAppend(d, first, away);
    StayAtBottom(d, first);
    AwayFromBottom(Run(d, first), away);
    StayAtBottom(Run(d, first + away), again);
  }

  /** The page counter never decreases over a run. */
  lemma RunNeverLowersPage(d: Detector, samples: seq<Sample>)
    ensures Run(d, samples).page >= d.page
  {
    RunCountsRisingEdges(d, samples);
  }
}

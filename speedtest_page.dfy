/**
 * The speed-test page's own chart state: a download history recorded while the test
 * reports state 1 and an upload history recorded while it reports state 3, each a
 * deduplicated log of at most 30 samples, both cleared when the state is -1; the
 * 20-point zero line drawn while a history is empty; and the choice between the start
 * and the abort button.
 */
module SpeedtestPage {
  import RecentLog
  import SpeedtestStatus
  import Wrappers

  /** A history keeps at most this many samples (`slice(-30)`). */
  const HistoryCap: nat := 30

  /** An empty history is drawn as this many zero points. */
  const PlaceholderLength: nat := 20

  /** One chart sample: a time stamp (`Date.now()`, or an index for the placeholder) and
      the parsed reading. */
  datatype Sample = Sample(time: int, val: real)

  /** Samples are deduplicated on their value alone. */
  function Val(s: Sample): real { s.val }

  /** The updater `prev => last is val ? prev : [...prev, { time: now, val }].slice(-30)`. */
  function Record(prev: seq<Sample>, now: int, val: real): (r: seq<Sample>)
    ensures |prev| > 0 && prev[|prev| - 1].val == val ==> r == prev
    ensures !(|prev| > 0 && prev[|prev| - 1].val == val) ==>
              |r| > 0 && r[|r| - 1] == Sample(now, val) && r[..|r| - 1] == RecentLog.Recent(prev, HistoryCap - 1)
    ensures |prev| <= HistoryCap ==> |r| <= HistoryCap
  {
    RecentLog.Push(prev, Sample(now, val), Val, HistoryCap)
  }

  datatype Histories = Histories(dl: seq<Sample>, ul: seq<Sample>)

  /** What one run of the history effect sees: the test state and the two readings
      already parsed, and the time. */
  datatype Observation = Observation(testState: int, dlVal: real, ulVal: real, now: int)

  /** One run of the history effect. */
  function HistoryEffect(h: Histories, o: Observation): (r: Histories)
    ensures o.testState == -1 ==> r == Histories([], [])
    ensures o.testState != 1 && o.testState != -1 ==> r.dl == h.dl
    ensures o.testState != 3 && o.testState != -1 ==> r.ul == h.ul
    ensures o.testState == 1 ==> r.dl == Record(h.dl, o.now, o.dlVal)
    ensures o.testState == 3 ==> r.ul == Record(h.ul, o.now, o.ulVal)
  {
    if o.testState == -1 then Histories([], [])
    else if o.testState == 1 then h.(dl := Record(h.dl, o.now, o.dlVal))
    else if o.testState == 3 then h.(ul := Record(h.ul, o.now, o.ulVal))
    else h
  }

  function HistoryEffects(h: Histories, os: seq<Observation>): Histories
    decreases |os|
  {
    if os == [] then h else HistoryEffects(HistoryEffect(h, os[0]), os[1..])
  }

  /** The download samples a run of observations proposes: those seen in state 1. */
  function DlSamples(os: seq<Observation>): seq<Sample>
    decreases |os|
  {
    if os == [] then []
    else (if os[0].testState == 1 then [Sample(os[0].now, os[0].dlVal)] else []) + DlSamples(os[1..])
  }

  /** The upload samples a run of observations proposes: those seen in state 3. */
  function UlSamples(os: seq<Observation>): seq<Sample>
    decreases |os|
  {
    if os == [] then []
    else (if os[0].testState == 3 then [Sample(os[0].now, os[0].ulVal)] else []) + UlSamples(os[1..])
  }

  predicate NoReset(os: seq<Observation>) {
    forall i :: 0 <= i < |os| ==> os[i].testState != -1
  }

  /** Between resets, each history is its samples pushed one by one. */
  lemma {:induction false} HistoryEffectsPush(h: Histories, os: seq<Observation>)
    requires NoReset(os)
    ensures HistoryEffects(h, os).dl == RecentLog.PushAll(h.dl, DlSamples(os), Val, HistoryCap)
    ensures HistoryEffects(h, os).ul == RecentLog.PushAll(h.ul, UlSamples(os), Val, HistoryCap)
    decreases |os|
  {
    if os != [] {
      var o := os[0];
      var h1 := HistoryEffect(h, o);
      assert NoReset(os[1..]) by {
        forall i | 0 <= i < |os[1..]| ensures os[1..][i].testState != -1 {
          assert os[1..][i] == os[i + 1];
        }
      }
      HistoryEffectsPush(h1, os[1..]);
      var dl := DlSamples(os[1..]);
      var ul := UlSamples(os[1..]);
      if o.testState == 1 {
        assert DlSamples(os) == [Sample(o.now, o.dlVal)] + dl;
        assert ([Sample(o.now, o.dlVal)] + dl)[1..] == dl;
      } else {
        assert DlSamples(os) == dl;
      }
      if o.testState == 3 {
        assert UlSamples(os) == [Sample(o.now, o.ulVal)] + ul;
        assert ([Sample(o.now, o.ulVal)] + ul)[1..] == ul;
      } else {
        assert UlSamples(os) == ul;
      }
    }
  }

  /** After a reset to state -1, each history holds the last 30 of its samples once every
      run of equal consecutive values is reduced to its first sample: at most 30 entries
      and never two equal neighbouring values. */
  lemma HistoriesAreRecentDistinctSamples(os: seq<Observation>)
    requires NoReset(os)
    ensures var h := HistoryEffects(Histories([], []), os);
      && h.dl == RecentLog.Recent(RecentLog.Collapse(DlSamples(os), Val), HistoryCap)
      && h.ul == RecentLog.Recent(RecentLog.Collapse(UlSamples(os), Val), HistoryCap)
      && |h.dl| <= HistoryCap && |h.ul| <= HistoryCap
      && RecentLog.NoAdjacentRepeats(h.dl, Val) && RecentLog.NoAdjacentRepeats(h.ul, Val)
  {
    HistoryEffectsPush(Histories([], []), os);
    RecentLog.FromEmpty(DlSamples(os), Val, HistoryCap);
    RecentLog.FromEmpty(UlSamples(os), Val, HistoryCap);
  }

  /** Whatever the page observes, resets included, neither history grows beyond 30. */
  lemma {:induction false} HistoriesStayBounded(h: Histories, os: seq<Observation>)
    requires |h.dl| <= HistoryCap && |h.ul| <= HistoryCap
    ensures |HistoryEffects(h, os).dl| <= HistoryCap && |HistoryEffects(h, os).ul| <= HistoryCap
    decreases |os|
  {
    if os != [] {
      HistoriesStayBounded(HistoryEffect(h, os[0]), os[1..]);
    }
  }

  /** Running the effect again on the same state and readings changes nothing, whatever
      the time: skipping a run whose dependencies did not change is harmless. */
  lemma HistoryEffectIdempotent(h: Histories, o: Observation, later: int)
    ensures HistoryEffect(HistoryEffect(h, o), o.(now := later)) == HistoryEffect(h, o)
  {
    var h1 := HistoryEffect(h, o);
    if o.testState == 1 {
      var d := Record(h.dl, o.now, o.dlVal);
      assert d[|d| - 1].val == o.dlVal;
      assert Record(d, later, o.dlVal) == d;
    } else if o.testState == 3 {
      var u := Record(h.ul, o.now, o.ulVal);
      assert u[|u| - 1].val == o.ulVal;
      assert Record(u, later, o.ulVal) == u;
    }
  }

  /** The zero line: points `{ time: i, val: 0 }` for `i` in 0..19. */
  function Placeholder(): (r: seq<Sample>)
    ensures |r| == PlaceholderLength
    ensures forall i :: 0 <= i < |r| ==> r[i] == Sample(i, 0.0)
  {
    seq(PlaceholderLength, i => Sample(i, 0.0))
  }

  /** `dlChartData` / `ulChartData`: a chart is never drawn without points. */
  function ChartData(history: seq<Sample>): (r: seq<Sample>)
    ensures |r| > 0
    ensures |history| > 0 ==> r == history
    ensures |history| == 0 ==> |r| == PlaceholderLength && forall i :: 0 <= i < |r| ==> r[i] == Sample(i, 0.0)
  {
    if |history| == 0 then Placeholder() else history
  }

  /** A test is in progress in states 1, 2 and 3. */
  predicate IsTesting(testState: int): (b: bool)
    ensures b <==> SpeedtestStatus.Measuring(Wrappers.Some(testState))
  {
    testState > 0 && testState < 4
  }

  datatype Control = StartButton | AbortButton

  /** The button the control bar shows. */
  function ControlFor(testState: int): (c: Control)
    ensures c == StartButton <==> testState <= 0 || testState >= 4
  {
    if !IsTesting(testState) then StartButton else AbortButton
  }

  /** The start button shows while idle (-1), while the test is being set up (0) and once
      it has finished (4); the abort button shows in the three measuring states. */
  lemma ButtonPerState()
    ensures ControlFor(-1) == StartButton && ControlFor(0) == StartButton && ControlFor(4) == StartButton
    ensures ControlFor(1) == AbortButton && ControlFor(2) == AbortButton && ControlFor(3) == AbortButton
  {
  }

  /** The page's two history slots, overwritten by the effect. */
  class Page {
    var dlHistory: seq<Sample>
    var ulHistory: seq<Sample>

    constructor ()
      ensures dlHistory == [] && ulHistory == []
    {
      dlHistory, ulHistory := [], [];
    }

    /** The history `useEffect`, run with the hook's current state and readings. */
    method RunHistoryEffect(o: Observation)
      modifies this
      ensures Histories(dlHistory, ulHistory) == HistoryEffect(old(Histories(dlHistory, ulHistory)), o)
    {
      if o.testState == -1 {
        dlHistory := [];
        ulHistory := [];
        return;
      }
      if o.testState == 1 {
        dlHistory := Record(dlHistory, o.now, o.dlVal);
      } else if o.testState == 3 {
        ulHistory := Record(ulHistory, o.now, o.ulVal);
      }
    }
  }
}

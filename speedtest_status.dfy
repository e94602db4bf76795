/**
 * The record the speed-test hook publishes (`SpeedtestResult`) and how one status
 * message from the measurement worker is folded into it: a last-write-wins merge of
 * the fields the message carries, plus an append to the `chartData` sample log that
 * happens only for the three measuring states, skips a point equal to the last one
 * and keeps at most 60 points.
 */
module SpeedtestStatus {
  import opened Wrappers
  import RecentLog

  /** `chartData` keeps at most this many points (`slice(-60)`). */
  const ChartCap: nat := 60

  /** One chart point. The hook stores the message's own `dlStatus` and `ulStatus`,
      which are absent (`undefined`) when the message does not carry them. */
  datatype ChartPoint = ChartPoint(dl: Option<string>, ul: Option<string>)

  /** The published record. Progress values are the worker's numbers, compared only. */
  datatype SpeedtestResult = SpeedtestResult(
    testState: int,
    dlStatus: string,
    ulStatus: string,
    pingStatus: string,
    jitterStatus: string,
    clientIp: string,
    dlProgress: real,
    ulProgress: real,
    pingProgress: real,
    testId: Option<string>,
    chartData: seq<ChartPoint>)

  /** The state before any test: idle (-1), zero readings, no address, no chart. */
  const InitialResult: SpeedtestResult :=
    SpeedtestResult(-1, "0.00", "0.00", "0", "0", "", 0.0, 0.0, 0.0, None, [])

  /** A parsed status message: every field may be missing. */
  datatype StatusMessage = StatusMessage(
    testState: Option<int>,
    dlStatus: Option<string>,
    ulStatus: Option<string>,
    pingStatus: Option<string>,
    jitterStatus: Option<string>,
    clientIp: Option<string>,
    dlProgress: Option<real>,
    ulProgress: Option<real>,
    pingProgress: Option<real>,
    testId: Option<string>)

  /** The message `{}`. */
  const NoFields: StatusMessage :=
    StatusMessage(None, None, None, None, None, None, None, None, None, None)

  /** What the worker channel delivers: text that `JSON.parse` rejects, or a message. */
  datatype WorkerEvent = Garbled | Parsed(data: StatusMessage)

  /** The patch field `p` leaves `after` as `p`'s value if present and as `before` if not. */
  predicate Wins<T(==)>(p: Option<T>, before: T, after: T) {
    if p.Some? then after == p.value else after == before
  }

  /** `{ ...prev, ...data }` on the published fields; the chart is handled separately. */
  function Merge(prev: SpeedtestResult, data: StatusMessage): (next: SpeedtestResult)
    ensures Wins(data.testState, prev.testState, next.testState)
    ensures Wins(data.dlStatus, prev.dlStatus, next.dlStatus)
    ensures Wins(data.ulStatus, prev.ulStatus, next.ulStatus)
    ensures Wins(data.pingStatus, prev.pingStatus, next.pingStatus)
    ensures Wins(data.jitterStatus, prev.jitterStatus, next.jitterStatus)
    ensures Wins(data.clientIp, prev.clientIp, next.clientIp)
    ensures Wins(data.dlProgress, prev.dlProgress, next.dlProgress)
    ensures Wins(data.ulProgress, prev.ulProgress, next.ulProgress)
    ensures Wins(data.pingProgress, prev.pingProgress, next.pingProgress)
    ensures data.testId.Some? ==> next.testId == data.testId
    ensures data.testId.None? ==> next.testId == prev.testId
    ensures next.chartData == prev.chartData
  {
    prev.(
      testState := data.testState.GetOr(prev.testState),
      dlStatus := data.dlStatus.GetOr(prev.dlStatus),
      ulStatus := data.ulStatus.GetOr(prev.ulStatus),
      pingStatus := data.pingStatus.GetOr(prev.pingStatus),
      jitterStatus := data.jitterStatus.GetOr(prev.jitterStatus),
      clientIp := data.clientIp.GetOr(prev.clientIp),
      dlProgress := data.dlProgress.GetOr(prev.dlProgress),
      ulProgress := data.ulProgress.GetOr(prev.ulProgress),
      pingProgress := data.pingProgress.GetOr(prev.pingProgress),
      testId := if data.testId.Some? then data.testId else prev.testId)
  }

  /** `{ ...a, ...b }` on two messages: `b`'s fields win. */
  function Overlay(a: StatusMessage, b: StatusMessage): StatusMessage {
    StatusMessage(
      if b.testState.Some? then b.testState else a.testState,
      if b.dlStatus.Some? then b.dlStatus else a.dlStatus,
      if b.ulStatus.Some? then b.ulStatus else a.ulStatus,
      if b.pingStatus.Some? then b.pingStatus else a.pingStatus,
      if b.jitterStatus.Some? then b.jitterStatus else a.jitterStatus,
      if b.clientIp.Some? then b.clientIp else a.clientIp,
      if b.dlProgress.Some? then b.dlProgress else a.dlProgress,
      if b.ulProgress.Some? then b.ulProgress else a.ulProgress,
      if b.pingProgress.Some? then b.pingProgress else a.pingProgress,
      if b.testId.Some? then b.testId else a.testId)
  }

  /** A message carrying every published field of `r`. */
  function Snapshot(r: SpeedtestResult): StatusMessage {
    StatusMessage(Some(r.testState), Some(r.dlStatus), Some(r.ulStatus), Some(r.pingStatus),
                  Some(r.jitterStatus), Some(r.clientIp), Some(r.dlProgress), Some(r.ulProgress),
                  Some(r.pingProgress), r.testId)
  }

  /** Absent fields keep their value: merging `{}` changes nothing. */
  lemma MergeNothing(prev: SpeedtestResult)
    ensures Merge(prev, NoFields) == prev
  {
  }

  /** Present fields override: a message carrying a whole record replaces every published
      field, whatever came before (only `testId`, when the message lacks it, survives). */
  lemma MergeSnapshot(prev: SpeedtestResult, r: SpeedtestResult)
    requires r.testId.Some? || prev.testId.None?
    ensures Merge(prev, Snapshot(r)) == r.(chartData := prev.chartData)
  {
  }

  /** Last write wins: merging two messages one after the other is merging their overlay. */
  lemma MergeOverlay(prev: SpeedtestResult, a: StatusMessage, b: StatusMessage)
    ensures Merge(Merge(prev, a), b) == Merge(prev, Overlay(a, b))
  {
  }

  /** The message reports one of the states that record chart points (1, 2 or 3). */
  predicate Measuring(testState: Option<int>) {
    testState.Some? && 1 <= testState.value <= 3
  }

  /** The message reports a finished or aborted test (state 4 or more); an absent state
      compares false in JavaScript. */
  predicate StopsPolling(data: StatusMessage) {
    data.testState.Some? && data.testState.value >= 4
  }

  function PointOf(data: StatusMessage): ChartPoint {
    ChartPoint(data.dlStatus, data.ulStatus)
  }

  /** Chart points are compared whole (`dl` and `ul` with `!==`). */
  function PointKey(p: ChartPoint): ChartPoint { p }

  /** The chart after one message. */
  function AppendChart(chart: seq<ChartPoint>, data: StatusMessage): (r: seq<ChartPoint>)
    ensures !Measuring(data.testState) ==> r == chart
    ensures Measuring(data.testState) && |chart| > 0 && chart[|chart| - 1] == PointOf(data) ==> r == chart
    ensures Measuring(data.testState) && (|chart| == 0 || chart[|chart| - 1] != PointOf(data)) ==>
              |r| > 0 && r[|r| - 1] == PointOf(data) && r[..|r| - 1] == RecentLog.Recent(chart, ChartCap - 1)
    ensures |chart| <= ChartCap ==> |r| <= ChartCap
  {
    if Measuring(data.testState) then RecentLog.Push(chart, PointOf(data), PointKey, ChartCap)
    else chart
  }

  /** The `setResult` updater run for a parsed message. */
  function ApplyMessage(prev: SpeedtestResult, data: StatusMessage): (r: SpeedtestResult)
    ensures r.testState == data.testState.GetOr(prev.testState)
    ensures r.dlStatus == data.dlStatus.GetOr(prev.dlStatus) && r.ulStatus == data.ulStatus.GetOr(prev.ulStatus)
    ensures data == NoFields ==> r == prev
    ensures |prev.chartData| <= ChartCap ==> |r.chartData| <= ChartCap
  {
    Merge(prev, data).(chartData := AppendChart(prev.chartData, data))
  }

  /** The published record after one event from the worker channel. */
  function Receive(r: SpeedtestResult, ev: WorkerEvent): SpeedtestResult {
    match ev
    case Garbled => r
    case Parsed(data) => ApplyMessage(r, data)
  }

  /** The published record after a sequence of events, oldest first. */
  function ReceiveAll(r: SpeedtestResult, evs: seq<WorkerEvent>): SpeedtestResult
    decreases |evs|
  {
    if evs == [] then r else ReceiveAll(Receive(r, evs[0]), evs[1..])
  }

  /** The fields of a sequence of events, laid over each other in arrival order. */
  function Combined(evs: seq<WorkerEvent>): StatusMessage
    decreases |evs|
  {
    if evs == [] then NoFields
    else
      var first := if evs[0].Parsed? then evs[0].data else NoFields;
      Overlay(first, Combined(evs[1..]))
  }

  /** The chart points the events propose, in arrival order. */
  function Samples(evs: seq<WorkerEvent>): seq<ChartPoint>
    decreases |evs|
  {
    if evs == [] then []
    else
      (if evs[0].Parsed? && Measuring(evs[0].data.testState) then [PointOf(evs[0].data)] else [])
      + Samples(evs[1..])
  }

  /** Text that does not parse leaves the record exactly as it was. */
  lemma GarbledIsIgnored(r: SpeedtestResult)
    ensures Receive(r, Garbled) == r
  {
  }

  /** `{}` is neutral on either side of an overlay. */
  lemma OverlayNothing(a: StatusMessage)
    ensures Overlay(NoFields, a) == a && Overlay(a, NoFields) == a
  {
  }

  /** Every published field of the record after a run of events is the last value any
      message of the run carried for it, or its value before the run. */
  lemma {:induction false} ReceiveAllMerges(r: SpeedtestResult, evs: seq<WorkerEvent>)
    ensures ReceiveAll(r, evs) == Merge(r, Combined(evs)).(chartData := ReceiveAll(r, evs).chartData)
    decreases |evs|
  {
    if evs == [] {
      MergeNothing(r);
    } else {
      var r1 := Receive(r, evs[0]);
      var first := if evs[0].Parsed? then evs[0].data else NoFields;
      ReceiveAllMerges(r1, evs[1..]);
      assert r1 == Merge(r, first).(chartData := r1.chartData);
      MergeOverlay(r, first, Combined(evs[1..]));
    }
  }

  /** The chart after a run of events is the chart pushed with the run's samples. */
  lemma {:induction false} ReceiveAllChart(r: SpeedtestResult, evs: seq<WorkerEvent>)
    ensures ReceiveAll(r, evs).chartData ==
            RecentLog.PushAll(r.chartData, Samples(evs), PointKey, ChartCap)
    decreases |evs|
  {
    if evs != [] {
      var r1 := Receive(r, evs[0]);
      ReceiveAllChart(r1, evs[1..]);
      var rest := Samples(evs[1..]);
      if evs[0].Parsed? && Measuring(evs[0].data.testState) {
        var p := PointOf(evs[0].data);
        assert Samples(evs) == [p] + rest;
        assert ([p] + rest)[1..] == rest;
      } else {
        assert Samples(evs) == rest;
      }
    }
  }

  /** Starting from an empty chart, the chart is always the last 60 of the received
      samples once each run of equal consecutive samples is reduced to one, so it never
      exceeds 60 points and never holds two equal neighbours. */
  lemma ChartIsRecentDistinctSamples(r: SpeedtestResult, evs: seq<WorkerEvent>)
    requires r.chartData == []
    ensures ReceiveAll(r, evs).chartData ==
            RecentLog.Recent(RecentLog.Collapse(Samples(evs), PointKey), ChartCap)
    ensures |ReceiveAll(r, evs).chartData| <= ChartCap
    ensures RecentLog.NoAdjacentRepeats(ReceiveAll(r, evs).chartData, PointKey)
  {
    ReceiveAllChart(r, evs);
    RecentLog.FromEmpty(Samples(evs), PointKey, ChartCap);
  }

  /** A chart within the cap stays within it, whatever arrives. */
  lemma ChartStaysBounded(r: SpeedtestResult, evs: seq<WorkerEvent>)
    requires |r.chartData| <= ChartCap
    ensures |ReceiveAll(r, evs).chartData| <= ChartCap
  {
    ReceiveAllChart(r, evs);
    RecentLog.PushAllBounded(r.chartData, Samples(evs), PointKey, ChartCap);
  }

  /** The same measuring message twice in a row leaves the chart as receiving it once:
      the repeat adds no point. */
  lemma RepeatedMessageAddsOnePoint(r: SpeedtestResult, data: StatusMessage)
    requires Measuring(data.testState)
    ensures ReceiveAll(r, [Parsed(data), Parsed(data)]).chartData ==
            ReceiveAll(r, [Parsed(data)]).chartData
  {
    var once := ApplyMessage(r, data);
    assert ReceiveAll(r, [Parsed(data)]) == ReceiveAll(once, []);
    assert [Parsed(data), Parsed(data)][1..] == [Parsed(data)];
    assert ReceiveAll(once, [Parsed(data)]) == ReceiveAll(ApplyMessage(once, data), []);
    RecentLog.PushIdempotent(r.chartData, PointOf(data), PointKey, ChartCap);
  }
}

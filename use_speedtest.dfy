/**
 * The `useSpeedtest` hook as a state machine. It owns two handles, the measurement
 * worker and the polling interval, and it posts string commands to the worker:
 * `"start " + config` when a test starts, `"status"` on every tick of the interval,
 * `"abort"` when the test is aborted.
 *
 * `HookState` is the hook's state together with the host's view of it: which worker
 * and timer handles are live and which commands have been posted. The `After…`
 * functions say what each operation does to it, `Inv` is the invariant every
 * operation keeps (at most one live timer, and it is the one the hook holds), and
 * class `Hook` performs the operations step by step as the source does.
 */
module UseSpeedtest {
  import opened Wrappers
  import opened SpeedtestStatus

  /** A worker or timer handle handed out by the host. */
  type Handle = nat

  /** The commands the hook posts. */
  datatype Command = Start(config: string) | Status | Abort

  /** The command as the string posted to the worker. */
  function Encode(c: Command): string {
    match c
    case Start(config) => "start " + config
    case Status => "status"
    case Abort => "abort"
  }

  /** Different commands are different strings, so the worker can tell them apart. */
  lemma EncodeInjective(a: Command, b: Command)
    ensures Encode(a) == Encode(b) ==> a == b
  {
    if Encode(a) == Encode(b) {
      match a
      case Start(c) =>
        assert Encode(a)[..6] == "start ";
        assert Encode(a)[3] == 'r';
        if b.Start? {
          assert c == Encode(a)[6..] == Encode(b)[6..] == b.config;
        }
      case Status =>
        assert Encode(a)[3] == 't';
      case Abort =>
        assert Encode(a)[0] == 'a';
    }
  }

  /** `JSON.stringify` of the configuration sent with `start`. */
  const WorkerConfig: string :=
    "{\"telemetry_level\":\"basic\",\"url_getIp\":\"/api/getIp\",\"url_telemetry\":\"/api/telemetry\","
    + "\"url_dl\":\"backend/garbage.php\",\"url_ul\":\"backend/empty.php\",\"url_ping\":\"backend/empty.php\"}"

  /** A command posted to the worker with the given handle. */
  datatype Post = Post(to: Handle, cmd: Command)

  /** The hook's state (`result`, `workerRef`, `intervalRef`) and the host's view of it:
      the next handle the host hands out, the worker and timer handles that are live
      (not yet terminated or cleared), and every command posted so far. */
  datatype HookState = HookState(
    result: SpeedtestResult,
    worker: Option<Handle>,
    interval: Option<Handle>,
    nextHandle: Handle,
    liveWorkers: set<Handle>,
    liveTimers: set<Handle>,
    posted: seq<Post>)

  function HandleSet(h: Option<Handle>): set<Handle> {
    if h.Some? then {h.value} else {}
  }

  /** The state when the component mounts. */
  const Mounted: HookState := HookState(InitialResult, None, None, 1, {}, {}, [])

  /** The only live timer is the one `intervalRef` holds; a live worker is the one
      `workerRef` holds; while a timer is live the worker it polls is live; the host
      never hands out a held handle again; the chart is within its cap. */
  predicate Inv(s: HookState) {
    && s.liveTimers == HandleSet(s.interval)
    && s.liveWorkers <= HandleSet(s.worker)
    && (s.interval.Some? ==> s.worker.Some? && s.worker.value in s.liveWorkers)
    && (s.worker.Some? ==> s.worker.value < s.nextHandle)
    && (s.interval.Some? ==> s.interval.value < s.nextHandle)
    && |s.result.chartData| <= ChartCap
  }

  /** `cleanup`: clear the interval if there is one, and forget it. */
  function AfterCleanup(s: HookState): (r: HookState)
    ensures r.interval.None? && r.liveTimers <= s.liveTimers
    ensures s.interval.Some? ==> s.interval.value !in r.liveTimers
    ensures r.(interval := s.interval, liveTimers := s.liveTimers) == s
  {
    if s.interval.Some? then s.(liveTimers := s.liveTimers - {s.interval.value}, interval := None)
    else s
  }

  /** `workerRef.current.terminate()` when there is a worker; the reference is kept. */
  function AfterTerminate(s: HookState): (r: HookState)
    ensures r.liveWorkers <= s.liveWorkers
    ensures s.worker.Some? ==> s.worker.value !in r.liveWorkers
    ensures r.(liveWorkers := s.liveWorkers) == s
  {
    if s.worker.Some? then s.(liveWorkers := s.liveWorkers - {s.worker.value}) else s
  }

  /** `startTest`: clean up, terminate the old worker, create a worker and post `start`
      to it, create an interval, then reset the chart and set state 0. */
  function AfterStart(s: HookState): (r: HookState)
    ensures r.worker.Some? && r.interval.Some? && r.worker.value != r.interval.value
    ensures s.nextHandle <= r.worker.value && s.nextHandle <= r.interval.value && r.nextHandle > s.nextHandle
    ensures r.posted == s.posted + [Post(r.worker.value, Start(WorkerConfig))]
    ensures r.result.testState == 0 && r.result.chartData == []
  {
    var s1 := AfterTerminate(AfterCleanup(s));
    var w := s1.nextHandle;
    var s2 := s1.(worker := Some(w), nextHandle := w + 1, liveWorkers := s1.liveWorkers + {w},
                  posted := s1.posted + [Post(w, Start(WorkerConfig))]);
    var t := s2.nextHandle;
    s2.(interval := Some(t), nextHandle := t + 1, liveTimers := s2.liveTimers + {t},
        result := s2.result.(chartData := [], testState := 0))
  }

  /** `abortTest`: clean up; if there is a worker, post `abort`, terminate it and forget
      it; set state -1. */
  function AfterAbort(s: HookState): (r: HookState)
    ensures r.worker.None? && r.interval.None? && r.result.testState == -1
    ensures r.posted == if s.worker.Some? then s.posted + [Post(s.worker.value, Abort)] else s.posted
    ensures r.liveWorkers <= s.liveWorkers && r.liveTimers <= s.liveTimers
    ensures r.result.chartData == s.result.chartData
  {
    var s1 := AfterCleanup(s);
    var s2 :=
      if s1.worker.Some? then
        AfterTerminate(s1.(posted := s1.posted + [Post(s1.worker.value, Abort)])).(worker := None)
      else s1;
    s2.(result := s2.result.(testState := -1))
  }

  /** One firing of the live interval, if any: post `status` when there is a worker. */
  function AfterTick(s: HookState): (r: HookState)
    ensures r.(posted := s.posted) == s
    ensures r.posted == if s.interval.Some? && s.worker.Some? then s.posted + [Post(s.worker.value, Status)]
                        else s.posted
  {
    if s.interval.Some? && s.worker.Some? then s.(posted := s.posted + [Post(s.worker.value, Status)])
    else s
  }

  /** `onmessage`: garbled text is dropped; a message is folded into the result and,
      when it reports state 4 or more, polling stops. */
  function AfterMessage(s: HookState, ev: WorkerEvent): (r: HookState)
    ensures r.worker == s.worker && r.posted == s.posted && r.liveWorkers == s.liveWorkers
    ensures r.result == Receive(s.result, ev)
    ensures ev.Parsed? && StopsPolling(ev.data) ==> r.interval.None?
    ensures !(ev.Parsed? && StopsPolling(ev.data)) ==> r.interval == s.interval
  {
    match ev
    case Garbled => s
    case Parsed(data) =>
      var s1 := s.(result := ApplyMessage(s.result, data));
      if StopsPolling(data) then AfterCleanup(s1) else s1
  }

  /** The unmount teardown: clean up and terminate the worker (the reference is kept). */
  function AfterUnmount(s: HookState): (r: HookState)
    ensures r.interval.None? && r.liveTimers <= s.liveTimers && r.liveWorkers <= s.liveWorkers
    ensures s.worker.Some? ==> s.worker.value !in r.liveWorkers
    ensures r.posted == s.posted && r.result == s.result
  {
    AfterTerminate(AfterCleanup(s))
  }

  /** What can happen to the hook, one event at a time on the page's single thread. */
  datatype HookEvent = StartClicked | AbortClicked | TimerFired | WorkerMessage(ev: WorkerEvent) | Unmounted

  function Step(s: HookState, e: HookEvent): HookState {
    match e
    case StartClicked => AfterStart(s)
    case AbortClicked => AfterAbort(s)
    case TimerFired => AfterTick(s)
    case WorkerMessage(ev) => AfterMessage(s, ev)
    case Unmounted => AfterUnmount(s)
  }

  function Run(s: HookState, es: seq<HookEvent>): HookState
    decreases |es|
  {
    if es == [] then s else Run(Step(s, es[0]), es[1..])
  }

  lemma MountedSatisfiesInv()
    ensures Inv(Mounted)
  {
  }

  /** Every operation keeps the invariant. */
  lemma StepKeepsInv(s: HookState, e: HookEvent)
    requires Inv(s)
    ensures Inv(Step(s, e))
  {
    match e
    case WorkerMessage(Parsed(data)) =>
      assert |AppendChart(s.result.chartData, data)| <= ChartCap;
    case _ =>
  }

  /** Whatever happens, no two intervals are ever live together, a live interval always
      belongs to the live worker, and the chart stays within 60 points. */
  lemma {:induction false} RunKeepsInv(s: HookState, es: seq<HookEvent>)
    requires Inv(s)
    ensures Inv(Run(s, es))
    ensures |Run(s, es).liveTimers| <= 1 && |Run(s, es).liveWorkers| <= 1
    decreases |es|
  {
    if es != [] {
      StepKeepsInv(s, es[0]);
      RunKeepsInv(Step(s, es[0]), es[1..]);
    } else {
      assert s.liveWorkers == {} || s.liveWorkers == HandleSet(s.worker);
    }
  }

  /** `startTest` tears down the previous worker and interval before creating new ones,
      posts exactly one command (`start` with the configuration, to the new worker),
      empties the chart and shows state 0, every other field unchanged. */
  lemma StartReplacesHandles(s: HookState)
    requires Inv(s)
    ensures var t := AfterStart(s);
      && t.worker.Some? && t.interval.Some?
      && t.liveWorkers == {t.worker.value} && t.liveTimers == {t.interval.value}
      && (s.worker.Some? ==> s.worker.value !in t.liveWorkers)
      && (s.interval.Some? ==> s.interval.value !in t.liveTimers)
      && t.posted == s.posted + [Post(t.worker.value, Start(WorkerConfig))]
      && t.result == s.result.(chartData := [], testState := 0)
  {
  }

  /** `abortTest` leaves no worker and no interval, live or held, shows state -1 with
      every other field unchanged, and posts `abort` exactly when a worker existed. */
  lemma AbortReleasesHandles(s: HookState)
    requires Inv(s)
    ensures var t := AfterAbort(s);
      && t.worker.None? && t.interval.None?
      && t.liveWorkers == {} && t.liveTimers == {}
      && t.result == s.result.(testState := -1)
      && t.posted == s.posted + (if s.worker.Some? then [Post(s.worker.value, Abort)] else [])
  {
  }

  /** Aborting twice is aborting once. */
  lemma AbortIdempotent(s: HookState)
    ensures AfterAbort(AfterAbort(s)) == AfterAbort(s)
  {
  }

  /** A message that does not parse changes nothing: result, handles and posts. */
  lemma GarbledChangesNothing(s: HookState)
    ensures AfterMessage(s, Garbled) == s
  {
  }

  /** A tick posts at most one command, `status`, to the live worker. */
  lemma TickPostsAtMostOneStatus(s: HookState)
    requires Inv(s)
    ensures var t := AfterTick(s);
      && t == s.(posted := t.posted)
      && (t.posted == s.posted ||
          (s.worker.Some? && s.worker.value in s.liveWorkers
           && t.posted == s.posted + [Post(s.worker.value, Status)]))
  {
  }

  /** While the interval runs, every tick polls: it posts `status` to the worker, which
      is live. */
  lemma PollsWhileRunning(s: HookState)
    requires Inv(s) && s.interval.Some?
    ensures s.worker.Some? && s.worker.value in s.liveWorkers
    ensures AfterTick(s).posted == s.posted + [Post(s.worker.value, Status)]
  {
  }

  /** The teardown on unmount leaves no live worker and no live timer. */
  lemma UnmountReleasesAll(s: HookState)
    requires Inv(s)
    ensures AfterUnmount(s).liveWorkers == {} && AfterUnmount(s).liveTimers == {}
  {
  }

  /** `es` holds no start of a new test. */
  predicate NoStart(es: seq<HookEvent>) {
    forall i :: 0 <= i < |es| ==> !es[i].StartClicked?
  }

  /** No `status` command is posted after index `from` of the log. */
  predicate NoStatusSince(posted: seq<Post>, from: nat) {
    forall i :: from <= i < |posted| ==> posted[i].cmd != Status
  }

  /** With no interval held, nothing short of a new `startTest` posts `status` again:
      the log only grows, and nothing it gains is a `status`. */
  lemma {:induction false} QuietWhileStopped(s: HookState, es: seq<HookEvent>)
    requires s.interval.None? && NoStart(es)
    ensures |s.posted| <= |Run(s, es).posted|
    ensures Run(s, es).posted[..|s.posted|] == s.posted
    ensures NoStatusSince(Run(s, es).posted, |s.posted|)
    ensures Run(s, es).interval.None?
    decreases |es|
  {
    if es != [] {
      var s1 := Step(s, es[0]);
      assert NoStart(es[1..]) by {
        forall i | 0 <= i < |es[1..]| ensures !es[1..][i].StartClicked? {
          assert es[1..][i] == es[i + 1];
        }
      }
      assert s1.interval.None?;
      assert |s.posted| <= |s1.posted| && s1.posted[..|s.posted|] == s.posted;
      assert NoStatusSince(s1.posted, |s.posted|);
      QuietWhileStopped(s1, es[1..]);
      var t := Run(s1, es[1..]);
      assert t == Run(s, es);
      assert t.posted[..|s.posted|] == t.posted[..|s1.posted|][..|s.posted|];
    }
  }

  /** After a message reporting state 4 or more, no further `status` is posted, however
      many times the timer would have fired, until a new test starts. */
  lemma NoPollingAfterFinish(s: HookState, data: StatusMessage, es: seq<HookEvent>)
    requires StopsPolling(data) && NoStart(es)
    ensures var t := AfterMessage(s, Parsed(data));
      t.interval.None? && NoStatusSince(Run(t, es).posted, |s.posted|)
  {
    var t := AfterMessage(s, Parsed(data));
    QuietWhileStopped(t, es);
  }

  /** After `abortTest`, no further `status` is posted until a new test starts. */
  lemma NoPollingAfterAbort(s: HookState, es: seq<HookEvent>)
    requires NoStart(es)
    ensures NoStatusSince(Run(AfterAbort(s), es).posted, |AfterAbort(s).posted|)
  {
    QuietWhileStopped(AfterAbort(s), es);
  }

  /** The hook, updating its state step by step as the source does. The fields beside
      `result`, `worker` and `interval` record what the host sees. */
  class Hook {
    var result: SpeedtestResult
    var worker: Option<Handle>
    var interval: Option<Handle>
    var nextHandle: Handle
    ghost var liveWorkers: set<Handle>
    ghost var liveTimers: set<Handle>
    ghost var posted: seq<Post>

    ghost function State(): HookState
      reads this
    {
      HookState(result, worker, interval, nextHandle, liveWorkers, liveTimers, posted)
    }

    ghost predicate Valid()
      reads this
    {
      Inv(State())
    }

    /** Mounting: the initial result and no handles. */
    constructor ()
      ensures Valid() && State() == Mounted
      ensures result.testState == -1 && result.dlStatus == "0.00" && result.ulStatus == "0.00"
      ensures result.pingStatus == "0" && result.jitterStatus == "0" && result.clientIp == ""
      ensures result.dlProgress == 0.0 && result.ulProgress == 0.0 && result.pingProgress == 0.0
      ensures result.chartData == [] && worker.None? && interval.None?
    {
      result := InitialResult;
      worker, interval := None, None;
      nextHandle := 1;
      liveWorkers, liveTimers, posted := {}, {}, [];
    }

    method Cleanup()
      modifies this
      ensures State() == AfterCleanup(old(State()))
    {
      if interval.Some? {
        liveTimers := liveTimers - {interval.value};  // clearInterval
        interval := None;
      }
    }

    method StartTest()
      requires Valid()
      modifies this
      ensures Valid() && State() == AfterStart(old(State()))
    {
      Cleanup();
      if worker.Some? {
        liveWorkers := liveWorkers - {worker.value};  // terminate()
      }
      var w := nextHandle;  // new Worker(...)
      nextHandle := nextHandle + 1;
      worker := Some(w);
      liveWorkers := liveWorkers + {w};
      posted := posted + [Post(w, Start(WorkerConfig))];
      var t := nextHandle;  // setInterval(...)
      nextHandle := nextHandle + 1;
      interval := Some(t);
      liveTimers := liveTimers + {t};
      result := result.(chartData := [], testState := 0);
      StepKeepsInv(old(State()), StartClicked);
    }

    method AbortTest()
      requires Valid()
      modifies this
      ensures Valid() && State() == AfterAbort(old(State()))
    {
      Cleanup();
      if worker.Some? {
        posted := posted + [Post(worker.value, Abort)];
        liveWorkers := liveWorkers - {worker.value};  // terminate()
        worker := None;
      }
      result := result.(testState := -1);
      StepKeepsInv(old(State()), AbortClicked);
    }

    /** The interval's callback, run when the live interval fires. */
    method Tick()
      requires Valid()
      modifies this
      ensures Valid() && State() == AfterTick(old(State()))
    {
      if interval.Some? && worker.Some? {
        posted := posted + [Post(worker.value, Status)];
      }
      StepKeepsInv(old(State()), TimerFired);
    }

    method OnMessage(ev: WorkerEvent)
      requires Valid()
      modifies this
      ensures Valid() && State() == AfterMessage(old(State()), ev)
    {
      match ev {
        case Garbled =>
        case Parsed(data) =>
          result := ApplyMessage(result, data);
          if StopsPolling(data) {
            Cleanup();
          }
      }
      StepKeepsInv(old(State()), WorkerMessage(ev));
    }

    method Unmount()
      requires Valid()
      modifies this
      ensures Valid() && State() == AfterUnmount(old(State()))
      ensures liveWorkers == {} && liveTimers == {}
    {
      Cleanup();
      if worker.Some? {
        liveWorkers := liveWorkers - {worker.value};  // terminate()
      }
      StepKeepsInv(old(State()), Unmounted);
    }
  }
}

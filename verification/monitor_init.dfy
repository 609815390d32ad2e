/** The initialisation monitor: a resource monitor whose flags are switched
    by start and stop, its sampling loop, and the initialisation test that
    checks the model files, starts the monitor and stops it again on every
    way out of the engine construction. The background thread is not
    modelled as a thread: what the other thread does to `monitoring` while
    the loop sleeps is an input of the loop. */
module MonitorInit {
  import opened Outcomes
  import opened ModelFiles

  /** The thread object start_monitoring creates. */
  datatype ThreadRef = ThreadRef(id: nat)

  /** One pass of the sampling loop: whether sampling returned, and whether
      stop_monitoring cleared the flag while this pass slept. */
  datatype Tick = Tick(sampleOk: bool, stopAfter: bool)

  /** How the sampling loop ended: the flag was found false, a sample
      raised (the loop breaks and leaves the flag set), or the passes given
      to the model ran out while the flag was still set. */
  datatype LoopEnd = FlagCleared | SampleRaised(pass: nat) | StillRunning

  /** The outcome of the sampling loop, started with the flag `monitoring`,
      over the passes `ticks`. */
  datatype LoopRun = LoopRun(passes: nat, end: LoopEnd, monitoring: bool)

  function RunLoop(monitoring: bool, ticks: seq<Tick>): (r: LoopRun)
    ensures r.passes <= |ticks|
    // the loop stops at once when the flag is already clear
    ensures !monitoring ==> r == LoopRun(0, FlagCleared, false)
    decreases |ticks|
  {
    if !monitoring then LoopRun(0, FlagCleared, false)
    else if ticks == [] then LoopRun(0, StillRunning, true)
    else if !ticks[0].sampleOk then LoopRun(1, SampleRaised(0), true)
    else if ticks[0].stopAfter then LoopRun(1, FlagCleared, false)
    else Shift(RunLoop(true, ticks[1..]), 1)
  }

  /** The ways out of the sampling loop: every pass but the last sampled
      successfully and was not stopped; a sample that raises ends the loop
      after that very pass with the flag still set; otherwise the loop ends
      on a cleared flag, or when the passes run out with the flag set. */
  lemma {:induction false} RunLoopMeaning(monitoring: bool, ticks: seq<Tick>)
    ensures var r := RunLoop(monitoring, ticks);
      && (forall i :: 0 <= i < r.passes - 1 ==> Clean(ticks[i]))
      && (r.end.SampleRaised? ==> r.end.pass == r.passes - 1 && !ticks[r.end.pass].sampleOk && r.monitoring)
      && (r.end == FlagCleared ==>
            && !r.monitoring
            && (if r.passes == 0 then !monitoring else ticks[r.passes - 1] == Tick(true, true)))
      && (r.end == StillRunning ==>
            r.monitoring && r.passes == |ticks| && forall i :: 0 <= i < |ticks| ==> Clean(ticks[i]))
    decreases |ticks|
  {
    if monitoring && ticks != [] && Clean(ticks[0]) {
      var tail := ticks[1..];
      RunLoopMeaning(true, tail);
      assert RunLoop(monitoring, ticks) == Shift(RunLoop(true, tail), 1);
      assert forall i :: 1 <= i < |ticks| ==> ticks[i] == tail[i - 1];
    }
  }

  /** SystemMonitor: the `monitoring` flag and the thread handle. */
  class SystemMonitor {
    var monitoring: bool
    var monitorThread: Option<ThreadRef>

    constructor()
      ensures !monitoring && monitorThread == None
    {
      monitoring := false;
      monitorThread := None;
    }

    /** start_monitoring: set the flag and record the new thread. */
    method StartMonitoring(thread: ThreadRef)
      modifies this
      ensures monitoring && monitorThread == Some(thread)
    {
      monitoring := true;
      monitorThread := Some(thread);
    }

    /** stop_monitoring: clear the flag and join the thread if there is one;
      the handle is kept. `joined` is the thread joined, None when there
      was none to join. */
    method StopMonitoring() returns (joined: Option<ThreadRef>)
      modifies this`monitoring
      ensures !monitoring
      ensures monitorThread == old(monitorThread)
      ensures joined == old(monitorThread)
    {
      monitoring := false;
      joined := None;
      if monitorThread.Some? {
        joined := monitorThread;
      }
    }

    /** _monitor_loop, run over the passes `ticks`: it goes round while the
        flag is set and breaks out after the first sample that raises. */
    method MonitorLoop(ticks: seq<Tick>) returns (passes: nat, end: LoopEnd)
      modifies this`monitoring
      ensures LoopRun(passes, end, monitoring) == RunLoop(old(monitoring), ticks)
      ensures monitorThread == old(monitorThread)
    {
      ghost var start := monitoring;
      passes := 0;
      end := StillRunning;
      while monitoring && passes < |ticks|
        invariant passes <= |ticks|
        invariant !start ==> passes == 0 && !monitoring
        invariant monitoring ==> forall i :: 0 <= i < passes ==> Clean(ticks[i])
        invariant start && !monitoring ==>
          && 1 <= passes
          && (forall i :: 0 <= i < passes - 1 ==> Clean(ticks[i]))
          && ticks[passes - 1] == Tick(true, true)
        decreases |ticks| - passes
      {
        var tick := ticks[passes];
        passes := passes + 1;
        if !tick.sampleOk {
          end := SampleRaised(passes - 1);
          break;
        }
        if tick.stopAfter {
          monitoring := false;
        }
      }
      if !monitoring {
        end := FlagCleared;
      }
      if start {
        var k := if end.StillRunning? then passes else passes - 1;
        RunLoopAfterCleanPrefix(ticks, k);
      }
    }
  }

  /** A pass that sampled successfully and was not stopped. */
  predicate Clean(t: Tick) {
    t.sampleOk && !t.stopAfter
  }

  /** The loop run shifted by k clean passes before it. */
  function Shift(r: LoopRun, k: nat): LoopRun {
    LoopRun(r.passes + k,
            match r.end
            case SampleRaised(p) => SampleRaised(p + k)
            case FlagCleared => FlagCleared
            case StillRunning => StillRunning,
            r.monitoring)
  }

  /** Clean passes only add to the count: the loop over ticks is the loop
      over what follows them, shifted. */
  lemma {:induction false} RunLoopAfterCleanPrefix(ticks: seq<Tick>, k: nat)
    requires k <= |ticks|
    requires forall i :: 0 <= i < k ==> Clean(ticks[i])
    ensures RunLoop(true, ticks) == Shift(RunLoop(true, ticks[k..]), k)
    decreases k
  {
    if k > 0 {
      RunLoopAfterCleanPrefix(ticks[1..], k - 1);
      assert ticks[1..][k - 1..] == ticks[k..];
    }
  }

  /** How the engine constructor ended: it returned, raised an Exception,
      or raised a BaseException that `except Exception` does not catch
      (KeyboardInterrupt, SystemExit). */
  datatype CtorOutcome = Constructed | RaisedException | RaisedBaseException

  /** How test_model_initialization left: with a value, or by letting an
      exception through. */
  datatype Exit = Finished(value: bool) | Propagated

  /** test_model_initialization. A missing required file returns False
      before any monitor exists. Otherwise the monitor is started, and the
      finally clause stops it whichever way the construction ends. */
  method TestModelInitialization(fs: set<string>, thread: ThreadRef, ctor: CtorOutcome)
    returns (exit: Exit, monitor: SystemMonitor?, joined: Option<ThreadRef>)
    ensures !AllPresent(ModelDir, RequiredFiles, fs) ==> exit == Finished(false) && monitor == null && joined == None
    ensures AllPresent(ModelDir, RequiredFiles, fs) ==>
      && monitor != null && fresh(monitor)
      && !monitor.monitoring && monitor.monitorThread == Some(thread)
      && joined == Some(thread)
    ensures exit == Finished(true) <==> AllPresent(ModelDir, RequiredFiles, fs) && ctor == Constructed
    ensures exit == Propagated <==> AllPresent(ModelDir, RequiredFiles, fs) && ctor == RaisedBaseException
  {
    var missing := FindFirstMissing(ModelDir, RequiredFiles, fs);
    if missing.Some? {
      return Finished(false), null, None;
    }
    monitor := new SystemMonitor();
    monitor.StartMonitoring(thread);
    match ctor {
      case Constructed =>
        exit := Finished(true);
      case RaisedException =>
        exit := Finished(false);
      case RaisedBaseException =>
        exit := Propagated;
    }
    joined := monitor.StopMonitoring();
  }
}

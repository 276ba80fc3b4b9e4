/** The driver calls of `stopAndCleanupTasks` and the registries it leaves behind. The
    timebase and DAQ tasks are stopped and disposed under their own handlers, so every one
    of those calls is attempted; the `stop()` of a GPIB, RS232 or RFSG task is not guarded,
    and its failure ends the cleanup. */
module CleanupPlan {
  import opened Common
  import opened Drivers

  /** Stop then dispose each task, in order. */
  function StopDispose(ts: seq<TaskHandle>): seq<DriverAction>
    decreases |ts|
  {
    if ts == [] then [] else StopDispose(ts[..|ts| - 1]) + [Stop(ts[|ts| - 1]), Dispose(ts[|ts| - 1])]
  }

  /** Every task gets a stop immediately followed by its dispose, and nothing else is called. */
  lemma {:induction false} StopDisposeShape(ts: seq<TaskHandle>)
    ensures |StopDispose(ts)| == 2 * |ts|
    ensures forall i :: 0 <= i < |ts| ==> StopDispose(ts)[2 * i] == Stop(ts[i]) && StopDispose(ts)[2 * i + 1] == Dispose(ts[i])
    decreases |ts|
  {
    if ts != [] {
      var init := ts[..|ts| - 1];
      StopDisposeShape(init);
      forall i | 0 <= i < |ts|
        ensures StopDispose(ts)[2 * i] == Stop(ts[i]) && StopDispose(ts)[2 * i + 1] == Dispose(ts[i])
      {
        if i < |init| {
          assert ts[i] == init[i];
        }
      }
    }
  }

  function StopAll(ts: seq<TaskHandle>): (r: seq<DriverAction>)
    ensures |r| == |ts| && forall i :: 0 <= i < |ts| ==> r[i] == Stop(ts[i])
  {
    seq(|ts|, i requires 0 <= i < |ts| => Stop(ts[i]))
  }

  lemma StopAllAppend(a: seq<TaskHandle>, b: seq<TaskHandle>)
    ensures StopAll(a + b) == StopAll(a) + StopAll(b)
  {
  }

  function OptionList(t: Option<TaskHandle>): seq<TaskHandle> {
    if t.Some? then [t.value] else []
  }

  /** The guarded phase: the timebase task, then each DAQ task in key order. */
  function GuardedPhase(vt: Option<TaskHandle>, daq: seq<(string, TaskHandle)>): seq<DriverAction> {
    StopDispose(OptionList(vt) + Values(daq))
  }

  /** The unguarded phase: GPIB, then RS232, then RFSG tasks, in enumeration order. */
  function SoftwareTimedTasks<K>(gpib: seq<(K, TaskHandle)>, rs232: seq<(K, TaskHandle)>, rfsg: seq<(K, TaskHandle)>)
    : seq<TaskHandle>
  {
    Values(gpib) + Values(rs232) + Values(rfsg)
  }

  /** The log of one cleanup: every guarded call in order, whatever its outcome, then the
      unguarded stops up to the first failure. */
  predicate CleanupLog(es: seq<DriverEvent>, guarded: seq<DriverAction>, stops: seq<DriverAction>) {
    && |guarded| <= |es|
    && Actions(es[..|guarded|]) == guarded
    && (Completed(es[|guarded|..], stops) || StoppedAtFailure(es[|guarded|..], stops))
  }

  /** The cleanup reports success iff every guarded call succeeded and no `stop()` threw. */
  lemma CleanupOutcome(es: seq<DriverEvent>, guarded: seq<DriverAction>, stops: seq<DriverAction>)
    requires CleanupLog(es, guarded, stops)
    ensures Completed(es, guarded + stops) <==> AllOk(es[..|guarded|]) && Completed(es[|guarded|..], stops)
  {
    var head, tail := es[..|guarded|], es[|guarded|..];
    assert es == head + tail;
    ActionsAppend(head, tail);
    if Completed(es, guarded + stops) {
      assert Actions(tail) == (guarded + stops)[|guarded|..];
    }
  }

  /** Index into the unguarded phase of the `stop()` that threw, if one did. */
  function EscapedAt(es: seq<DriverEvent>, guarded: seq<DriverAction>, stops: seq<DriverAction>): (r: Option<nat>)
    requires CleanupLog(es, guarded, stops)
    ensures r.None? <==> Completed(es[|guarded|..], stops)
    ensures r.Some? ==> r.value < |stops| && r.value == |es| - |guarded| - 1
    ensures r.Some? ==> Actions(es[|guarded|..])[r.value] == stops[r.value] && !es[|guarded| + r.value].ok
  {
    if Completed(es[|guarded|..], stops) then None
    else
      var tail := es[|guarded|..];
      assert Actions(tail) == stops[..|tail|];
      Some(|tail| - 1)
  }

  /** What the three unguarded registries hold afterwards: a registry is cleared only once
      all of its tasks were stopped. */
  function RegistriesAfter<K>(gpib: seq<(K, TaskHandle)>, rs232: seq<(K, TaskHandle)>, rfsg: seq<(K, TaskHandle)>,
                              escaped: Option<nat>)
    : (seq<(K, TaskHandle)>, seq<(K, TaskHandle)>, seq<(K, TaskHandle)>)
  {
    if escaped.None? then ([], [], [])
    else if escaped.value < |gpib| then (gpib, rs232, rfsg)
    else if escaped.value < |gpib| + |rs232| then ([], rs232, rfsg)
    else ([], [], rfsg)
  }

  /** After a failing `stop()`, the task that failed and every task after it are still
      registered, and whatever was removed had been stopped before it. */
  lemma FailedStopStaysRegistered<K>(gpib: seq<(K, TaskHandle)>, rs232: seq<(K, TaskHandle)>,
                                     rfsg: seq<(K, TaskHandle)>, k: nat)
    requires k < |gpib| + |rs232| + |rfsg|
    ensures var (g, r, f) := RegistriesAfter(gpib, rs232, rfsg, Some(k));
      var sw := SoftwareTimedTasks(gpib, rs232, rfsg);
      exists p :: 0 <= p <= k && SoftwareTimedTasks(g, r, f) == sw[p..]
  {
    var sw := SoftwareTimedTasks(gpib, rs232, rfsg);
    var (g, r, f) := RegistriesAfter(gpib, rs232, rfsg, Some(k));
    if k < |gpib| {
      assert SoftwareTimedTasks(g, r, f) == sw[0..];
    } else if k < |gpib| + |rs232| {
      assert Values(g) == [];
      assert SoftwareTimedTasks(g, r, f) == sw[|gpib|..];
    } else {
      assert Values(g) == [] && Values(r) == [];
      assert SoftwareTimedTasks(g, r, f) == sw[|gpib| + |rs232|..];
    }
  }

  /** With nothing registered the cleanup makes no driver call. */
  lemma EmptyCleanup<K>(gpib: seq<(K, TaskHandle)>, rs232: seq<(K, TaskHandle)>, rfsg: seq<(K, TaskHandle)>)
    requires gpib == [] && rs232 == [] && rfsg == []
    ensures GuardedPhase(None, []) + StopAll(SoftwareTimedTasks(gpib, rs232, rfsg)) == []
  {
    assert OptionList(None) + Values<string, TaskHandle>([]) == [];
  }

  /** The guarded phase as it runs: for each task a stop and a dispose, each under its own
      handler, so every call is attempted; `ok` tells whether all of them returned normally. */
  method StopDisposeEach(driver: Driver, ts: seq<TaskHandle>) returns (ok: bool)
    modifies driver
    ensures driver.nextId == old(driver.nextId) && IsPrefix(old(driver.log), driver.log)
    ensures Actions(driver.log[|old(driver.log)|..]) == StopDispose(ts)
    ensures ok <==> AllOk(driver.log[|old(driver.log)|..])
  {
    ok := true;
    var i := 0;
    while i < |ts|
      invariant 0 <= i <= |ts|
      invariant driver.nextId == old(driver.nextId) && IsPrefix(old(driver.log), driver.log)
      invariant Actions(driver.log[|old(driver.log)|..]) == StopDispose(ts[..i])
      invariant ok <==> AllOk(driver.log[|old(driver.log)|..])
    {
      ghost var before := driver.log[|old(driver.log)|..];
      var stopped := driver.Perform(Stop(ts[i]));
      if !stopped { ok := false; }
      var disposed := driver.Perform(Dispose(ts[i]));
      if !disposed { ok := false; }
      ghost var pair := [DriverEvent(Stop(ts[i]), stopped), DriverEvent(Dispose(ts[i]), disposed)];
      assert driver.log[|old(driver.log)|..] == before + pair;
      assert pair[0].ok == stopped && pair[1].ok == disposed;
      ActionsAppend(before, pair);
      assert ts[..i + 1][..i] == ts[..i];
      i := i + 1;
    }
    assert ts[..i] == ts;
  }

  /** A guarded phase followed by an unguarded one is a cleanup log, split where it should be. */
  lemma CleanupComposed(head: seq<DriverEvent>, tail: seq<DriverEvent>, guarded: seq<DriverAction>, stops: seq<DriverAction>)
    requires Actions(head) == guarded
    requires Completed(tail, stops) || StoppedAtFailure(tail, stops)
    ensures CleanupLog(head + tail, guarded, stops)
    ensures Completed(head + tail, guarded + stops) <==> AllOk(head) && Completed(tail, stops)
    ensures EscapedAt(head + tail, guarded, stops) == if Completed(tail, stops) then None else Some(|tail| - 1)
  {
    var es := head + tail;
    assert es[..|guarded|] == head;
    assert es[|guarded|..] == tail;
    CleanupOutcome(es, guarded, stops);
  }

  /** The GPIB stops completed, followed by the RS232 and RFSG stops: together they complete
      the unguarded plan, or stop at the failure the second part stopped at. */
  lemma GpibThenRest<K>(a: seq<DriverEvent>, b: seq<DriverEvent>,
                        gpib: seq<(K, TaskHandle)>, rs232: seq<(K, TaskHandle)>, rfsg: seq<(K, TaskHandle)>)
    requires Completed(a, StopAll(Values(gpib)))
    ensures |a| == |gpib|
    ensures Completed(b, StopAll(Values(rs232)) + StopAll(Values(rfsg))) ==>
      Completed(a + b, StopAll(SoftwareTimedTasks(gpib, rs232, rfsg)))
    ensures StoppedAtFailure(b, StopAll(Values(rs232)) + StopAll(Values(rfsg))) ==>
      StoppedAtFailure(a + b, StopAll(SoftwareTimedTasks(gpib, rs232, rfsg)))
  {
    var sg, sr, sf := StopAll(Values(gpib)), StopAll(Values(rs232)), StopAll(Values(rfsg));
    StopAllAppend(Values(gpib) + Values(rs232), Values(rfsg));
    StopAllAppend(Values(gpib), Values(rs232));
    assert StopAll(SoftwareTimedTasks(gpib, rs232, rfsg)) == sg + (sr + sf);
    if Completed(b, sr + sf) {
      CompletedThenCompleted(a, b, sg, sr + sf);
    }
    if StoppedAtFailure(b, sr + sf) {
      CompletedThenStopped(a, b, sg, sr + sf);
    }
  }

  /** Whatever survives the cleanup still holds each key once. */
  lemma RegistriesAfterUnique<K>(gpib: seq<(K, TaskHandle)>, rs232: seq<(K, TaskHandle)>, rfsg: seq<(K, TaskHandle)>,
                                 escaped: Option<nat>)
    requires UniqueKeys(gpib) && UniqueKeys(rs232) && UniqueKeys(rfsg)
    ensures var (g, r, f) := RegistriesAfter(gpib, rs232, rfsg, escaped);
      UniqueKeys(g) && UniqueKeys(r) && UniqueKeys(f)
  {
  }

  /** One cleanup as a whole: its log, its result, the registries it leaves, and the error
      flag, which is cleared only when no `stop()` escaped and the cleanup reached its end. */
  predicate CleanedUp<K(==)>(es: seq<DriverEvent>, vt: Option<TaskHandle>, daq: seq<(string, TaskHandle)>,
                         gpib: seq<(K, TaskHandle)>, rs232: seq<(K, TaskHandle)>, rfsg: seq<(K, TaskHandle)>,
                         ok: bool, errorsBefore: bool, errorsAfter: bool,
                         after: (seq<(K, TaskHandle)>, seq<(K, TaskHandle)>, seq<(K, TaskHandle)>))
  {
    var guarded := GuardedPhase(vt, daq);
    var stops := StopAll(SoftwareTimedTasks(gpib, rs232, rfsg));
    && CleanupLog(es, guarded, stops)
    && (ok <==> Completed(es, guarded + stops))
    && errorsAfter == (if EscapedAt(es, guarded, stops).None? then false else errorsBefore)
    && after == RegistriesAfter(gpib, rs232, rfsg, EscapedAt(es, guarded, stops))
  }

  /** Assembles `CleanedUp` from the guarded phase and the unguarded phase that followed it. */
  lemma CleanedUpFromPhases<K>(head: seq<DriverEvent>, tail: seq<DriverEvent>, vt: Option<TaskHandle>,
                               daq: seq<(string, TaskHandle)>,
                               gpib: seq<(K, TaskHandle)>, rs232: seq<(K, TaskHandle)>, rfsg: seq<(K, TaskHandle)>,
                               allOk: bool, escaped: bool, errorsBefore: bool,
                               after: (seq<(K, TaskHandle)>, seq<(K, TaskHandle)>, seq<(K, TaskHandle)>))
    requires Actions(head) == GuardedPhase(vt, daq) && (allOk <==> AllOk(head))
    requires escaped ==> StoppedAtFailure(tail, StopAll(SoftwareTimedTasks(gpib, rs232, rfsg)))
    requires !escaped ==> Completed(tail, StopAll(SoftwareTimedTasks(gpib, rs232, rfsg)))
    requires after == RegistriesAfter(gpib, rs232, rfsg, if escaped then Some(|tail| - 1) else None)
    ensures CleanedUp(head + tail, vt, daq, gpib, rs232, rfsg, allOk && !escaped, errorsBefore,
                      escaped && errorsBefore, after)
  {
    CleanupComposed(head, tail, GuardedPhase(vt, daq), StopAll(SoftwareTimedTasks(gpib, rs232, rfsg)));
  }
}

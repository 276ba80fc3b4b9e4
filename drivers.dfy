/** The vendor driver layer, reduced to opaque task handles and an action log.
    Every driver call may succeed or fail; which one happens is not determined by the
    model. The ghost log records each call together with its outcome, so that the
    orchestration's contracts can speak about order and counts of driver actions. */
module Drivers {
  import opened Hardware

  datatype TaskKind = DaqMxTask | TimebaseTask | GpibTask | RS232Task | RfsgTask | ReadyReaderTask

  datatype TaskHandle = TaskHandle(kind: TaskKind, id: nat)

  /** GPIB, RS232 and RFSG tasks: started by software command, stopped by their own `stop()`. */
  predicate SoftwareTimed(t: TaskHandle) {
    t.kind == GpibTask || t.kind == RS232Task || t.kind == RfsgTask
  }

  datatype DriverAction =
    | Create(task: TaskHandle)
    | Start(task: TaskHandle)
    | Stop(task: TaskHandle)
    | Dispose(task: TaskHandle)
    | Commit(task: TaskHandle)
    | GenerateBuffer(task: TaskHandle)
    | Subscribe(task: TaskHandle)
    | QueryBuffer(task: TaskHandle)
    | Unsubscribe(task: TaskHandle)
    | Connect(pair: TerminalPair)
    | Disconnect(pair: TerminalPair)
    | PulseTrigger(channel: string)
    | ResetDevice(device: string)

  /** One driver call and whether it returned normally (`ok`) or threw. */
  datatype DriverEvent = DriverEvent(action: DriverAction, ok: bool)

  function Actions(es: seq<DriverEvent>): (as_: seq<DriverAction>)
    ensures |as_| == |es|
    ensures forall i :: 0 <= i < |es| ==> as_[i] == es[i].action
  {
    seq(|es|, i requires 0 <= i < |es| => es[i].action)
  }

  predicate AllOk(es: seq<DriverEvent>) {
    forall i :: 0 <= i < |es| ==> es[i].ok
  }

  /** `a` is an initial segment of `b`. */
  predicate IsPrefix<T(==)>(a: seq<T>, b: seq<T>) {
    |a| <= |b| && a == b[..|a|]
  }

  lemma PrefixTransitive<T>(a: seq<T>, b: seq<T>, c: seq<T>)
    requires IsPrefix(a, b) && IsPrefix(b, c)
    ensures IsPrefix(a, c)
  {
    assert c[..|a|] == c[..|b|][..|a|];
  }

  /** The events of a call that stopped at its first failing driver call: every event but
      the last succeeded, the last failed, and the actions are an initial segment of `plan`. */
  predicate StoppedAtFailure(es: seq<DriverEvent>, plan: seq<DriverAction>) {
    |es| > 0 && IsPrefix(Actions(es), plan) && AllOk(es[..|es| - 1]) && !es[|es| - 1].ok
  }

  /** The events of a call that performed every planned action successfully. */
  predicate Completed(es: seq<DriverEvent>, plan: seq<DriverAction>) {
    Actions(es) == plan && AllOk(es)
  }

  lemma ActionsAppend(a: seq<DriverEvent>, b: seq<DriverEvent>)
    ensures Actions(a + b) == Actions(a) + Actions(b)
    ensures AllOk(a + b) <==> AllOk(a) && AllOk(b)
  {
    assert forall i :: 0 <= i < |b| ==> (a + b)[|a| + i] == b[i];
    if AllOk(a + b) {
      forall i | 0 <= i < |a| ensures a[i].ok { assert (a + b)[i] == a[i]; }
      forall i | 0 <= i < |b| ensures b[i].ok { assert (a + b)[|a| + i] == b[i]; }
    }
  }

  /** A completed call followed by a completed call completes the concatenated plan. */
  lemma CompletedThenCompleted(a: seq<DriverEvent>, b: seq<DriverEvent>, p: seq<DriverAction>, q: seq<DriverAction>)
    requires Completed(a, p) && Completed(b, q)
    ensures Completed(a + b, p + q)
  {
    ActionsAppend(a, b);
  }

  /** A completed call followed by one that stopped at a failure stops at that failure of the
      concatenated plan. */
  lemma CompletedThenStopped(a: seq<DriverEvent>, b: seq<DriverEvent>, p: seq<DriverAction>, q: seq<DriverAction>)
    requires Completed(a, p) && StoppedAtFailure(b, q)
    ensures StoppedAtFailure(a + b, p + q)
  {
    ActionsAppend(a, b);
    ActionsAppend(a, b[..|b| - 1]);
    assert (a + b)[..|a + b| - 1] == a + b[..|b| - 1];
    assert (p + q)[..|a + b|] == p + q[..|b|];
  }

  /** One call in front of a plan: a call that throws stops there; one that returns lets the
      rest of the plan complete or stop as it does on its own. */
  lemma OneCallThen(a: DriverAction, ok: bool, es: seq<DriverEvent>, plan: seq<DriverAction>)
    ensures ok && Completed(es, plan) ==> Completed([DriverEvent(a, ok)] + es, [a] + plan)
    ensures ok && StoppedAtFailure(es, plan) ==> StoppedAtFailure([DriverEvent(a, ok)] + es, [a] + plan)
    ensures !ok ==> StoppedAtFailure([DriverEvent(a, ok)], [a] + plan)
  {
    var e := [DriverEvent(a, ok)];
    assert Actions(e) == [a];
    if ok {
      assert Completed(e, [a]);
      if Completed(es, plan) {
        CompletedThenCompleted(e, es, [a], plan);
      }
      if StoppedAtFailure(es, plan) {
        CompletedThenStopped(e, es, [a], plan);
      }
    } else {
      assert e[..0] == [];
      assert ([a] + plan)[..1] == [a];
    }
  }

  /** Stopping at a failure of a plan is stopping at a failure of any plan it begins. */
  lemma StoppedWithinLongerPlan(es: seq<DriverEvent>, p: seq<DriverAction>, q: seq<DriverAction>)
    requires StoppedAtFailure(es, p) && IsPrefix(p, q)
    ensures StoppedAtFailure(es, q)
  {
    assert q[..|p|][..|es|] == q[..|es|];
  }

  /** The events since `start` are those up to `mid` followed by those since `mid`. */
  lemma SplitLog(start: seq<DriverEvent>, mid: seq<DriverEvent>, now: seq<DriverEvent>)
    requires IsPrefix(start, mid) && IsPrefix(mid, now)
    ensures IsPrefix(start, now)
    ensures now[|start|..] == mid[|start|..] + now[|mid|..]
  {
    assert now[..|mid|] == mid;
    assert now[..|start|] == now[..|mid|][..|start|];
  }

  function StartAll(ts: seq<TaskHandle>): (r: seq<DriverAction>)
    ensures |r| == |ts|
    ensures forall i :: 0 <= i < |ts| ==> r[i] == Start(ts[i])
  {
    seq(|ts|, i requires 0 <= i < |ts| => Start(ts[i]))
  }

  function ResetAll(devices: seq<string>): (r: seq<DriverAction>)
    ensures |r| == |devices|
    ensures forall i :: 0 <= i < |devices| ==> r[i] == ResetDevice(devices[i])
  {
    seq(|devices|, i requires 0 <= i < |devices| => ResetDevice(devices[i]))
  }

  class Driver {
    ghost var log: seq<DriverEvent>
    var nextId: nat

    constructor ()
      ensures log == [] && nextId == 0
    {
      log := [];
      nextId := 0;
    }

    /** Creates a driver task of the given kind; on failure no handle is handed out. */
    method CreateTask(kind: TaskKind) returns (t: Common.Option<TaskHandle>)
      modifies this
      ensures log == old(log) + [DriverEvent(Create(TaskHandle(kind, old(nextId))), t.Some?)]
      ensures t.Some? ==> t.value == TaskHandle(kind, old(nextId)) && nextId == old(nextId) + 1
      ensures t.None? ==> nextId == old(nextId)
    {
      var ok: bool := *;
      var h := TaskHandle(kind, nextId);
      log := log + [DriverEvent(Create(h), ok)];
      if ok {
        t := Common.Some(h);
        nextId := nextId + 1;
      } else {
        t := Common.None;
      }
    }

    /** Performs one driver call that may throw. */
    method Perform(a: DriverAction) returns (ok: bool)
      modifies this
      ensures log == old(log) + [DriverEvent(a, ok)] && nextId == old(nextId)
    {
      ok := *;
      log := log + [DriverEvent(a, ok)];
    }

    /** Performs the calls of `plan` in order; the first that throws ends the sequence. */
    method PerformAll(plan: seq<DriverAction>) returns (ok: bool)
      modifies this
      ensures nextId == old(nextId)
      ensures IsPrefix(old(log), log)
      ensures ok ==> Completed(log[|old(log)|..], plan)
      ensures !ok ==> StoppedAtFailure(log[|old(log)|..], plan)
    {
      ok := true;
      var i := 0;
      while i < |plan|
        invariant 0 <= i <= |plan|
        invariant nextId == old(nextId)
        invariant IsPrefix(old(log), log)
        invariant Completed(log[|old(log)|..], plan[..i])
      {
        ghost var before := log[|old(log)|..];
        var r := Perform(plan[i]);
        assert log[|old(log)|..] == before + [DriverEvent(plan[i], r)];
        if !r {
          CompletedThenStopped(before, [DriverEvent(plan[i], r)], plan[..i], [plan[i]]);
          assert plan[..i] + [plan[i]] == plan[..i + 1];
          StoppedWithinLongerPlan(log[|old(log)|..], plan[..i + 1], plan);
          ok := false;
          return;
        }
        CompletedThenCompleted(before, [DriverEvent(plan[i], r)], plan[..i], [plan[i]]);
        assert plan[..i] + [plan[i]] == plan[..i + 1];
        i := i + 1;
      }
      assert plan[..i] == plan;
    }

    /** Records a call that cannot fail (adding or removing an event handler). */
    method Record(a: DriverAction)
      modifies this
      ensures log == old(log) + [DriverEvent(a, true)] && nextId == old(nextId)
    {
      log := log + [DriverEvent(a, true)];
    }
  }
}

/** Terminal routing reconciliation: the list-diff that `makeTerminalConnections`
    performs between the connections already made and the connections the server
    settings ask for. These functions state what the in-place update computes. */
module TerminalRouting {
  import opened Common
  import opened Hardware
  import opened Drivers

  /** Made connections no longer desired, in the order they were made (duplicates kept). */
  function Stale(made: seq<TerminalPair>, desired: seq<TerminalPair>): (r: seq<TerminalPair>)
    ensures forall p :: p in r <==> p in made && p !in desired
    decreases |made|
  {
    if made == [] then []
    else
      assert made == made[..|made| - 1] + [made[|made| - 1]];
      var init := Stale(made[..|made| - 1], desired);
      if made[|made| - 1] in desired then init else init + [made[|made| - 1]]
  }

  /** Made connections that are still desired, in order: what is left after the removals. */
  function Kept(made: seq<TerminalPair>, desired: seq<TerminalPair>): (r: seq<TerminalPair>)
    ensures forall p :: p in r <==> p in made && p in desired
    decreases |made|
  {
    if made == [] then []
    else
      assert made == made[..|made| - 1] + [made[|made| - 1]];
      var init := Kept(made[..|made| - 1], desired);
      if made[|made| - 1] in desired then init + [made[|made| - 1]] else init
  }

  /** Walks the desired list, appending every pair not yet present. */
  function AppendMissing(current: seq<TerminalPair>, desired: seq<TerminalPair>): seq<TerminalPair>
    decreases |desired|
  {
    if desired == [] then current
    else
      var c := AppendMissing(current, desired[..|desired| - 1]);
      if desired[|desired| - 1] in c then c else c + [desired[|desired| - 1]]
  }

  /** The connection list after reconciliation. */
  function Reconciled(made: seq<TerminalPair>, desired: seq<TerminalPair>): seq<TerminalPair> {
    AppendMissing(Kept(made, desired), desired)
  }

  lemma {:induction false} AppendMissingExtends(current: seq<TerminalPair>, desired: seq<TerminalPair>)
    ensures IsPrefix(current, AppendMissing(current, desired))
    ensures forall p :: p in AppendMissing(current, desired) <==> p in current || p in desired
    ensures forall p :: p in AppendMissing(current, desired)[|current|..] ==> p !in current
    ensures NoDup(AppendMissing(current, desired)[|current|..])
    decreases |desired|
  {
    if desired != [] {
      var init := desired[..|desired| - 1];
      var x := desired[|desired| - 1];
      AppendMissingExtends(current, init);
      var c := AppendMissing(current, init);
      assert desired == init + [x];
      if x !in c {
        assert (c + [x])[|current|..] == c[|current|..] + [x];
        assert c[..|current|] == current;
        assert (c + [x])[..|current|] == current;
        forall p | p in c[|current|..] ensures p in c {
          var k :| 0 <= k < |c[|current|..]| && c[|current|..][k] == p;
          assert c[|current| + k] == p;
        }
      }
    }
  }

  /** The pairs that reconciliation connects, in the order it connects them. */
  function Added(made: seq<TerminalPair>, desired: seq<TerminalPair>): (r: seq<TerminalPair>)
  {
    AppendMissingExtends(Kept(made, desired), desired);
    Reconciled(made, desired)[|Kept(made, desired)|..]
  }

  function DisconnectAll(ps: seq<TerminalPair>): (r: seq<DriverAction>)
    ensures |r| == |ps| && forall i :: 0 <= i < |ps| ==> r[i] == Disconnect(ps[i])
  {
    seq(|ps|, i requires 0 <= i < |ps| => Disconnect(ps[i]))
  }

  function ConnectAll(ps: seq<TerminalPair>): (r: seq<DriverAction>)
    ensures |r| == |ps| && forall i :: 0 <= i < |ps| ==> r[i] == Connect(ps[i])
  {
    seq(|ps|, i requires 0 <= i < |ps| => Connect(ps[i]))
  }

  /** The driver calls of one reconciliation: every disconnect, then every connect. */
  function ReconcileActions(made: seq<TerminalPair>, desired: seq<TerminalPair>): seq<DriverAction> {
    DisconnectAll(Stale(made, desired)) + ConnectAll(Added(made, desired))
  }

  /** Afterwards exactly the desired pairs are connected. */
  lemma ReconciledContents(made: seq<TerminalPair>, desired: seq<TerminalPair>)
    ensures forall p :: p in Reconciled(made, desired) <==> p in desired
  {
    AppendMissingExtends(Kept(made, desired), desired);
  }

  /** Reconciliation introduces no duplicates: a duplicate-free list stays duplicate-free. */
  lemma ReconciledNoDup(made: seq<TerminalPair>, desired: seq<TerminalPair>)
    requires NoDup(made)
    ensures NoDup(Reconciled(made, desired))
  {
    var k := Kept(made, desired);
    KeptNoDup(made, desired);
    AppendMissingExtends(k, desired);
    var r := Reconciled(made, desired);
    assert r == k + r[|k|..];
    forall i, j | 0 <= i < j < |r| ensures r[i] != r[j] {
      if j >= |k| && i < |k| {
        assert r[j] in r[|k|..];
        assert r[i] in k;
      } else if j >= |k| {
        assert r[i] == r[|k|..][i - |k|] && r[j] == r[|k|..][j - |k|];
      }
    }
  }

  lemma {:induction false} KeptNoDup(made: seq<TerminalPair>, desired: seq<TerminalPair>)
    requires NoDup(made)
    ensures NoDup(Kept(made, desired))
    decreases |made|
  {
    if made != [] {
      var init := made[..|made| - 1];
      assert NoDup(init) by {
        forall i, j | 0 <= i < j < |init| ensures init[i] != init[j] { assert init[i] == made[i] && init[j] == made[j]; }
      }
      KeptNoDup(init, desired);
      var x := made[|made| - 1];
      assert x !in init by {
        forall i | 0 <= i < |init| ensures init[i] != x { assert init[i] == made[i]; }
      }
    }
  }

  /** In the disconnect phase an action disconnects a made pair no longer desired; in the
      connect phase it connects a desired pair that was not made. */
  predicate ActionTarget(a: DriverAction, disconnectPhase: bool, made: seq<TerminalPair>, desired: seq<TerminalPair>) {
    if disconnectPhase then a.Disconnect? && a.pair in made && a.pair !in desired
    else a.Connect? && a.pair in desired && a.pair !in made
  }

  /** Disconnects are issued only for made pairs that are no longer desired, and connects
      only for desired pairs that were not already made; disconnects precede connects. */
  lemma ReconcileActionsTargets(made: seq<TerminalPair>, desired: seq<TerminalPair>)
    ensures forall i :: 0 <= i < |ReconcileActions(made, desired)| ==>
      ActionTarget(ReconcileActions(made, desired)[i], i < |Stale(made, desired)|, made, desired)
  {
    var k := Kept(made, desired);
    AppendMissingExtends(k, desired);
    var added := Added(made, desired);
    forall p | p in added ensures p in desired && p !in made {
      assert p in Reconciled(made, desired) && p !in k;
    }
    var acts := ReconcileActions(made, desired);
    var s := Stale(made, desired);
    forall i | 0 <= i < |acts|
      ensures ActionTarget(acts[i], i < |s|, made, desired)
    {
      if i < |s| {
        assert acts[i] == Disconnect(s[i]);
        assert s[i] in s;
      } else {
        assert acts[i] == Connect(added[i - |s|]);
        assert added[i - |s|] in added;
      }
    }
  }

  /** When the made list already holds exactly the desired pairs, reconciliation makes no
      driver call and leaves the list as it is. */
  lemma {:induction false} ReconcileWhenInSync(made: seq<TerminalPair>, desired: seq<TerminalPair>)
    requires forall p :: p in made <==> p in desired
    ensures ReconcileActions(made, desired) == []
    ensures Reconciled(made, desired) == made
  {
    KeptAll(made, desired);
    assert Stale(made, desired) == [] by {
      if Stale(made, desired) != [] {
        assert Stale(made, desired)[0] in Stale(made, desired);
      }
    }
    AppendMissingPresent(made, desired);
    assert Added(made, desired) == [];
  }

  lemma {:induction false} KeptAll(made: seq<TerminalPair>, desired: seq<TerminalPair>)
    requires forall p :: p in made ==> p in desired
    ensures Kept(made, desired) == made
    decreases |made|
  {
    if made != [] {
      var init := made[..|made| - 1];
      KeptAll(init, desired);
      assert made == init + [made[|made| - 1]];
    }
  }

  lemma {:induction false} AppendMissingPresent(current: seq<TerminalPair>, desired: seq<TerminalPair>)
    requires forall p :: p in desired ==> p in current
    ensures AppendMissing(current, desired) == current
    decreases |desired|
  {
    if desired != [] {
      AppendMissingPresent(current, desired[..|desired| - 1]);
    }
  }

  /** A second reconciliation against the same desired list makes no driver call. */
  lemma ReconcileIdempotent(made: seq<TerminalPair>, desired: seq<TerminalPair>)
    ensures ReconcileActions(Reconciled(made, desired), desired) == []
    ensures Reconciled(Reconciled(made, desired), desired) == Reconciled(made, desired)
  {
    ReconciledContents(made, desired);
    ReconcileWhenInSync(Reconciled(made, desired), desired);
  }

  /** `List.Remove`: drops the first occurrence, if any. */
  function RemoveFirst(s: seq<TerminalPair>, x: TerminalPair): seq<TerminalPair>
    decreases |s|
  {
    if s == [] then [] else if s[0] == x then s[1..] else [s[0]] + RemoveFirst(s[1..], x)
  }

  lemma {:induction false} RemoveFirstAfter(a: seq<TerminalPair>, b: seq<TerminalPair>, x: TerminalPair)
    requires x !in a && b != [] && b[0] == x
    ensures RemoveFirst(a + b, x) == a + b[1..]
    decreases |a|
  {
    if a == [] {
      assert a + b == b;
    } else {
      assert (a + b)[0] == a[0] && (a + b)[1..] == a[1..] + b;
      RemoveFirstAfter(a[1..], b, x);
      assert a == [a[0]] + a[1..];
    }
  }

  /** One step of the removal pass, as the in-place loop performs it. */
  lemma RemovalStep(temp: seq<TerminalPair>, desired: seq<TerminalPair>, i: nat)
    requires i < |temp|
    ensures temp[..i + 1][..i] == temp[..i]
    ensures temp[i] in desired ==>
      Kept(temp[..i + 1], desired) + temp[i + 1..] == Kept(temp[..i], desired) + temp[i..]
      && Stale(temp[..i + 1], desired) == Stale(temp[..i], desired)
    ensures temp[i] !in desired ==>
      RemoveFirst(Kept(temp[..i], desired) + temp[i..], temp[i]) == Kept(temp[..i + 1], desired) + temp[i + 1..]
      && Stale(temp[..i + 1], desired) == Stale(temp[..i], desired) + [temp[i]]
  {
    assert temp[..i + 1][..i] == temp[..i];
    assert temp[i..] == [temp[i]] + temp[i + 1..];
    if temp[i] !in desired {
      RemoveFirstAfter(Kept(temp[..i], desired), temp[i..], temp[i]);
    }
  }

  /** Stale pairs are found in order: those of a prefix of the made list begin the whole list's. */
  lemma {:induction false} StalePrefix(made: seq<TerminalPair>, desired: seq<TerminalPair>, i: nat)
    requires i <= |made|
    ensures IsPrefix(Stale(made[..i], desired), Stale(made, desired))
    decreases |made| - i
  {
    if i < |made| {
      StalePrefix(made, desired, i + 1);
      var a := made[..i + 1];
      assert a[..|a| - 1] == made[..i];
      PrefixTransitive(Stale(made[..i], desired), Stale(a, desired), Stale(made, desired));
    } else {
      assert made[..i] == made;
    }
  }

  /** Missing pairs are appended in order: those of a prefix of the desired list begin the whole list's. */
  lemma {:induction false} AppendMissingPrefix(current: seq<TerminalPair>, desired: seq<TerminalPair>, j: nat)
    requires j <= |desired|
    ensures IsPrefix(AppendMissing(current, desired[..j]), AppendMissing(current, desired))
    decreases |desired| - j
  {
    if j < |desired| {
      AppendMissingPrefix(current, desired, j + 1);
      var d := desired[..j + 1];
      assert d[..|d| - 1] == desired[..j];
      PrefixTransitive(AppendMissing(current, desired[..j]), AppendMissing(current, d), AppendMissing(current, desired));
    } else {
      assert desired[..j] == desired;
    }
  }

  /** The connects issued while walking `desired[..j]` from the list `current`. */
  function ConnectsUpTo(current: seq<TerminalPair>, desired: seq<TerminalPair>, j: nat): seq<DriverAction>
    requires j <= |desired|
  {
    AppendMissingExtends(current, desired[..j]);
    ConnectAll(AppendMissing(current, desired[..j])[|current|..])
  }

  /** One step of the disconnect pass issues the next planned disconnect. */
  lemma DisconnectStep(temp: seq<TerminalPair>, desired: seq<TerminalPair>, i: nat)
    requires i < |temp| && temp[i] !in desired
    ensures DisconnectAll(Stale(temp[..i], desired)) + [Disconnect(temp[i])] == DisconnectAll(Stale(temp[..i + 1], desired))
    ensures IsPrefix(DisconnectAll(Stale(temp[..i + 1], desired)), DisconnectAll(Stale(temp, desired)))
  {
    var a := temp[..i + 1];
    assert a[..|a| - 1] == temp[..i];
    StalePrefix(temp, desired, i + 1);
    var s := Stale(temp[..i + 1], desired);
    var t := Stale(temp, desired);
    assert DisconnectAll(t)[..|s|] == DisconnectAll(s);
  }

  /** The ends of each pass. */
  lemma PassEnds(current: seq<TerminalPair>, desired: seq<TerminalPair>)
    ensures current[..|current|] == current
    ensures current[..0] == []
    ensures ConnectsUpTo(current, desired, 0) == []
    ensures AppendMissing(current, desired[..0]) == current
    ensures AppendMissing(current, desired[..|desired|]) == AppendMissing(current, desired)
    ensures IsPrefix(current, AppendMissing(current, desired))
    ensures ConnectsUpTo(current, desired, |desired|) == ConnectAll(AppendMissing(current, desired)[|current|..])
  {
    assert desired[..0] == [];
    assert desired[..|desired|] == desired;
    assert AppendMissing(current, [])[|current|..] == [];
    AppendMissingExtends(current, desired);
  }

  /** One step of the connect pass: a desired pair already present is skipped, any other is
      the next connect. */
  lemma ConnectStep(current: seq<TerminalPair>, desired: seq<TerminalPair>, j: nat)
    requires j < |desired|
    ensures IsPrefix(current, AppendMissing(current, desired[..j]))
    ensures desired[j] in AppendMissing(current, desired[..j]) ==>
      AppendMissing(current, desired[..j + 1]) == AppendMissing(current, desired[..j])
      && ConnectsUpTo(current, desired, j + 1) == ConnectsUpTo(current, desired, j)
    ensures desired[j] !in AppendMissing(current, desired[..j]) ==>
      AppendMissing(current, desired[..j + 1]) == AppendMissing(current, desired[..j]) + [desired[j]]
      && ConnectsUpTo(current, desired, j + 1) == ConnectsUpTo(current, desired, j) + [Connect(desired[j])]
  {
    var d := desired[..j + 1];
    assert d[..|d| - 1] == desired[..j];
    AppendMissingExtends(current, desired[..j]);
    var c := AppendMissing(current, desired[..j]);
    if desired[j] !in c {
      assert (c + [desired[j]])[|current|..] == c[|current|..] + [desired[j]];
    }
  }

  /** Every stretch of the connect pass begins the pass's connects. */
  lemma ConnectsUpToPrefix(current: seq<TerminalPair>, desired: seq<TerminalPair>, j: nat)
    requires j <= |desired|
    ensures IsPrefix(ConnectsUpTo(current, desired, j), ConnectsUpTo(current, desired, |desired|))
  {
    PassEnds(current, desired);
    AppendMissingExtends(current, desired[..j]);
    AppendMissingExtends(current, desired);
    AppendMissingPrefix(current, desired, j);
    var x := AppendMissing(current, desired[..j])[|current|..];
    var y := AppendMissing(current, desired)[|current|..];
    assert y[..|x|] == x;
    assert ConnectAll(y)[..|x|] == ConnectAll(x);
  }

  /** The disconnect pass followed by the connect pass from the kept pairs is the whole
      reconciliation, whichever pass a failure ends. */
  lemma PassesCompose(made: seq<TerminalPair>, desired: seq<TerminalPair>, a: seq<DriverEvent>, b: seq<DriverEvent>)
    ensures StoppedAtFailure(a, DisconnectAll(Stale(made, desired))) ==>
      StoppedAtFailure(a, ReconcileActions(made, desired))
    ensures Completed(a, DisconnectAll(Stale(made, desired))) && Completed(b, ConnectAll(Added(made, desired))) ==>
      Completed(a + b, ReconcileActions(made, desired))
    ensures Completed(a, DisconnectAll(Stale(made, desired))) && StoppedAtFailure(b, ConnectAll(Added(made, desired))) ==>
      StoppedAtFailure(a + b, ReconcileActions(made, desired))
  {
    var st := DisconnectAll(Stale(made, desired));
    var ca := ConnectAll(Added(made, desired));
    if StoppedAtFailure(a, st) {
      assert (st + ca)[..|st|] == st;
      StoppedWithinLongerPlan(a, st, st + ca);
    }
    if Completed(a, st) && Completed(b, ca) {
      CompletedThenCompleted(a, b, st, ca);
    }
    if Completed(a, st) && StoppedAtFailure(b, ca) {
      CompletedThenStopped(a, b, st, ca);
    }
  }

  /** The state of the removal pass after `temp[..i]`: the list holds the kept pairs of the
      walked part followed by the unwalked part, and the stale pairs of the walked part have
      been disconnected, in order. */
  predicate RemovalPassAt(temp: seq<TerminalPair>, desired: seq<TerminalPair>, i: nat, cur: seq<TerminalPair>,
                          es: seq<DriverEvent>)
  {
    i <= |temp| && cur == Kept(temp[..i], desired) + temp[i..] && Completed(es, DisconnectAll(Stale(temp[..i], desired)))
  }

  /** The removal pass stopped at `temp[i]`, a stale pair whose disconnect threw: the list is
      as the walk left it, and the events are the earlier disconnects and the failed one. */
  predicate RemovalStoppedAt(temp: seq<TerminalPair>, desired: seq<TerminalPair>, i: nat, cur: seq<TerminalPair>,
                             es: seq<DriverEvent>)
  {
    && i < |temp| && temp[i] !in desired
    && cur == Kept(temp[..i], desired) + temp[i..]
    && StoppedAtFailure(es, DisconnectAll(Stale(temp, desired)))
    && |es| == |Stale(temp[..i], desired)| + 1
  }

  /** One iteration of the removal pass: a desired pair is skipped; any other is disconnected
      and, when that succeeds, removed; when it throws the pass has stopped at a failure. */
  lemma RemovalPassStep(temp: seq<TerminalPair>, desired: seq<TerminalPair>, i: nat, cur: seq<TerminalPair>,
                        es: seq<DriverEvent>, r: bool)
    requires i < |temp| && RemovalPassAt(temp, desired, i, cur, es)
    ensures temp[i] in desired ==> RemovalPassAt(temp, desired, i + 1, cur, es)
    ensures temp[i] !in desired && r ==>
      RemovalPassAt(temp, desired, i + 1, RemoveFirst(cur, temp[i]), es + [DriverEvent(Disconnect(temp[i]), r)])
    ensures temp[i] !in desired && !r ==>
      RemovalStoppedAt(temp, desired, i, cur, es + [DriverEvent(Disconnect(temp[i]), r)])
  {
    RemovalStep(temp, desired, i);
    if temp[i] !in desired {
      var ev := [DriverEvent(Disconnect(temp[i]), r)];
      DisconnectStep(temp, desired, i);
      if r {
        CompletedThenCompleted(es, ev, DisconnectAll(Stale(temp[..i], desired)), [Disconnect(temp[i])]);
      } else {
        CompletedThenStopped(es, ev, DisconnectAll(Stale(temp[..i], desired)), [Disconnect(temp[i])]);
        StoppedWithinLongerPlan(es + ev, DisconnectAll(Stale(temp[..i + 1], desired)), DisconnectAll(Stale(temp, desired)));
      }
    }
  }

  /** The removal pass starts with the whole list and nothing disconnected, and ends with the
      kept pairs and every stale pair disconnected. */
  lemma RemovalPassEnds(temp: seq<TerminalPair>, desired: seq<TerminalPair>, cur: seq<TerminalPair>, es: seq<DriverEvent>)
    ensures RemovalPassAt(temp, desired, 0, temp, [])
    ensures RemovalPassAt(temp, desired, |temp|, cur, es) ==>
      cur == Kept(temp, desired) && Completed(es, DisconnectAll(Stale(temp, desired)))
  {
    assert temp[..0] == [] && temp[0..] == temp;
    assert temp[..|temp|] == temp && temp[|temp|..] == [];
  }

  /** The state of the adding pass after `desired[..j]`, started from `c0`. */
  predicate AddingPassAt(c0: seq<TerminalPair>, desired: seq<TerminalPair>, j: nat, cur: seq<TerminalPair>,
                         es: seq<DriverEvent>)
  {
    j <= |desired| && cur == AppendMissing(c0, desired[..j]) && Completed(es, ConnectsUpTo(c0, desired, j))
  }

  /** The adding pass stopped at `desired[j]`, a missing pair whose connect threw: the list
      holds the pairs appended before it, and the events are the earlier connects and the
      failed one. */
  predicate AddingStoppedAt(c0: seq<TerminalPair>, desired: seq<TerminalPair>, j: nat, cur: seq<TerminalPair>,
                            es: seq<DriverEvent>)
  {
    && j < |desired| && desired[j] !in cur
    && cur == AppendMissing(c0, desired[..j])
    && StoppedAtFailure(es, ConnectsUpTo(c0, desired, |desired|))
    && |es| == |ConnectsUpTo(c0, desired, j)| + 1
  }

  /** One iteration of the adding pass: a present pair is skipped; any other is connected and,
      when that succeeds, appended; when it throws the pass has stopped at a failure. */
  lemma AddingPassStep(c0: seq<TerminalPair>, desired: seq<TerminalPair>, j: nat, cur: seq<TerminalPair>,
                       es: seq<DriverEvent>, r: bool)
    requires j < |desired| && AddingPassAt(c0, desired, j, cur, es)
    ensures desired[j] in cur ==> AddingPassAt(c0, desired, j + 1, cur, es)
    ensures desired[j] !in cur && r ==>
      AddingPassAt(c0, desired, j + 1, cur + [desired[j]], es + [DriverEvent(Connect(desired[j]), r)])
    ensures desired[j] !in cur && !r ==>
      AddingStoppedAt(c0, desired, j, cur, es + [DriverEvent(Connect(desired[j]), r)])
  {
    ConnectStep(c0, desired, j);
    if desired[j] !in cur {
      var ev := [DriverEvent(Connect(desired[j]), r)];
      if r {
        CompletedThenCompleted(es, ev, ConnectsUpTo(c0, desired, j), [Connect(desired[j])]);
      } else {
        CompletedThenStopped(es, ev, ConnectsUpTo(c0, desired, j), [Connect(desired[j])]);
        ConnectsUpToPrefix(c0, desired, j + 1);
        StoppedWithinLongerPlan(es + ev, ConnectsUpTo(c0, desired, j + 1), ConnectsUpTo(c0, desired, |desired|));
      }
    }
  }
}

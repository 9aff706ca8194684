/** The runs of `run.c`: a pass over all desired states, repairs, and a second look. */
module Run {
  import opened Wrappers
  import opened NetState
  import opened Verify
  import opened Kernel
  import opened Consistency
  import opened UplinkPass
  import opened Reconciler

  /** The repairs that a state asks for on a snapshot; a scenario that is not known asks for none. */
  function StateActs(ds: Desired, rs: Real): seq<Act> {
    if ScenarioOf(ds.scenario).Unsupported? then [] else Acts(StateReport(ds, rs))
  }

  function StateMisses(ds: Desired, rs: Real): nat {
    if ScenarioOf(ds.scenario).Unsupported? then 1 else Misses(StateReport(ds, rs))
  }

  /** A state misses nothing exactly if it is satisfied, and then it asks for nothing. */
  lemma {:induction false} CleanState(ds: Desired, rs: Real)
    ensures StateMisses(ds, rs) == 0 <==> Satisfied(ds, rs)
    ensures Satisfied(ds, rs) ==> StateActs(ds, rs) == []
  {
    hide Satisfied, StateReport, Acts, Misses, ScenarioOf;
    if ScenarioOf(ds.scenario).Unsupported? {
      NeverSatisfied(ds, rs);
    } else {
      JudgeState(ds, rs);
    }
  }

  lemma {:induction false} NeverSatisfied(ds: Desired, rs: Real)
    requires ScenarioOf(ds.scenario).Unsupported?
    ensures !Satisfied(ds, rs)
  {
  }

  lemma {:induction false} NothingToRun(k: Kernel)
    ensures RunActs(k, []) == k && !AnyFails(k, []) && Executed([]) == []
  {
  }

  /**
   `verify_state`: what it returns, what it leaves in `act_fail`, the commands it has run, and the kernel after it if
   nobody else has changed it.
   */
  method VerifyState(ds: Desired, rs: Real, kernel: Kernel, apply: bool, quiet: bool, wasFail: bool)
    returns (diff: nat, actFail: bool, ran: seq<Act>, after: Kernel)
    ensures diff == StateMisses(ds, rs) && (diff == 0 <==> Satisfied(ds, rs))
    ensures ran == if apply then Executed(StateActs(ds, rs)) else []
    ensures diff == 0 ==> ran == []
    ensures ran == [] ==> actFail == (wasFail && ScenarioOf(ds.scenario).Unsupported?)
    ensures quiet ==> after == (if apply then RunActs(kernel, StateActs(ds, rs)) else kernel)
    ensures quiet ==> actFail == if ScenarioOf(ds.scenario).Unsupported? then wasFail
                                 else apply && AnyFails(kernel, StateActs(ds, rs))
  {
    hide Satisfied, StateReport, RunActs, AnyFails, Acts, Misses, ScenarioOf, Executed;
    CleanState(ds, rs);
    NothingToRun(kernel);
    if ScenarioOf(ds.scenario).Unsupported? {
      return 1, wasFail, [], kernel;
    }
    var ctx := new Context(kernel, apply, quiet);
    diff := ctx.VerifyAll(ds, rs);
    assert [] + StateReport(ds, rs) == StateReport(ds, rs);
    actFail, ran, after := ctx.actFail, ctx.ran, ctx.kernel;
  }

  predicate AllSatisfied(states: seq<Desired>, rs: Real) {
    forall i :: 0 <= i < |states| ==> Satisfied(states[i], rs)
  }

  /** What a pass over the states comes to: the misses, whether a command failed, and the kernel after it. */
  datatype Result = Result(diff: nat, actFail: bool, kernel: Kernel)

  function StatePass(ds: Desired, rs: Real, r: Result, apply: bool): Result {
    var acts := StateActs(ds, rs);
    Result(r.diff + StateMisses(ds, rs),
           if ScenarioOf(ds.scenario).Unsupported? then r.actFail else apply && AnyFails(r.kernel, acts),
           if apply then RunActs(r.kernel, acts) else r.kernel)
  }

  /** Every state is judged on the same snapshot, whatever the commands for those before it have changed. */
  function Pass(states: seq<Desired>, rs: Real, kernel: Kernel, apply: bool): Result {
    if states == [] then Result(0, false, kernel)
    else StatePass(states[|states| - 1], rs, Pass(states[..|states| - 1], rs, kernel, apply), apply)
  }

  /** How much the states miss on a snapshot. */
  function Missing(states: seq<Desired>, rs: Real): nat {
    if states == [] then 0 else Missing(states[..|states| - 1], rs) + StateMisses(states[|states| - 1], rs)
  }

  /** The commands that a pass runs. */
  function Repairs(states: seq<Desired>, rs: Real): seq<Act> {
    if states == [] then [] else Repairs(states[..|states| - 1], rs) + Executed(StateActs(states[|states| - 1], rs))
  }

  /** The last of some states and those before it. */
  lemma {:induction false} SatisfiedFront(states: seq<Desired>, rs: Real)
    requires states != []
    ensures AllSatisfied(states, rs) <==>
            AllSatisfied(states[..|states| - 1], rs) && Satisfied(states[|states| - 1], rs)
  {
    hide Satisfied;
    var n := |states| - 1;
    assert forall i :: 0 <= i < n ==> states[..n][i] == states[i];
    if AllSatisfied(states[..n], rs) && Satisfied(states[n], rs) {
      assert forall i :: 0 <= i < n ==> Satisfied(states[..n][i], rs);
    }
  }

  /** A pass misses nothing exactly if every state is satisfied on the snapshot, and then it runs nothing. */
  lemma {:induction false} CleanPass(states: seq<Desired>, rs: Real, kernel: Kernel, apply: bool)
    ensures Pass(states, rs, kernel, apply).diff == Missing(states, rs)
    ensures Missing(states, rs) == 0 <==> AllSatisfied(states, rs)
    ensures AllSatisfied(states, rs) ==> Repairs(states, rs) == []
    ensures AllSatisfied(states, rs) || !apply ==>
              Pass(states, rs, kernel, apply).kernel == kernel && !Pass(states, rs, kernel, apply).actFail
    decreases |states|
  {
    hide Satisfied, StateReport, RunActs, AnyFails, Acts, Misses, ScenarioOf, StateActs, StateMisses, Executed,
         AllSatisfied;
    if states == [] {
      NoStates(rs);
    } else {
      var n := |states| - 1;
      SatisfiedFront(states, rs);
      CleanPass(states[..n], rs, kernel, apply);
      CleanState(states[n], rs);
      NothingToRun(kernel);
    }
  }

  lemma {:induction false} NoStates(rs: Real)
    ensures AllSatisfied([], rs)
  {
  }

  // What is known of a failure after a pass.

  /** Whether a state has a command run. */
  predicate Runs(ds: Desired, rs: Real) {
    Executed(StateActs(ds, rs)) != []
  }

  /** What a pass reports if `fails` says for which states a command fails. */
  ghost function Reported(states: seq<Desired>, rs: Real, fails: nat -> bool): bool {
    if states == [] then false
    else
      var n := |states| - 1;
      if ScenarioOf(states[n].scenario).Unsupported? then Reported(states[..n], rs, fails)
      else Runs(states[n], rs) && fails(n)
  }

  ghost predicate Failed(states: seq<Desired>, rs: Real, fails: nat -> bool) {
    exists i: nat :: i < |states| && Runs(states[i], rs) && fails(i)
  }

  /** A state that has a command run is not followed by one of a known scenario. */
  predicate NothingAfterRuns(states: seq<Desired>, rs: Real) {
    forall i, j :: 0 <= i < j < |states| && Runs(states[i], rs) ==> ScenarioOf(states[j].scenario).Unsupported?
  }

  ghost function FailsAt(states: seq<Desired>, rs: Real, kernel: Kernel): nat -> bool {
    (i: nat) => i < |states| && AnyFails(Pass(states[..i], rs, kernel, true).kernel, StateActs(states[i], rs))
  }

  lemma {:induction false} ReportedSame(states: seq<Desired>, rs: Real, f: nat -> bool, g: nat -> bool)
    requires forall i: nat :: i < |states| ==> f(i) == g(i)
    ensures Reported(states, rs, f) == Reported(states, rs, g)
    decreases |states|
  {
    hide ScenarioOf, Runs;
    if states != [] {
      ReportedSame(states[..|states| - 1], rs, f, g);
    }
  }

  /** The report of a pass over a kernel is this report, for the failures that there are. */
  lemma {:induction false} PassReports(states: seq<Desired>, rs: Real, kernel: Kernel)
    ensures Pass(states, rs, kernel, true).actFail == Reported(states, rs, FailsAt(states, rs, kernel))
    decreases |states|
  {
    hide RunActs, AnyFails, ScenarioOf, StateActs, StateMisses, Executed;
    if states != [] {
      var n := |states| - 1;
      var front := states[..n];
      PassReports(front, rs, kernel);
      var f, g := FailsAt(states, rs, kernel), FailsAt(front, rs, kernel);
      forall i: nat | i < n
        ensures f(i) == g(i)
      {
        assert states[..i] == front[..i] && states[i] == front[i];
      }
      ReportedSame(front, rs, f, g);
      var acts := StateActs(states[n], rs);
      if !Runs(states[n], rs) {
        NoneExecuted(Pass(front, rs, kernel, true).kernel, acts);
      }
    }
  }

  /** A failure that is reported has happened. */
  lemma {:induction false} ReportedFailed(states: seq<Desired>, rs: Real, fails: nat -> bool)
    requires Reported(states, rs, fails)
    ensures Failed(states, rs, fails)
    decreases |states|
  {
    hide ScenarioOf, Runs;
    var n := |states| - 1;
    if ScenarioOf(states[n].scenario).Unsupported? {
      ReportedFailed(states[..n], rs, fails);
      var i: nat :| i < n && Runs(states[..n][i], rs) && fails(i);
      assert Runs(states[i], rs);
    }
  }

  /** A failure is not reported if a state of a known scenario comes later that has no failure. */
  lemma {:induction false} Forgotten(states: seq<Desired>, rs: Real, fails: nat -> bool, j: nat)
    requires j < |states| && !ScenarioOf(states[j].scenario).Unsupported?
    requires forall k: nat :: j <= k < |states| ==> !fails(k)
    ensures !Reported(states, rs, fails)
    decreases |states|
  {
    hide ScenarioOf, Runs;
    var n := |states| - 1;
    if ScenarioOf(states[n].scenario).Unsupported? {
      assert states[..n][j] == states[j];
      Forgotten(states[..n], rs, fails, j);
    }
  }

  lemma {:induction false} LaterUnknown(states: seq<Desired>, rs: Real, fails: nat -> bool, i: nat)
    requires i < |states| && Runs(states[i], rs) && fails(i)
    requires forall j :: i < j < |states| ==> ScenarioOf(states[j].scenario).Unsupported?
    ensures Reported(states, rs, fails)
    decreases |states|
  {
    hide ScenarioOf, Executed, StateReport, Acts;
    var n := |states| - 1;
    if i == n {
      KnownRuns(states[i], rs);
    } else {
      assert states[..n][i] == states[i];
      LaterUnknown(states[..n], rs, fails, i);
    }
  }

  lemma {:induction false} KnownRuns(ds: Desired, rs: Real)
    requires Runs(ds, rs)
    ensures !ScenarioOf(ds.scenario).Unsupported?
  {
  }

  /**
   `act_fail` tells of every failure, whichever commands fail, exactly if no state that has a command run on the
   snapshot is followed by one of a known scenario: that one starts with a clean `act_fail`.
   */
  lemma {:induction false} FailureReported(states: seq<Desired>, rs: Real)
    ensures (forall fails: nat -> bool :: Reported(states, rs, fails) == Failed(states, rs, fails)) <==>
            NothingAfterRuns(states, rs)
  {
    hide ScenarioOf, Runs, Reported, Failed;
    if NothingAfterRuns(states, rs) {
      forall fails: nat -> bool
        ensures Reported(states, rs, fails) == Failed(states, rs, fails)
      {
        AllReported(states, rs, fails);
      }
    } else {
      var i, j :| 0 <= i < j < |states| && Runs(states[i], rs) && !ScenarioOf(states[j].scenario).Unsupported?;
      var fails := (k: nat) => k == i;
      OneFailed(states, rs, fails, i);
      Forgotten(states, rs, fails, j);
      assert Reported(states, rs, fails) != Failed(states, rs, fails);
    }
  }

  lemma {:induction false} AllReported(states: seq<Desired>, rs: Real, fails: nat -> bool)
    requires NothingAfterRuns(states, rs)
    ensures Reported(states, rs, fails) == Failed(states, rs, fails)
  {
    hide ScenarioOf, Runs, Reported;
    if Reported(states, rs, fails) {
      ReportedFailed(states, rs, fails);
    } else if Failed(states, rs, fails) {
      var i: nat :| i < |states| && Runs(states[i], rs) && fails(i);
      LaterUnknown(states, rs, fails, i);
    }
  }

  lemma {:induction false} OneFailed(states: seq<Desired>, rs: Real, fails: nat -> bool, i: nat)
    requires i < |states| && Runs(states[i], rs) && fails(i)
    ensures Failed(states, rs, fails)
  {
  }

  // A failure that is forgotten.

  const NO_STATE := Desired("only_uplink", "", NoAddr, "", "", [], "", [], "lo", "", 0, "", "", "", "", "", "", 0, "",
                            "", "", [])

  /** Asks for a route through an interface that is not there. */
  const WITHOUT_DEVICE := NO_STATE.(routes := [DesiredRoute(DEFAULT_ROUTE, None, "x")])

  const ONLY_LOOPBACK := Real([Iface("lo", "", 1, true, 0)], [], [], [], [], [])

  /** The command for the first state fails, the second state is satisfied, and the pass reports no failure. */
  lemma {:induction false} FailureForgotten(kernel: Kernel)
    requires kernel.state == ONLY_LOOPBACK
    ensures var states := [WITHOUT_DEVICE, NO_STATE];
            && AnyFails(kernel, StateActs(WITHOUT_DEVICE, ONLY_LOOPBACK)) && Satisfied(NO_STATE, ONLY_LOOPBACK)
            && !Pass(states, ONLY_LOOPBACK, kernel, true).actFail
  {
    hide AnyFails, ParseIp4, ParsePrefix, NoHostBits, RunActs;
    var rs, a, b := ONLY_LOOPBACK, WITHOUT_DEVICE, NO_STATE;
    var states := [a, b];
    assert states[..1] == [a];
    Loopback();
    assert FindBy(rs, "x") == None;
    assert ScenarioOf("only_uplink") == OnlyUplink;
    var act := RouteReplace(DEFAULT_ROUTE, None, "x");
    ParseDefault();
    assert UpOk("lo", rs) && RoutesOk([], rs);
    assert CheckRoute(a.routes[0], rs) == [Miss, Do(act)];
    assert CheckRoutes(a.routes, rs) == [Miss, Do(act)];
    assert StateReport(a, rs) == [Ok, Ok, Miss, Do(act)];
    assert [Ok, Ok, Miss, Do(act)] == [Ok] + ([Ok] + [Miss, Do(act)]);
    FirstOk([Miss, Do(act)]);
    FirstOk([Ok] + [Miss, Do(act)]);
    ActsOfLines(act, act);
    FailsOne(kernel, act);
    assert Exec(kernel, act) == None;
    CleanState(b, rs);
    NothingToRun(Pass([a], rs, kernel, true).kernel);
    assert Pass(states, rs, kernel, true) == StatePass(b, rs, Pass([a], rs, kernel, true), true);
  }

  lemma {:induction false} Loopback()
    ensures FindBy(ONLY_LOOPBACK, "lo") == Some(Iface("lo", "", 1, true, 0))
    ensures FindBy(ONLY_LOOPBACK, "x") == None
  {
    var ifaces := ONLY_LOOPBACK.ifaces;
    assert ifaces[1..] == [] && FindIface([], "x") == None;
  }

  /** What `netrec_run_once` returns on a host that nobody else changes. */
  function Code(states: seq<Desired>, kernel: Kernel, apply: bool): int {
    var first := Pass(states, kernel.state, kernel, apply);
    if !apply then (if first.diff > 0 then 1 else 0)
    else if first.actFail then 1
    else if first.diff == 0 then 0
    else if Pass(states, first.kernel.state, first.kernel, false).diff > 0 then 1
    else 0
  }

  /**
   The system that runs are made on.  Unless it is quiet, others change it before every snapshot and before every
   command, and it may not answer.
   */
  class Host {
    const quiet: bool
    var kernel: Kernel
    /** The last snapshot, and the commands that have been run since. */
    ghost var snapshot: Option<Real>
    ghost var ran: seq<Act>

    constructor (kernel: Kernel, quiet: bool)
      ensures this.kernel == kernel && this.quiet == quiet && snapshot == None && ran == []
    {
      this.kernel, this.quiet, snapshot, ran := kernel, quiet, None, [];
    }

    /** `load_real` */
    method Observe() returns (r: Option<Real>)
      modifies this
      ensures r.Some? ==> r == Some(kernel.state) && snapshot == r && ran == []
      ensures r.None? ==> snapshot == old(snapshot) && ran == old(ran)
      ensures quiet ==> r.Some? && kernel == old(kernel)
    {
      if !quiet {
        var others: Kernel, silent: bool := *, *;
        kernel := others;
        if silent {
          return None;
        }
      }
      r := Some(kernel.state);
      snapshot, ran := r, [];
    }

    /**
     `run_verify_set`: what the states miss on the snapshot is counted, and exactly the repairs for it are run, if any
     are to be run; `found` is the kernel as the snapshot shows it.
     */
    method VerifySet(states: seq<Desired>, apply: bool) returns (diff: int, actFail: bool, ghost found: Kernel)
      modifies this
      ensures diff < 0 ==> !quiet && !actFail
      ensures diff >= 0 ==> && snapshot == Some(found.state) && diff == Missing(states, found.state)
                            && ran == (if apply then Repairs(states, found.state) else [])
                            && (ran == [] ==> !actFail)
      ensures diff >= 0 && quiet ==> Result(diff, actFail, kernel) == Pass(states, found.state, found, apply)
      ensures quiet ==> found == old(kernel)
    {
      hide Satisfied, RunActs, AnyFails, ScenarioOf, StateActs, StateMisses, Executed;
      actFail := false;
      var rs := Observe();
      found := kernel;
      if rs.None? {
        return -1, false, found;
      }
      diff := 0;
      var i := 0;
      assert states[..0] == [];
      while i < |states|
        invariant 0 <= i <= |states| && diff >= 0 && snapshot == rs == Some(found.state)
        invariant diff == Missing(states[..i], rs.value)
        invariant ran == (if apply then Repairs(states[..i], rs.value) else []) && (ran == [] ==> !actFail)
        invariant quiet ==> Result(diff, actFail, kernel) == Pass(states[..i], found.state, found, apply)
      {
        var d: nat, done: seq<Act>;
        d, actFail, done, kernel := VerifyState(states[i], rs.value, kernel, apply, quiet, actFail);
        ran := ran + done;
        diff, i := diff + d, i + 1;
        assert states[..i][..i - 1] == states[..i - 1];
      }
      assert states[..|states|] == states;
    }

    /**
     `netrec_run_once`, on the desired states if they could be loaded and with the lock if it could be taken. It
     succeeds only if the last snapshot it took satisfies every desired state and no command was run after it.
     */
    method RunOnce(loaded: Option<seq<Desired>>, apply: bool, locked: bool) returns (rc: int)
      modifies this
      ensures rc == 0 ==> loaded.Some? && snapshot.Some? && AllSatisfied(loaded.value, snapshot.value) && ran == []
      ensures loaded.None? || (apply && !locked) ==> rc < 0 && kernel == old(kernel)
      ensures loaded.Some? && !apply && rc >= 0 ==>
                snapshot.Some? && ran == [] && rc == if AllSatisfied(loaded.value, snapshot.value) then 0 else 1
      ensures loaded.Some? && (apply ==> locked) && quiet ==>
                rc == Code(loaded.value, old(kernel), apply)
                && kernel == Pass(loaded.value, old(kernel.state), old(kernel), apply).kernel
    {
      hide Satisfied, Pass, Missing, Repairs, AllSatisfied;
      if loaded.None? {
        return -1;
      }
      if apply && !locked {
        return -1;
      }
      var states := loaded.value;
      var diff, actFail, found := VerifySet(states, apply);
      CleanPass(states, found.state, found, apply);
      if !apply {
        return if diff > 0 then 1 else diff;
      }
      if diff < 0 || actFail {
        return if diff < 0 then diff else 1;
      }
      if diff == 0 {
        return 0;
      }
      diff, actFail, found := VerifySet(states, false);
      CleanPass(states, found.state, found, false);
      if diff < 0 {
        return diff;
      }
      if diff > 0 || actFail {
        return 1;
      }
      rc := 0;
    }
  }

  /**
   A dry run returns zero exactly if every state is satisfied on the snapshot, and changes nothing. A run that may
   change things returns zero exactly if no failure is reported and every state is satisfied after it.
   */
  lemma {:induction false} CodeTells(states: seq<Desired>, k: Kernel, apply: bool)
    ensures Code(states, k, apply) == 0 || Code(states, k, apply) == 1
    ensures !apply ==> (Code(states, k, apply) == 0 <==> AllSatisfied(states, k.state))
    ensures !apply ==> Pass(states, k.state, k, apply).kernel == k
    ensures apply ==>
              var first := Pass(states, k.state, k, true);
              Code(states, k, true) == 0 <==> !first.actFail && AllSatisfied(states, first.kernel.state)
  {
    hide Pass, AllSatisfied, Missing, Repairs;
    CleanPass(states, k.state, k, apply);
    var first := Pass(states, k.state, k, apply);
    CleanPass(states, first.kernel.state, first.kernel, false);
  }

  /** A run for one state returns zero exactly if no command fails and the state is satisfied after them. */
  lemma {:induction false} OneRunTells(ds: Desired, k: Kernel)
    requires !ScenarioOf(ds.scenario).Unsupported?
    ensures var acts := Acts(StateReport(ds, k.state));
            && (Code([ds], k, true) == 0 <==> !AnyFails(k, acts) && Satisfied(ds, RunActs(k, acts).state))
            && Pass([ds], k.state, k, true).kernel == RunActs(k, acts)
  {
    hide Satisfied, StateReport, RunActs, AnyFails, Acts, Misses, ScenarioOf, Pass;
    OneState(ds, k.state, k, true);
    var first := Pass([ds], k.state, k, true);
    OneState(ds, first.kernel.state, first.kernel, false);
    CleanPass([ds], first.kernel.state, first.kernel, false);
    CleanPass([ds], k.state, k, true);
    assert [ds][0] == ds;
  }

  /**
   On a host that nobody else changes, one run repairs the state and says so exactly if every device is up and every
   next hop is on-link in time.
   */
  lemma {:induction false} RunRepairs(ds: Desired, k: Kernel)
    requires Placed(ds, k.state) && Consistent(k)
    ensures Code([ds], k, true) == 0 <==> Carried(ds, k.state, Links(k.state))
    ensures Satisfied(ds, Pass([ds], k.state, k, true).kernel.state) <==> Carried(ds, k.state, Links(k.state))
  {
    hide Satisfied, StateReport, RunActs, AnyFails, Acts, Misses, Consistent, Pass, BridgePlaced, MembersThere, Carried,
         DistinctKeys, Code, Links;
    OnePassConverges(ds, k);
    OneRunTells(ds, k);
  }

  lemma {:induction false} OneState(ds: Desired, rs: Real, k: Kernel, apply: bool)
    ensures Pass([ds], rs, k, apply) == StatePass(ds, rs, Result(0, false, k), apply)
  {
    hide StateReport, RunActs, AnyFails, Acts, Misses, ScenarioOf, StatePass;
    assert [ds][..0] == [];
  }
}

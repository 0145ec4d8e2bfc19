/** The three-strike supervisor. A supervising coroutine runs in segments between its awaits; every
    interleaving of the segments of all children with `stop` is a run. */
module Supervision {
  import opened Wrappers

  datatype Policy = Policy(maxStrikes: int, stableReset: real, maxTotalStarts: int)

  /** Where a coroutine waits: for its first turn, for the launch, for the exit, in the backoff. */
  datatype Phase = Scheduled | Launching | Waiting | Sleeping | Done

  datatype Status = Pending | Running | Restarting | Failed | Stopped

  /** `deaths` records every exit that went through the strike rule, and whether the run before it was stable. */
  datatype Child = Child(starts: int, strikes: int, lastStart: real, lastRc: Option<int>, status: Status, phase: Phase,
                         deaths: seq<bool>)

  /** What the environment answers at an await. */
  datatype Event = Resume(now: real) | LaunchFails(now: real) | LaunchSucceeds | Exits(rc: int, now: real) | Cancel

  predicate Enabled(c: Child, e: Event) {
    match e
    case Resume(_) => c.phase == Scheduled || c.phase == Sleeping
    case LaunchFails(_) => c.phase == Launching
    case LaunchSucceeds => c.phase == Launching
    case Exits(_, _) => c.phase == Waiting
    case Cancel => c.phase != Done
  }

  function AfterExit(p: Policy, stopping: bool, c: Child, rc: int, now: real): Child {
    var exited := c.(lastRc := Some(rc));
    if stopping then exited.(status := Stopped, phase := Done)
    else if c.starts >= p.maxTotalStarts then exited.(status := Failed, phase := Done)
    else
      var stable := now - c.lastStart >= p.stableReset;
      var struck := exited.(strikes := (if stable then 0 else c.strikes) + 1, deaths := c.deaths + [stable]);
      if struck.strikes <= p.maxStrikes then struck.(status := Restarting, phase := Sleeping)
      else struck.(status := Failed, phase := Done)
  }

  function ChildStep(p: Policy, stopping: bool, c: Child, e: Event): Child
    requires Enabled(c, e)
  {
    match e
    case Resume(now) => if stopping then c.(phase := Done) else c.(starts := c.starts + 1, lastStart := now, phase := Launching)
    case LaunchFails(now) => AfterExit(p, stopping, c, -1, now)
    case LaunchSucceeds => c.(status := Running, phase := Waiting)
    case Exits(rc, now) => AfterExit(p, stopping, c, rc, now)
    case Cancel => c.(phase := Done)
  }

  // --- The coroutine's segments on the mutable objects -----------------------------------------------------------------

  class ChildObject {
    var strikes: int
    var starts: int
    var lastStart: real
    var lastRc: Option<int>
    var state: Status
    ghost var phase: Phase
    ghost var deaths: seq<bool>

    ghost function View(): Child
      reads this
    {
      Child(starts, strikes, lastStart, lastRc, state, phase, deaths)
    }

    constructor ()
      ensures View() == FRESH_CHILD
    {
      strikes, starts, lastStart, lastRc, state := 0, 0, 0.0, None, Pending;
      phase, deaths := Scheduled, [];
    }
  }

  const FRESH_CHILD := Child(0, 0, 0.0, None, Pending, Scheduled, [])

  class Supervisor {
    const policy: Policy
    var stopping: bool

    constructor (policy: Policy)
      ensures this.policy == policy && !stopping
    {
      this.policy := policy;
      stopping := false;
    }

    /** The loop head, up to the launch. */
    method LoopHead(c: ChildObject, now: real) returns (launch: bool)
      requires Enabled(c.View(), Resume(now))
      modifies c
      ensures c.View() == ChildStep(policy, stopping, old(c.View()), Resume(now))
      ensures launch <==> c.View().phase == Launching
    {
      if !stopping {
        c.starts := c.starts + 1;
        c.lastStart := now;
        c.phase := Launching;
        launch := true;
      } else {
        c.phase := Done;
        launch := false;
      }
    }

    /** The launch has answered. */
    method AfterLaunch(c: ChildObject, launched: bool, now: real) returns (again: bool)
      requires c.phase == Launching
      modifies c
      ensures c.View() == ChildStep(policy, stopping, old(c.View()), if launched then LaunchSucceeds else LaunchFails(now))
      ensures again <==> c.View().phase == Sleeping
    {
      if launched {
        c.state := Running;
        c.phase := Waiting;
        again := false;
      } else {
        c.phase := Waiting;
        again := HandleExit(c, -1, now);
      }
    }

    /** The child has exited, or was never launched: everything up to the backoff. */
    method HandleExit(c: ChildObject, rc: int, now: real) returns (again: bool)
      requires c.phase == Waiting
      modifies c
      ensures c.View() == ChildStep(policy, stopping, old(c.View()), Exits(rc, now))
      ensures again <==> c.View().phase == Sleeping
    {
      c.lastRc := Some(rc);
      c.phase := Done;
      if stopping {
        c.state := Stopped;
        return false;
      }
      if c.starts >= policy.maxTotalStarts {
        c.state := Failed;
        return false;
      }
      var uptime := now - c.lastStart;
      c.deaths := c.deaths + [uptime >= policy.stableReset];
      if uptime >= policy.stableReset {
        c.strikes := 0;
      }
      c.strikes := c.strikes + 1;
      if c.strikes <= policy.maxStrikes {
        c.state := Restarting;
        c.phase := Sleeping;
        return true;
      }
      c.state := Failed;
      return false;
    }

    /** `stop`, as far as the coroutines see it. */
    method Stop()
      modifies this`stopping
      ensures stopping
    {
      stopping := true;
    }
  }

  // --- Runs of the whole supervisor --------------------------------------------------------------------------------------

  datatype System = System(stopping: bool, children: seq<Child>)

  datatype Action = StopAll | Of(i: nat, event: Event)

  predicate CanAct(s: System, a: Action) {
    a.Of? ==> a.i < |s.children| && Enabled(s.children[a.i], a.event)
  }

  function Act(p: Policy, s: System, a: Action): System
    requires CanAct(s, a)
  {
    match a
    case StopAll => s.(stopping := true)
    case Of(i, e) => s.(children := s.children[i := ChildStep(p, s.stopping, s.children[i], e)])
  }

  /** A run from `start`: the state before the first action, and the state after each action. */
  ghost predicate IsRun(p: Policy, trace: seq<System>, actions: seq<Action>) {
    && |trace| == |actions| + 1
    && (forall c :: c in trace[0].children ==> c == FRESH_CHILD) && !trace[0].stopping
    && forall k :: 0 <= k < |actions| ==> CanAct(trace[k], actions[k]) && trace[k + 1] == Act(p, trace[k], actions[k])
  }

  /** The deaths since and including the last stable run. */
  function SinceStable(deaths: seq<bool>): nat {
    if deaths == [] then 0
    else if deaths[|deaths| - 1] then 1
    else SinceStable(deaths[..|deaths| - 1]) + 1
  }

  ghost predicate Sound(p: Policy, c: Child) {
    && 0 <= c.starts <= p.maxTotalStarts
    && c.strikes == SinceStable(c.deaths)
    && (c.phase == Scheduled || c.phase == Sleeping ==> c.starts == |c.deaths| < p.maxTotalStarts)
    && (c.phase == Launching || c.phase == Waiting ==> c.starts == |c.deaths| + 1)
    && (c.phase != Done ==> c.strikes <= p.maxStrikes)
    && (c.status == Failed ==> c.phase == Done)
    && (c.status == Failed ==> || (c.starts == p.maxTotalStarts == |c.deaths| + 1 && c.strikes <= p.maxStrikes)
                               || (c.starts == |c.deaths| < p.maxTotalStarts && c.strikes == p.maxStrikes + 1))
  }

  lemma SoundStep(p: Policy, stopping: bool, c: Child, e: Event)
    requires p.maxStrikes >= 0 && Sound(p, c) && Enabled(c, e)
    ensures Sound(p, ChildStep(p, stopping, c, e))
    ensures Left(p, ChildStep(p, stopping, c, e)) < Left(p, c)
  {
    hide SinceStable;
    OneMoreDeath(c.deaths, false);
    OneMoreDeath(c.deaths, true);
  }

  lemma OneMoreDeath(deaths: seq<bool>, stable: bool)
    ensures SinceStable(deaths + [stable]) == if stable then 1 else SinceStable(deaths) + 1
  {
    assert (deaths + [stable])[..|deaths|] == deaths;
  }

  /** In every state of every run the strikes are the deaths since the last stable run, launches stay within the cap, and
      a failed child has used up its strikes or its launches. */
  lemma {:induction false} EveryStateSound(p: Policy, trace: seq<System>, actions: seq<Action>, k: nat, i: nat)
    requires IsRun(p, trace, actions) && p.maxTotalStarts >= 1 && p.maxStrikes >= 0 && k < |trace| && i < |trace[0].children|
    ensures |trace[k].children| == |trace[0].children| && Sound(p, trace[k].children[i])
  {
    hide Sound, Enabled, ChildStep;
    if k == 0 {
      assert trace[0].children[i] in trace[0].children;
      FreshSound(p);
    } else {
      EveryStateSound(p, trace, actions, k - 1, i);
      var a := actions[k - 1];
      assert CanAct(trace[k - 1], a) && trace[k] == Act(p, trace[k - 1], a);
      if a.Of? && a.i == i {
        SoundStep(p, trace[k - 1].stopping, trace[k - 1].children[i], a.event);
      }
    }
  }

  lemma FreshSound(p: Policy)
    requires p.maxTotalStarts >= 1 && p.maxStrikes >= 0
    ensures Sound(p, FRESH_CHILD)
  {
  }

  /** A coroutine that has ended changes nothing any more; in particular `failed` is final. */
  lemma {:induction false} DoneIsFinal(p: Policy, trace: seq<System>, actions: seq<Action>, j: nat, k: nat, i: nat)
    requires IsRun(p, trace, actions) && j <= k < |trace| && i < |trace[j].children| && trace[j].children[i].phase == Done
    ensures i < |trace[k].children| && trace[k].children[i] == trace[j].children[i]
  {
    if j < k {
      DoneIsFinal(p, trace, actions, j, k - 1, i);
      var a := actions[k - 1];
      assert CanAct(trace[k - 1], a) && trace[k] == Act(p, trace[k - 1], a);
    }
  }

  lemma FailedIsFinal(p: Policy, trace: seq<System>, actions: seq<Action>, j: nat, k: nat, i: nat)
    requires IsRun(p, trace, actions) && p.maxTotalStarts >= 1 && p.maxStrikes >= 0
    requires j <= k < |trace| && i < |trace[0].children| == |trace[j].children| && trace[j].children[i].status == Failed
    ensures i < |trace[k].children| && trace[k].children[i] == trace[j].children[i]
  {
    EveryStateSound(p, trace, actions, j, i);
    DoneIsFinal(p, trace, actions, j, k, i);
  }

  /** No launch begins once `stop` was called. */
  lemma {:induction false} NoLaunchAfterStop(p: Policy, trace: seq<System>, actions: seq<Action>, j: nat, k: nat, i: nat)
    requires IsRun(p, trace, actions) && j <= k < |trace| && i < |trace[j].children| && trace[j].stopping
    ensures trace[k].stopping && i < |trace[k].children| && trace[k].children[i].starts == trace[j].children[i].starts
  {
    if j < k {
      NoLaunchAfterStop(p, trace, actions, j, k - 1, i);
      var a := actions[k - 1];
      assert CanAct(trace[k - 1], a) && trace[k] == Act(p, trace[k - 1], a);
    }
  }

  lemma {:induction false} NeverStable(deaths: seq<bool>)
    requires true !in deaths
    ensures SinceStable(deaths) == |deaths|
  {
    if deaths != [] {
      assert deaths[|deaths| - 1] in deaths;
      NeverStable(deaths[..|deaths| - 1]);
    }
  }

  /** A child that always dies early and was not stopped is launched max_strikes + 1 times, or up to the cap. */
  lemma EarlyDeathsExactLaunches(p: Policy, trace: seq<System>, actions: seq<Action>, k: nat, i: nat)
    requires IsRun(p, trace, actions) && p.maxTotalStarts >= 1 && p.maxStrikes >= 0
    requires k < |trace| && i < |trace[0].children| == |trace[k].children|
    requires true !in trace[k].children[i].deaths
    ensures var c := trace[k].children[i]; var most := if p.maxStrikes + 1 < p.maxTotalStarts then p.maxStrikes + 1 else p.maxTotalStarts;
            c.starts <= most && (c.status == Failed ==> c.starts == most)
  {
    EveryStateSound(p, trace, actions, k, i);
    NeverStable(trace[k].children[i].deaths);
    StartsFollowDeaths(p, trace, actions, k, i);
  }

  /** At most one launch has not been followed by a counted death, and a coroutine only goes on within its strikes. */
  ghost predicate Paced(p: Policy, c: Child) {
    && c.starts <= |c.deaths| + 1
    && (c.starts == |c.deaths| + 1 ==> c.strikes <= p.maxStrikes)
    && (c.starts != |c.deaths| + 1 ==> c.starts == |c.deaths| && c.strikes <= p.maxStrikes + 1)
  }

  lemma {:induction false} StartsFollowDeaths(p: Policy, trace: seq<System>, actions: seq<Action>, k: nat, i: nat)
    requires IsRun(p, trace, actions) && p.maxTotalStarts >= 1 && p.maxStrikes >= 0 && k < |trace| && i < |trace[0].children|
    ensures i < |trace[k].children| && Paced(p, trace[k].children[i])
  {
    hide SinceStable;
    EveryStateSound(p, trace, actions, k, i);
    if k == 0 {
      assert trace[0].children[i] in trace[0].children;
      assert SinceStable([]) == 0 by {
        FreshSound(p);
      }
    } else {
      EveryStateSound(p, trace, actions, k - 1, i);
      StartsFollowDeaths(p, trace, actions, k - 1, i);
      var a := actions[k - 1];
      assert CanAct(trace[k - 1], a) && trace[k] == Act(p, trace[k - 1], a);
      if a.Of? && a.i == i {
        PacedStep(p, trace[k - 1].stopping, trace[k - 1].children[i], a.event);
      }
    }
  }

  lemma PacedStep(p: Policy, stopping: bool, c: Child, e: Event)
    requires p.maxStrikes >= 0 && Sound(p, c) && Paced(p, c) && Enabled(c, e)
    ensures Paced(p, ChildStep(p, stopping, c, e))
  {
    hide SinceStable;
  }

  predicate Undisturbed(actions: seq<Action>, i: nat) {
    forall k :: 0 <= k < |actions| ==> actions[k].Of? && !(actions[k].i == i && actions[k].event.Cancel?)
  }

  /** Without a stop or a cancellation, the only way to end is to have failed. */
  lemma {:induction false} UndisturbedEndsFailed(p: Policy, trace: seq<System>, actions: seq<Action>, k: nat, i: nat)
    requires IsRun(p, trace, actions) && Undisturbed(actions, i) && k < |trace| && i < |trace[0].children|
    ensures !trace[k].stopping && i < |trace[k].children|
    ensures trace[k].children[i].phase == Done ==> trace[k].children[i].status == Failed
  {
    if k == 0 {
      assert trace[0].children[i] in trace[0].children;
    } else {
      UndisturbedEndsFailed(p, trace, actions, k - 1, i);
      var a := actions[k - 1];
      assert CanAct(trace[k - 1], a) && trace[k] == Act(p, trace[k - 1], a);
    }
  }

  // --- Termination ---------------------------------------------------------------------------------------------------------

  /** An upper bound on the segments a coroutine still runs. */
  function Left(p: Policy, c: Child): int {
    4 * (p.maxTotalStarts - c.starts)
    + match c.phase
      case Scheduled => 2
      case Launching => 4
      case Waiting => 3
      case Sleeping => 2
      case Done => 0
  }

  function EventsOf(actions: seq<Action>, i: nat): nat {
    if actions == [] then 0
    else EventsOf(actions[..|actions| - 1], i) + (var a := actions[|actions| - 1]; if a.Of? && a.i == i then 1 else 0)
  }

  /** Every coroutine ends: in any run it has at most four segments for each launch the cap allows, and two more. */
  lemma {:induction false} EventsBounded(p: Policy, trace: seq<System>, actions: seq<Action>, i: nat)
    requires IsRun(p, trace, actions) && p.maxTotalStarts >= 1 && p.maxStrikes >= 0 && i < |trace[0].children|
    ensures |trace[|actions|].children| == |trace[0].children|
    ensures EventsOf(actions, i) + Left(p, trace[|actions|].children[i]) <= 4 * p.maxTotalStarts + 2
    ensures EventsOf(actions, i) <= 4 * p.maxTotalStarts + 2
    decreases |actions|
  {
    hide Sound, ChildStep, Enabled, Left;
    var n := |actions|;
    EveryStateSound(p, trace, actions, n, i);
    LeftNonNegative(p, trace[n].children[i]);
    if n == 0 {
      assert trace[0].children[i] in trace[0].children;
      FreshLeft(p);
    } else {
      var trace', actions' := trace[..n], actions[..n - 1];
      ShorterRun(p, trace, actions);
      EventsBounded(p, trace', actions', i);
      EveryStateSound(p, trace', actions', n - 1, i);
      var a := actions[n - 1];
      assert CanAct(trace[n - 1], a) && trace[n] == Act(p, trace[n - 1], a);
      if a.Of? && a.i == i {
        SoundStep(p, trace[n - 1].stopping, trace[n - 1].children[i], a.event);
      }
    }
  }

  lemma ShorterRun(p: Policy, trace: seq<System>, actions: seq<Action>)
    requires IsRun(p, trace, actions) && actions != []
    ensures IsRun(p, trace[..|actions|], actions[..|actions| - 1])
  {
    hide Act, CanAct;
    var t, b := trace[..|actions|], actions[..|actions| - 1];
    forall k | 0 <= k < |b|
      ensures CanAct(t[k], b[k]) && t[k + 1] == Act(p, t[k], b[k])
    {
      assert t[k] == trace[k] && t[k + 1] == trace[k + 1] && b[k] == actions[k];
    }
  }

  lemma FreshLeft(p: Policy)
    ensures Left(p, FRESH_CHILD) == 4 * p.maxTotalStarts + 2
  {
  }

  lemma LeftNonNegative(p: Policy, c: Child)
    requires Sound(p, c)
    ensures Left(p, c) >= 0
  {
  }
}

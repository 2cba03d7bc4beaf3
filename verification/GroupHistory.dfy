/** What a run of WaitGroups says about its own past: who waits, in which order they are woken,
    and what the counters add up to, in terms of the calls made. */
module GroupHistory {
  import opened Common
  import PW = ParkWake
  import opened WaitGroups

  // ---- The counter --------------------------------------------------------------------------

  /** The amounts added to group `g`: what it was raised to before the start, or nothing for
      one made by `new`, and then the arguments of the `add`s (-1 for `done`). */
  ghost function Added(counters: map<GroupId, nat>, acts: seq<Action>, g: GroupId): seq<int> {
    if acts == [] then if g in counters then [counters[g]] else []
    else
      var (before, a) := (Added(counters, acts[..|acts| - 1], g), acts[|acts| - 1]);
      if a.Add? && a.g == g then before + [a.delta] else before
  }

  lemma SumPush(s: seq<int>, x: int)
    ensures Sum(s + [x]) == Sum(s) + x
  {
    assert (s + [x])[..|s|] == s;
  }

  lemma CounterStep(s: Sys, a: Action, g: GroupId)
    requires Inv(s) && Enabled(s, a) && !Apply(s, a).aborted && g in Apply(s, a).groups
    ensures g in s.groups || (a.NewGroup? && a.g == g)
    ensures Apply(s, a).groups[g].counter
         == (if g in s.groups then s.groups[g].counter else 0) + (if a.Add? && a.g == g then a.delta else 0)
  {
    if a.Add? {
      assert GroupOk(s, a.g);
      AddIsExact(s.groups[a.g], a.delta, s.now + 1, s.wraps);
    }
  }

  /** In every reachable state that is not aborted the counter is the sum of what callers
      added to it. */
  lemma {:induction false} CounterIsSumOfAdds(
    n: nat, counters: map<GroupId, nat>, wraps: bool, acts: seq<Action>, g: GroupId)
    requires GoodStart(counters) && Run(Init(n, counters, wraps), acts)
    requires !Exec(Init(n, counters, wraps), acts).aborted
    ensures var s := Exec(Init(n, counters, wraps), acts);
      if g in s.groups then s.groups[g].counter == Sum(Added(counters, acts, g)) else Added(counters, acts, g) == []
  {
    if acts == [] {
      SumPush([], if g in counters then counters[g] else 0);
    } else {
      var k := |acts| - 1;
      var r := Exec(Init(n, counters, wraps), acts[..k]);
      RunKeepsInv(n, counters, wraps, acts[..k]);
      CounterIsSumOfAdds(n, counters, wraps, acts[..k], g);
      GroupsStay(r, acts[k]);
      if g in Exec(Init(n, counters, wraps), acts).groups {
        CounterStep(r, acts[k], g);
      }
      if acts[k].Add? && acts[k].g == g {
        SumPush(Added(counters, acts[..k], g), acts[k].delta);
      }
    }
  }

  lemma GroupsStay(s: Sys, a: Action)
    requires Enabled(s, a)
    ensures s.groups.Keys <= Apply(s, a).groups.Keys
  {
  }

  // ---- The waiters --------------------------------------------------------------------------

  /** Who has called `wait` on `g` and registered since the last time its counter came to
      zero, in the order of the calls. */
  ghost function Waiting(s: Sys, acts: seq<Action>, g: GroupId): seq<TaskId>
    requires Run(s, acts)
  {
    if acts == [] then []
    else
      var (r, a) := (Exec(s, acts[..|acts| - 1]), acts[|acts| - 1]);
      var before := Waiting(s, acts[..|acts| - 1], g);
      if a.Wait? && a.g == g && r.groups[g].counter != 0 then before + [a.t]
      else if a.Add? && a.g == g && r.groups[g].counter + a.delta == 0 then []
      else before
  }

  lemma WaitersStep(s: Sys, a: Action, g: GroupId, before: seq<TaskId>)
    requires Inv(s) && Enabled(s, a) && g in Apply(s, a).groups
    requires if g in s.groups then s.groups[g].waiters == before else before == []
    ensures Apply(s, a).groups[g].waiters ==
      if a.Wait? && a.g == g && s.groups[g].counter != 0 then before + [a.t]
      else if a.Add? && a.g == g && s.groups[g].counter + a.delta == 0 then []
      else before
  {
    if a.Add? {
      assert GroupOk(s, a.g);
      AddIsExact(s.groups[a.g], a.delta, s.now + 1, s.wraps);
    }
  }

  /** `waiters` is just that, in the order of the calls. */
  lemma {:induction false} WaitersInOrder(
    n: nat, counters: map<GroupId, nat>, wraps: bool, acts: seq<Action>, g: GroupId)
    requires GoodStart(counters) && Run(Init(n, counters, wraps), acts)
    ensures var s := Exec(Init(n, counters, wraps), acts);
      var waiting := Waiting(Init(n, counters, wraps), acts, g);
      if g in s.groups then s.groups[g].waiters == waiting else waiting == []
  {
    if acts != [] {
      var k := |acts| - 1;
      var r := Exec(Init(n, counters, wraps), acts[..k]);
      RunKeepsInv(n, counters, wraps, acts[..k]);
      WaitersInOrder(n, counters, wraps, acts[..k], g);
      GroupsStay(r, acts[k]);
      if g in Exec(Init(n, counters, wraps), acts).groups {
        WaitersStep(r, acts[k], g, Waiting(Init(n, counters, wraps), acts[..k], g));
      }
    }
  }

  // ---- What a wait that returns has seen ------------------------------------------------------

  /** The k-th action is a `wait` of `t` on `g` that finds the counter above zero. */
  ghost predicate WaitsAt(s: Sys, acts: seq<Action>, k: nat, t: TaskId, g: GroupId) {
    && k < |acts| && acts[k] == Action.Wait(t, g) && Run(s, acts[..k])
    && g in Exec(s, acts[..k]).groups && Exec(s, acts[..k]).groups[g].counter != 0
  }

  predicate WaitsSince(s: Sys, t: TaskId, g: GroupId, since: nat) {
    t in s.pc && (s.pc[t] == Blocked(OnGroup(g, since)) || s.pc[t] == Resume(OnGroup(g, since)))
  }

  lemma WaitStep(s: Sys, a: Action, t: TaskId, g: GroupId, since: nat)
    requires Enabled(s, a) && t < s.park.next && a != Continue(t)
    requires WaitsSince(s, t, g, since)
    ensures WaitsSince(Apply(s, a), t, g, since)
  {
  }

  lemma WaitBegins(s: Sys, t: TaskId, g: GroupId)
    requires Enabled(s, Action.Wait(t, g)) && s.groups[g].counter != 0
    ensures WaitsSince(Apply(s, Action.Wait(t, g)), t, g, s.now)
  {
  }

  /** Task `t` has not resumed since the k-th action. */
  ghost predicate NotResumed(acts: seq<Action>, k: nat, t: TaskId) {
    forall i :: k < i < |acts| ==> acts[i] != Continue(t)
  }

  lemma WaitedBefore(s: Sys, acts: seq<Action>, m: nat, k: nat, t: TaskId, g: GroupId)
    requires WaitsAt(s, acts, k, t, g) && NotResumed(acts, k, t) && k < m < |acts|
    ensures WaitsAt(s, acts[..m], k, t, g) && NotResumed(acts[..m], k, t) && acts[m] != Continue(t)
  {
    assert acts[..m][..k] == acts[..k] && acts[..m][k] == acts[k];
  }

  lemma {:induction false} StillWaits(s: Sys, acts: seq<Action>, k: nat, t: TaskId, g: GroupId)
    requires Inv(s) && s.now == 0 && Run(s, acts) && WaitsAt(s, acts, k, t, g) && NotResumed(acts, k, t)
    ensures WaitsSince(Exec(s, acts), t, g, k)
  {
    var m := |acts| - 1;
    RunKeeps(s, acts[..m]);
    if k == m {
      WaitBegins(Exec(s, acts[..m]), t, g);
    } else {
      WaitedBefore(s, acts, m, k, t, g);
      StillWaits(s, acts[..m], k, t, g);
      StillWaitsStep(Exec(s, acts[..m]), acts[m], t, g, k);
    }
  }

  lemma StillWaitsStep(s: Sys, a: Action, t: TaskId, g: GroupId, since: nat)
    requires Inv(s) && Enabled(s, a) && a != Continue(t) && WaitsSince(s, t, g, since)
    ensures WaitsSince(Apply(s, a), t, g, since)
  {
    WaitStep(s, a, t, g, since);
  }

  /** Each `wait` that returns had the counter at zero at some moment between its call and
      its return, although it may have been raised again before the task resumed: the call
      is the k-th action, and the task is about to resume for the first time since. */
  lemma WaitReturnsAfterZero(
    n: nat, counters: map<GroupId, nat>, wraps: bool, acts: seq<Action>, k: nat, t: TaskId, g: GroupId)
    requires GoodStart(counters) && Run(Init(n, counters, wraps), acts)
    requires WaitsAt(Init(n, counters, wraps), acts, k, t, g)
    requires NotResumed(acts, k, t)
    requires Enabled(Exec(Init(n, counters, wraps), acts), Continue(t))
    ensures exists z: nat :: k < z <= |acts| && WasZero(Init(n, counters, wraps), acts, z, g)
  {
    InitInv(n, counters, wraps);
    StillWaits(Init(n, counters, wraps), acts, k, t, g);
    WaitSawZero(n, counters, wraps, acts, t, g, k);
    var z: nat :| k <= z && WasZero(Init(n, counters, wraps), acts, z, g);
    assert z != k;
  }

  // ---- The wakeups of the last add ------------------------------------------------------------

  /** Whom `t` wakes along a run, in order. */
  ghost function WokenBy(s: Sys, acts: seq<Action>, t: TaskId): seq<TaskId>
    requires Run(s, acts)
  {
    if acts == [] then []
    else
      var (before, r) := (WokenBy(s, acts[..|acts| - 1], t), Exec(s, acts[..|acts| - 1]));
      if acts[|acts| - 1] == WakeNext(t) then before + [r.pc[t].list[0]] else before
  }

  /** Of those it has to wake, `wake`, task `t` has woken `done`. */
  ghost predicate WakingAt(s: Sys, t: TaskId, wake: seq<TaskId>, done: seq<TaskId>) {
    if |done| < |wake| then done <= wake && t in s.pc && s.pc[t] == Waking(wake[|done|..]) else wake <= done
  }

  lemma WakingStep(s: Sys, a: Action, t: TaskId)
    requires Enabled(s, a) && t in s.pc && t < s.park.next && s.pc[t].Waking? && s.pc[t].list != []
    ensures t in Apply(s, a).pc
    ensures Apply(s, a).pc[t] == if a == WakeNext(t) then WakingPc(s.pc[t].list[1..]) else s.pc[t]
  {
  }

  lemma WakingGoesOn(s: Sys, a: Action, t: TaskId, wake: seq<TaskId>, done: seq<TaskId>)
    requires Inv(s) && Enabled(s, a) && WakingAt(s, t, wake, done)
    ensures WakingAt(Apply(s, a), t, wake, if a == WakeNext(t) then done + [s.pc[t].list[0]] else done)
  {
    if |done| < |wake| {
      WakingStep(s, a, t);
      assert wake[|done|..][1..] == wake[|done + [wake[|done|]]|..];
    }
  }

  lemma {:induction false} WakesInOrder(s: Sys, acts: seq<Action>, t: TaskId, wake: seq<TaskId>)
    requires Inv(s) && Run(s, acts) && WakingAt(s, t, wake, [])
    ensures WakingAt(Exec(s, acts), t, wake, WokenBy(s, acts, t))
  {
    if acts != [] {
      var k := |acts| - 1;
      WakesInOrder(s, acts[..k], t, wake);
      RunKeeps(s, acts[..k]);
      WakingGoesOn(Exec(s, acts[..k]), acts[k], t, wake, WokenBy(s, acts[..k], t));
    }
  }

  lemma ZeroHandsOver(s: Sys, t: TaskId, g: GroupId, delta: int)
    requires Inv(s) && Enabled(s, Action.Add(t, g, delta)) && s.groups[g].counter + delta == 0
    ensures WakingAt(Apply(s, Action.Add(t, g, delta)), t, s.groups[g].waiters, [])
    ensures NoDup(s.groups[g].waiters)
  {
    AddWakesAllAtZero(s, t, g, delta);
    assert s.groups[g].waiters[0..] == s.groups[g].waiters;
  }

  /** First come, first woken: the task whose `add` brings the counter to zero makes, along
      every run after it, just the wakeups of those who wait, each once, in the order of
      their calls of `wait`; it does nothing else until it has made them all. */
  lemma WokenInOrderOfWaits(
    n: nat, counters: map<GroupId, nat>, wraps: bool, acts: seq<Action>,
    t: TaskId, g: GroupId, delta: int, later: seq<Action>)
    requires GoodStart(counters) && Run(Init(n, counters, wraps), acts)
    requires Enabled(Exec(Init(n, counters, wraps), acts), Action.Add(t, g, delta))
    requires Exec(Init(n, counters, wraps), acts).groups[g].counter + delta == 0
    requires Run(Apply(Exec(Init(n, counters, wraps), acts), Action.Add(t, g, delta)), later)
    ensures var s := Apply(Exec(Init(n, counters, wraps), acts), Action.Add(t, g, delta));
      var waiting := Waiting(Init(n, counters, wraps), acts, g);
      NoDup(waiting) && WakingAt(Exec(s, later), t, waiting, WokenBy(s, later, t))
  {
    var s := Exec(Init(n, counters, wraps), acts);
    RunKeepsInv(n, counters, wraps, acts);
    WaitersInOrder(n, counters, wraps, acts, g);
    ZeroHandsOver(s, t, g, delta);
    StepKeepsInv(s, Action.Add(t, g, delta));
    WakesInOrder(Apply(s, Action.Add(t, g, delta)), later, t, s.groups[g].waiters);
  }
}

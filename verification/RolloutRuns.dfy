/** Bounds, health and termination of rolling updates, over every run. */
module RolloutRuns {
  import opened Common
  import opened Rollout

  /** Between reconciles a deleted machine may disappear and the health of a machine may change. */
  datatype Step = Tick(e: Env) | Gone(n: Name) | Health(n: Name, healthy: bool)

  ghost function After(sp: Spec, ms: Machines, s: Step): Machines {
    match s
    case Tick(e) => Reconciled(sp, ms, e)
    case Gone(n) => if n in ms && ms[n].deleting then ms - {n} else ms
    case Health(n, h) => if n in ms then ms[n := ms[n].(healthy := h)] else ms
  }

  ghost function Run(sp: Spec, ms: Machines, steps: seq<Step>): Machines
    decreases |steps|
  {
    if steps == [] then ms else Run(sp, After(sp, ms, steps[0]), steps[1..])
  }

  function Live(ms: Machines): set<Name> {
    set n | n in ms && !ms[n].deleting
  }

  function Deleting(ms: Machines): set<Name> {
    set n | n in ms && ms[n].deleting
  }

  function Max(a: int, b: int): int { if a < b then b else a }
  function Min(a: int, b: int): int { if a < b then a else b }

  // ---------------------------------------------------------------------------------------------
  // What a reconcile does
  // ---------------------------------------------------------------------------------------------

  /** A reconcile that creates: nothing is being deleted and the count is below its limit. */
  ghost predicate Creates(sp: Spec, ms: Machines, t: Machines, n: Name) {
    && n !in ms && t == ms[n := NewMachine] && Deleting(ms) == {} && (|ms| == 0 || Stable(ms, {}))
    && |ms| < if NeedRollout(ms) != {} then sp.replicas + sp.maxSurge else sp.replicas
  }

  /** A reconcile that deletes: nothing else is being deleted, everything else is healthy, and the
      count is at or above its limit. */
  ghost predicate Kills(sp: Spec, ms: Machines, t: Machines, n: Name) {
    && n in ms && t == ms[n := ms[n].(deleting := true)] && Stable(ms, {n})
    && n in Candidates(ms, NeedRollout(ms))
    && if NeedRollout(ms) != {} then |ms| >= sp.replicas + sp.maxSurge else |ms| > sp.replicas
  }

  lemma TickCases(sp: Spec, ms: Machines, e: Env)
    ensures var t := Reconciled(sp, ms, e);
            t == ms || Creates(sp, ms, t, e.newName) || (e.pick.Some? && Kills(sp, ms, t, e.pick.value))
  {
  }

  /** Some machine has to be replaced. */
  ghost predicate Outdated(ms: Machines) {
    exists n :: n in ms && ms[n].outdated && !ms[n].deleting
  }

  lemma OutdatedIff(ms: Machines)
    ensures Outdated(ms) <==> NeedRollout(ms) != {}
  {
    if n :| n in ms && ms[n].outdated && !ms[n].deleting {
      assert n in NeedRollout(ms);
    }
  }

  /** Exactly when a reconcile creates a machine: it works, nothing is being deleted, all are healthy, and there
      are fewer than `replicas`, or in a rolling update fewer than `replicas + maxSurge`. */
  lemma CreatesIff(sp: Spec, ms: Machines, e: Env)
    requires e.newName !in ms
    ensures e.newName in Reconciled(sp, ms, e) <==>
              && e.createOk && (forall n :: n in ms ==> !ms[n].deleting && ms[n].healthy)
              && if Outdated(ms) then sp.rolling && |ms| < sp.replicas + sp.maxSurge else |ms| < sp.replicas
  {
    OutdatedIff(ms);
    assert |ms| == 0 ==> ms == map[];
  }

  /** Exactly when a reconcile deletes machine `n`: the delete works, nothing is being deleted, all others are
      healthy, it may be ill itself, there are too many machines, and no machine is to be preferred.  Machines
      with the delete annotation go before others, outdated ones first, and outdated ones before the rest. */
  lemma DeletesIff(sp: Spec, ms: Machines, e: Env, n: Name)
    requires n in ms && !ms[n].deleting
    ensures Reconciled(sp, ms, e)[n].deleting <==>
              && e.pick == Some(n) && e.deleteOk
              && (forall m :: m in ms ==> !ms[m].deleting && (m == n || ms[m].healthy))
              && (if Outdated(ms) then sp.rolling && |ms| >= sp.replicas + sp.maxSurge else |ms| > sp.replicas)
              && (forall m :: m in ms && ms[m].marked ==> ms[n].marked)
              && (forall m :: m in ms && ms[m].marked && ms[m].outdated ==> ms[n].outdated)
              && (forall m :: m in ms && ms[m].outdated ==> ms[n].marked || ms[n].outdated)
  {
    TickCases(sp, ms, e);
    OutdatedIff(ms);
    if Stable(ms, {n}) {
      CandidatesIff(ms, n);
    }
  }

  /** In every run: no reconcile deletes a machine without the delete annotation while one with it is live, nor
      an annotated up-to-date one while an annotated outdated one is. */
  lemma AnnotatedFirst(sp: Spec, ms: Machines, steps: seq<Step>, e: Env, n: Name, m: Name)
    requires var t := Run(sp, ms, steps);
             n in t && m in t && !t[n].deleting && !t[m].deleting && Reconciled(sp, t, e)[n].deleting && t[m].marked
    ensures var t := Run(sp, ms, steps); t[n].marked && (t[m].outdated ==> t[n].outdated)
  {
    DeletesIff(sp, Run(sp, ms, steps), e, n);
  }

  lemma CandidatesIff(ms: Machines, n: Name)
    requires n in ms && Stable(ms, {n})
    ensures n in Candidates(ms, NeedRollout(ms)) <==>
              && (forall m :: m in ms && ms[m].marked ==> ms[n].marked)
              && (forall m :: m in ms && ms[m].marked && ms[m].outdated ==> ms[n].outdated)
              && (forall m :: m in ms && ms[m].outdated ==> ms[n].marked || ms[n].outdated)
  {
    var need := NeedRollout(ms);
    assert forall m :: m in need <==> m in ms && ms[m].outdated;
    MarkedIff(ms, need);
    MarkedIff(ms, ms.Keys);
  }

  lemma LiveOrDeleting(ms: Machines)
    ensures |ms| == |Live(ms)| + |Deleting(ms)|
  {
    assert ms.Keys == Live(ms) + Deleting(ms) && Live(ms) !! Deleting(ms);
  }

  lemma CreateEffect(sp: Spec, ms: Machines, t: Machines, n: Name)
    requires Creates(sp, ms, t, n)
    ensures Live(t) == Live(ms) + {n} && n !in Live(ms) && Deleting(t) == {} && NeedRollout(t) == NeedRollout(ms)
    ensures Live(ms) == ms.Keys
  {
  }

  lemma KillEffect(sp: Spec, ms: Machines, t: Machines, n: Name)
    requires Kills(sp, ms, t, n)
    ensures Live(ms) == ms.Keys && Live(t) == Live(ms) - {n} && Deleting(t) == {n} && t.Keys == ms.Keys
    ensures NeedRollout(t) == NeedRollout(ms) - {n}
  {
  }

  // ---------------------------------------------------------------------------------------------
  // Bounds
  // ---------------------------------------------------------------------------------------------

  ghost predicate Bounded(ms: Machines, top: int, bottom: int, deletions: int) {
    |ms| <= top && |Live(ms)| >= bottom && |Deleting(ms)| <= deletions
  }

  lemma StepBounded(sp: Spec, ms: Machines, s: Step, top: int, bottom: int, deletions: int)
    requires Bounded(ms, top, bottom, deletions) && top >= sp.replicas + sp.maxSurge && deletions >= 1
    requires bottom <= sp.replicas && bottom <= sp.replicas + sp.maxSurge - 1
    ensures Bounded(After(sp, ms, s), top, bottom, deletions)
  {
    var t := After(sp, ms, s);
    match s
    case Tick(e) => TickBounded(sp, ms, e, top, bottom, deletions);
    case Gone(n) => GoneBounded(sp, ms, n, top, bottom, deletions);
    case Health(n, h) =>
      assert Live(t) == Live(ms) && Deleting(t) == Deleting(ms) && t.Keys == ms.Keys;
  }

  lemma TickBounded(sp: Spec, ms: Machines, e: Env, top: int, bottom: int, deletions: int)
    requires Bounded(ms, top, bottom, deletions) && top >= sp.replicas + sp.maxSurge && deletions >= 1
    requires bottom <= sp.replicas && bottom <= sp.replicas + sp.maxSurge - 1
    ensures Bounded(Reconciled(sp, ms, e), top, bottom, deletions)
  {
    var t := Reconciled(sp, ms, e);
    if t != ms {
      TickCases(sp, ms, e);
      LiveOrDeleting(ms);
      LiveOrDeleting(t);
      if Creates(sp, ms, t, e.newName) {
        CreateEffect(sp, ms, t, e.newName);
      } else {
        KillEffect(sp, ms, t, e.pick.value);
      }
    }
  }

  lemma GoneBounded(sp: Spec, ms: Machines, n: Name, top: int, bottom: int, deletions: int)
    requires Bounded(ms, top, bottom, deletions)
    ensures Bounded(After(sp, ms, Gone(n)), top, bottom, deletions)
  {
    var t := After(sp, ms, Gone(n));
    if t != ms {
      LiveOrDeleting(ms);
      LiveOrDeleting(t);
      assert Live(t) == Live(ms) && Deleting(t) == Deleting(ms) - {n};
    }
  }

  lemma {:induction false} RunBounded(sp: Spec, ms: Machines, steps: seq<Step>, top: int, bottom: int, deletions: int)
    requires Bounded(ms, top, bottom, deletions) && top >= sp.replicas + sp.maxSurge && deletions >= 1
    requires bottom <= sp.replicas && bottom <= sp.replicas + sp.maxSurge - 1
    ensures Bounded(Run(sp, ms, steps), top, bottom, deletions)
    decreases |steps|
  {
    if steps != [] {
      StepBounded(sp, ms, steps[0], top, bottom, deletions);
      RunBounded(sp, After(sp, ms, steps[0]), steps[1..], top, bottom, deletions);
    }
  }

  /** In every run the number of machines stays at most max(initial, replicas + maxSurge), the
      machines not being deleted stay at least min(initial, replicas, replicas + maxSurge - 1), and
      the controller never has two deletions outstanding, beyond those it started with. */
  lemma {:induction false} RolloutBounds(sp: Spec, ms: Machines, steps: seq<Step>)
    ensures var t := Run(sp, ms, steps);
            && |t| <= Max(|ms|, sp.replicas + sp.maxSurge)
            && |Live(t)| >= Min(|Live(ms)|, Min(sp.replicas, sp.replicas + sp.maxSurge - 1))
            && |Deleting(t)| <= Max(1, |Deleting(ms)|)
  {
    RunBounded(sp, ms, steps, Max(|ms|, sp.replicas + sp.maxSurge),
               Min(|Live(ms)|, Min(sp.replicas, sp.replicas + sp.maxSurge - 1)), Max(1, |Deleting(ms)|));
  }

  // ---------------------------------------------------------------------------------------------
  // Health
  // ---------------------------------------------------------------------------------------------

  function Sick(ms: Machines): set<Name> {
    set n | n in ms && !ms[n].deleting && !ms[n].healthy
  }

  ghost predicate NoRegress(steps: seq<Step>) {
    forall k :: 0 <= k < |steps| && steps[k].Health? ==> steps[k].healthy
  }

  lemma CreateHealth(sp: Spec, ms: Machines, t: Machines, n: Name)
    requires Creates(sp, ms, t, n)
    ensures Sick(t) == {n} && Deleting(t) == Deleting(ms)
  {
  }

  lemma KillHealth(sp: Spec, ms: Machines, t: Machines, n: Name)
    requires Kills(sp, ms, t, n)
    ensures Sick(t) == {}
  {
  }

  lemma StepHealth(sp: Spec, ms: Machines, s: Step)
    requires |Sick(ms)| <= 1 && (s.Health? ==> s.healthy)
    ensures |Sick(After(sp, ms, s))| <= 1
    ensures s.Tick? && Deleting(After(sp, ms, s)) != Deleting(ms) ==> Sick(After(sp, ms, s)) == {}
  {
    var t := After(sp, ms, s);
    match s
    case Tick(e) =>
      TickCases(sp, ms, e);
      if t == ms {
      } else if Creates(sp, ms, t, e.newName) {
        CreateHealth(sp, ms, t, e.newName);
      } else {
        KillHealth(sp, ms, t, e.pick.value);
      }
    case Gone(n) => assert Sick(t) == Sick(ms);
    case Health(n, h) => assert Sick(t) == Sick(ms) - {n};
  }

  /** If machines do not fall ill by themselves and at most one live machine starts ill, at most one
      live machine is ever ill, and right after the controller marks a machine for deletion all live
      machines are healthy. */
  lemma {:induction false} HealthGated(sp: Spec, ms: Machines, steps: seq<Step>, s: Step)
    requires |Sick(ms)| <= 1 && NoRegress(steps) && (s.Health? ==> s.healthy)
    ensures |Sick(Run(sp, ms, steps))| <= 1
    ensures var t := Run(sp, ms, steps);
            s.Tick? && Deleting(After(sp, t, s)) != Deleting(t) ==> Sick(After(sp, t, s)) == {}
    decreases |steps|
  {
    if steps == [] {
      StepHealth(sp, ms, s);
    } else {
      StepHealth(sp, ms, steps[0]);
      HealthGated(sp, After(sp, ms, steps[0]), steps[1..], s);
    }
  }

  // ---------------------------------------------------------------------------------------------
  // Termination
  // ---------------------------------------------------------------------------------------------

  /** Live machines that a rollout or the delete annotation wants gone.  Counting only the outdated
      ones is not enough: an annotated machine that is up to date may be chosen first. */
  function Unwanted(ms: Machines): set<Name> {
    set n | n in ms && !ms[n].deleting && (ms[n].outdated || ms[n].marked)
  }

  function Target(sp: Spec, ms: Machines): nat {
    if NeedRollout(ms) != {} then sp.replicas + sp.maxSurge else sp.replicas
  }

  function Distance(sp: Spec, ms: Machines): nat {
    Max(|Live(ms)| - Target(sp, ms), Target(sp, ms) - |Live(ms)|)
  }

  /** The lexicographic measure (unwanted, distance) as a number: `k` exceeds every distance. */
  function Rank(sp: Spec, ms: Machines, k: nat): nat {
    |Unwanted(ms)| * k + Distance(sp, ms)
  }

  function Limit(sp: Spec, ms: Machines): nat {
    Max(|ms|, sp.replicas + sp.maxSurge) + 1
  }

  lemma DistanceLimit(sp: Spec, ms: Machines, k: nat)
    requires |ms| < k && sp.replicas + sp.maxSurge < k
    ensures Distance(sp, ms) < k
  {
    LiveOrDeleting(ms);
  }

  lemma CreateRanks(sp: Spec, ms: Machines, t: Machines, n: Name, k: nat)
    requires Creates(sp, ms, t, n)
    ensures Rank(sp, t, k) < Rank(sp, ms, k)
  {
    CreateEffect(sp, ms, t, n);
    assert Unwanted(t) == Unwanted(ms);
  }

  lemma KillRanks(sp: Spec, ms: Machines, t: Machines, n: Name, k: nat)
    requires Kills(sp, ms, t, n) && |ms| < k && sp.replicas + sp.maxSurge < k
    ensures Rank(sp, t, k) < Rank(sp, ms, k)
  {
    KillEffect(sp, ms, t, n);
    DistanceLimit(sp, t, k);
    if n in Unwanted(ms) {
      assert Unwanted(t) == Unwanted(ms) - {n};
      var u := |Unwanted(ms)|;
      assert |Unwanted(t)| == u - 1 && (u - 1) * k + k == u * k;
    } else {
      assert Unwanted(t) == Unwanted(ms) && NeedRollout(ms) == {};
    }
  }

  lemma TickRanks(sp: Spec, ms: Machines, e: Env, k: nat)
    requires |ms| < k && sp.replicas + sp.maxSurge < k && Reconciled(sp, ms, e) != ms
    ensures Rank(sp, Reconciled(sp, ms, e), k) < Rank(sp, ms, k)
  {
    var t := Reconciled(sp, ms, e);
    TickCases(sp, ms, e);
    if Creates(sp, ms, t, e.newName) {
      CreateRanks(sp, ms, t, e.newName, k);
    } else {
      KillRanks(sp, ms, t, e.pick.value, k);
    }
  }

  lemma OtherRanks(sp: Spec, ms: Machines, s: Step, k: nat)
    requires !s.Tick?
    ensures Rank(sp, After(sp, ms, s), k) == Rank(sp, ms, k)
  {
    var t := After(sp, ms, s);
    assert Unwanted(t) == Unwanted(ms) && Live(t) == Live(ms) && NeedRollout(t) == NeedRollout(ms);
  }

  /** The reconciles of a run that create or delete a machine. */
  ghost function Effective(sp: Spec, ms: Machines, steps: seq<Step>): nat
    decreases |steps|
  {
    if steps == [] then 0
    else (if steps[0].Tick? && After(sp, ms, steps[0]) != ms then 1 else 0)
         + Effective(sp, After(sp, ms, steps[0]), steps[1..])
  }

  lemma {:induction false} EffectiveRanks(sp: Spec, ms: Machines, steps: seq<Step>, k: nat)
    requires |ms| < k && sp.replicas + sp.maxSurge < k
    ensures Effective(sp, ms, steps) + Rank(sp, Run(sp, ms, steps), k) <= Rank(sp, ms, k)
    decreases |steps|
  {
    if steps != [] {
      var t := After(sp, ms, steps[0]);
      StepBounded(sp, ms, steps[0], k - 1, Min(|Live(ms)|, Min(sp.replicas, sp.replicas + sp.maxSurge - 1)),
                  Max(1, |Deleting(ms)|));
      if steps[0].Tick? {
        if t != ms {
          TickRanks(sp, ms, steps[0].e, k);
        }
      } else {
        OtherRanks(sp, ms, steps[0], k);
      }
      EffectiveRanks(sp, t, steps[1..], k);
    }
  }

  /** Rolling updates terminate: in every run, however long, the number of reconciles that create or
      delete a machine is bounded by the rank of the initial machines. */
  lemma {:induction false} RolloutTerminates(sp: Spec, ms: Machines, steps: seq<Step>)
    ensures Effective(sp, ms, steps) <= Rank(sp, ms, Limit(sp, ms))
  {
    EffectiveRanks(sp, ms, steps, Limit(sp, ms));
  }

  // ---------------------------------------------------------------------------------------------
  // The end
  // ---------------------------------------------------------------------------------------------

  /** Exactly `replicas` machines: up to date, healthy and none being deleted. */
  ghost predicate Complete(sp: Spec, ms: Machines) {
    |ms| == sp.replicas && forall n :: n in ms ==> !ms[n].outdated && !ms[n].deleting && ms[n].healthy
  }

  lemma CompleteIs(sp: Spec, ms: Machines)
    ensures Complete(sp, ms) <==> |ms| == sp.replicas && NeedRollout(ms) == {} && Stable(ms, {})
  {
    assert forall n :: n in ms && ms[n].outdated && !ms[n].deleting ==> n in NeedRollout(ms);
  }

  lemma {:induction false} FreshName(used: set<Name>) returns (n: Name)
    ensures forall m :: m in used ==> m < n
  {
    n := 0;
    if used != {} {
      var m :| m in used;
      var k := FreshName(used - {m});
      n := if k <= m then m + 1 else k;
      assert used == used - {m} + {m};
    }
  }

  /** Nothing outside fails in a reconcile: create and delete succeed, the generated name is new, and the
      failure-domain choice picks a candidate if there is one. */
  ghost predicate Works(ms: Machines, e: Env) {
    && e.createOk && e.deleteOk && e.newName !in ms
    && (Candidates(ms, NeedRollout(ms)) != {} ==> e.pick.Some? && e.pick.value in Candidates(ms, NeedRollout(ms)))
  }

  /** A reconcile that works always moves a stable machine set that is not complete. */
  lemma WorkingMoves(sp: Spec, ms: Machines, e: Env)
    requires sp.rolling && Stable(ms, {}) && !Complete(sp, ms) && Works(ms, e)
    ensures Reconciled(sp, ms, e) != ms
  {
    var from := Candidates(ms, NeedRollout(ms));
    CompleteIs(sp, ms);
    if from != {} {
      assert e.pick.value in ms && !ms[e.pick.value].deleting && Stable(ms, {e.pick.value});
    } else {
      assert ms.Keys == {};
    }
  }

  lemma SomeWorks(ms: Machines) returns (e: Env)
    ensures Works(ms, e)
  {
    var unused := FreshName(ms.Keys);
    var from := Candidates(ms, NeedRollout(ms));
    assert unused !in ms.Keys;
    e := Env(unused, true, None, true);
    if from != {} {
      var victim :| victim in from;
      e := e.(pick := Some(victim));
    }
  }

  /** Among stable machine sets the complete ones are exactly those that no reconcile changes. */
  lemma CompleteIffQuiet(sp: Spec, ms: Machines)
    requires sp.rolling && Stable(ms, {})
    ensures Complete(sp, ms) <==> forall e :: Reconciled(sp, ms, e) == ms
  {
    CompleteIs(sp, ms);
    if !Complete(sp, ms) {
      var e := SomeWorks(ms);
      WorkingMoves(sp, ms, e);
    }
  }

  // ---------------------------------------------------------------------------------------------
  // Every run ends there
  // ---------------------------------------------------------------------------------------------

  /** Exactly `replicas` machines, all up to date and none being deleted. */
  ghost predicate RolledOut(sp: Spec, ms: Machines) {
    |ms| == sp.replicas && forall n :: n in ms ==> !ms[n].outdated && !ms[n].deleting
  }

  lemma RolledOutIs(sp: Spec, ms: Machines)
    ensures RolledOut(sp, ms) <==> |ms| == sp.replicas && NeedRollout(ms) == {} && Deleting(ms) == {}
  {
    if NeedRollout(ms) == {} && Deleting(ms) == {} {
      forall n | n in ms ensures !ms[n].outdated && !ms[n].deleting {
        assert n !in Deleting(ms) && n !in NeedRollout(ms);
      }
    }
  }

  /** From then on no run changes the machines any more, whatever happens to their health. */
  lemma {:induction false} RolledOutStays(sp: Spec, ms: Machines, steps: seq<Step>)
    requires RolledOut(sp, ms)
    ensures RolledOut(sp, Run(sp, ms, steps)) && Run(sp, ms, steps).Keys == ms.Keys
    decreases |steps|
  {
    if steps != [] {
      var t := After(sp, ms, steps[0]);
      RolledOutIs(sp, ms);
      assert t.Keys == ms.Keys by {
        assert steps[0].Gone? && steps[0].n in ms ==> steps[0].n !in Deleting(ms);
      }
      assert NeedRollout(t) == NeedRollout(ms) && Deleting(t) == Deleting(ms);
      RolledOutIs(sp, t);
      RolledOutStays(sp, t, steps[1..]);
    }
  }

  /** The reconciles of a run that work and meet a stable machine set. */
  ghost function Working(sp: Spec, ms: Machines, steps: seq<Step>): nat
    decreases |steps|
  {
    if steps == [] then 0
    else (if steps[0].Tick? && Stable(ms, {}) && Works(ms, steps[0].e) then 1 else 0)
         + Working(sp, After(sp, ms, steps[0]), steps[1..])
  }

  lemma {:induction false} WorkingIsEffective(sp: Spec, ms: Machines, steps: seq<Step>)
    requires sp.rolling
    ensures Working(sp, ms, steps) <= Effective(sp, ms, steps) || RolledOut(sp, Run(sp, ms, steps))
    decreases |steps|
  {
    if RolledOut(sp, ms) {
      RolledOutStays(sp, ms, steps);
    } else if steps != [] {
      var s := steps[0];
      if s.Tick? && Stable(ms, {}) && Works(ms, s.e) {
        assert Deleting(ms) == {};
        WorkingMoves(sp, ms, s.e);
      }
      WorkingIsEffective(sp, After(sp, ms, s), steps[1..]);
    }
  }

  /** Every rolling update ends.  A run in which more reconciles work at stable machine sets than the
      rank of the initial machines ends with exactly `replicas` up-to-date machines; whatever the start,
      the order of the steps and the failures in between. */
  lemma RolloutEnds(sp: Spec, ms: Machines, steps: seq<Step>)
    requires sp.rolling && Working(sp, ms, steps) > Rank(sp, ms, Limit(sp, ms))
    ensures RolledOut(sp, Run(sp, ms, steps))
  {
    WorkingIsEffective(sp, ms, steps);
    RolloutTerminates(sp, ms, steps);
  }

  lemma {:induction false} Settle(sp: Spec, ms: Machines, k: nat) returns (steps: seq<Step>)
    ensures var t := Run(sp, ms, steps); Stable(t, {}) && |t| <= |ms| && Rank(sp, t, k) == Rank(sp, ms, k)
    decreases |ms|, |Sick(ms)|
  {
    if Deleting(ms) != {} {
      var n :| n in Deleting(ms);
      steps := SettleAfter(sp, ms, Gone(n), k);
    } else if Sick(ms) != {} {
      var n :| n in Sick(ms);
      assert Sick(ms[n := ms[n].(healthy := true)]) == Sick(ms) - {n};
      assert ms[n := ms[n].(healthy := true)].Keys == ms.Keys;
      steps := SettleAfter(sp, ms, Health(n, true), k);
    } else {
      steps := [];
      forall n | n in ms ensures !ms[n].deleting && ms[n].healthy {
        assert n !in Deleting(ms) && n !in Sick(ms);
      }
    }
  }

  lemma {:induction false} SettleAfter(sp: Spec, ms: Machines, s: Step, k: nat) returns (steps: seq<Step>)
    requires !s.Tick?
    requires var t := After(sp, ms, s); |t| < |ms| || (|t| == |ms| && |Sick(t)| < |Sick(ms)|)
    ensures var t := Run(sp, ms, steps); Stable(t, {}) && |t| <= |ms| && Rank(sp, t, k) == Rank(sp, ms, k)
    decreases |ms|, |Sick(ms)|, 0
  {
    OtherRanks(sp, ms, s, k);
    var rest := Settle(sp, After(sp, ms, s), k);
    steps := [s] + rest;
    assert steps[1..] == rest;
  }

  lemma {:induction false} RunConcat(sp: Spec, ms: Machines, a: seq<Step>, b: seq<Step>)
    ensures Run(sp, ms, a + b) == Run(sp, Run(sp, ms, a), b)
    decreases |a|
  {
    if a == [] {
      assert a + b == b;
    } else {
      RunConcat(sp, After(sp, ms, a[0]), a[1..], b);
      assert (a + b)[1..] == a[1..] + b;
    }
  }

  lemma {:induction false} CompletesBelow(sp: Spec, ms: Machines, k: nat) returns (steps: seq<Step>)
    requires sp.rolling && |ms| < k && sp.replicas + sp.maxSurge < k
    ensures Complete(sp, Run(sp, ms, steps))
    decreases Rank(sp, ms, k)
  {
    steps := Settle(sp, ms, k);
    var t := Run(sp, ms, steps);
    if !Complete(sp, t) {
      var e := SomeWorks(t);
      WorkingMoves(sp, t, e);
      var u := Reconciled(sp, t, e);
      TickRanks(sp, t, e, k);
      TickCases(sp, t, e);
      assert |u| < k;
      var rest := CompletesBelow(sp, u, k);
      assert ([Tick(e)] + rest)[1..] == rest;
      RunConcat(sp, ms, steps, [Tick(e)] + rest);
      steps := steps + ([Tick(e)] + rest);
    }
  }

  /** And such runs exist: from every machine set a rollout can be completed, with all machines healthy. */
  lemma RolloutCompletes(sp: Spec, ms: Machines) returns (steps: seq<Step>)
    requires sp.rolling
    ensures Complete(sp, Run(sp, ms, steps))
  {
    steps := CompletesBelow(sp, ms, Limit(sp, ms));
  }
}

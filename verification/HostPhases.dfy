/** The bootstrap phases of a KKInstance: ordered, guarded by conditions, retried after failures. */
module HostPhases {
  datatype Phase = Bootstrap | Repository | BinaryService | ContainerManager | Provisioning

  datatype Distribution = Kubernetes | K3s | Other

  function Phases(d: Distribution): seq<Phase> {
    match d
    case Kubernetes => [Bootstrap, Repository, BinaryService, ContainerManager, Provisioning]
    case K3s => [Bootstrap, Repository, BinaryService, Provisioning]
    case Other => []
  }

  /** What one reconcile does: the phases whose condition is true afterwards, whether a phase body ran
      (and so touched the host), and whether all phases are through. */
  datatype Outcome = Outcome(conds: set<Phase>, touched: bool, done: bool)

  /** `works`: the phases whose body would succeed this time. */
  function RunPhases(phases: seq<Phase>, conds: set<Phase>, works: set<Phase>): (r: Outcome)
    decreases |phases|
  {
    if phases == [] then Outcome(conds, false, true)
    else if phases[0] in conds then RunPhases(phases[1..], conds, works)
    else if phases[0] in works then RunPhases(phases[1..], conds + {phases[0]}, works).(touched := true)
    else Outcome(conds, true, false)
  }

  /** The phase loop of a reconcile: a phase is true afterwards if it was, or if all phases up to it were or
      worked; the host is touched exactly if some phase was not true. */
  method ReconcilePhases(d: Distribution, stored: set<Phase>, works: set<Phase>) returns (r: Outcome)
    ensures r == RunPhases(Phases(d), stored, works)
    ensures PhaseByPhase(d, stored, works, r)
  {
    var phases := Phases(d);
    RunPhaseByPhase(d, stored, works);
    var conds, touched := stored, false;
    var k := 0;
    while k < |phases|
      invariant 0 <= k <= |phases|
      invariant var rest := RunPhases(phases[k..], conds, works);
                RunPhases(phases, stored, works) == rest.(touched := rest.touched || touched)
    {
      assert phases[k..][1..] == phases[k + 1..];
      if phases[k] !in conds {
        touched := true;
        if phases[k] !in works {
          return Outcome(conds, touched, false);
        }
        conds := conds + {phases[k]};
      }
      k := k + 1;
    }
    return Outcome(conds, touched, true);
  }

  ghost predicate Distinct(phases: seq<Phase>) {
    forall i, j :: 0 <= i < j < |phases| ==> phases[i] != phases[j]
  }

  function Elements(phases: seq<Phase>): set<Phase> {
    set k | 0 <= k < |phases| :: phases[k]
  }

  /** The true conditions are a prefix of the list. */
  ghost predicate IsPrefix(phases: seq<Phase>, conds: set<Phase>) {
    exists k :: 0 <= k <= |phases| && conds == Elements(phases[..k])
  }

  /** From phase `k` on, with exactly the earlier ones true. */
  lemma {:induction false} FromPrefix(phases: seq<Phase>, k: nat, works: set<Phase>)
    requires k <= |phases| && Distinct(phases)
    ensures var r := RunPhases(phases[k..], Elements(phases[..k]), works);
            && IsPrefix(phases, r.conds) && Elements(phases[..k]) <= r.conds
            && (r.done <==> r.conds == Elements(phases))
            && (r.conds != Elements(phases[..k]) ==> r.touched)
    decreases |phases| - k
  {
    if k == |phases| {
      assert phases[..k] == phases;
    } else {
      assert phases[k..][1..] == phases[k + 1..];
      assert phases[..k + 1] == phases[..k] + [phases[k]];
      assert Elements(phases[..k + 1]) == Elements(phases[..k]) + {phases[k]} by {
        forall p | p in Elements(phases[..k]) + {phases[k]} ensures p in Elements(phases[..k + 1]) {
          var j :| 0 <= j <= k && phases[j] == p;
          assert phases[..k + 1][j] == p;
        }
      }
      assert phases[k] !in Elements(phases[..k]);
      if phases[k] in works {
        FromPrefix(phases, k + 1, works);
      } else {
        assert phases[k] in Elements(phases);
      }
    }
  }

  lemma {:induction false} SkipDone(phases: seq<Phase>, k: nat, j: nat, conds: set<Phase>, works: set<Phase>)
    requires j <= k <= |phases| && Elements(phases[..k]) <= conds
    ensures RunPhases(phases[j..], conds, works) == RunPhases(phases[k..], conds, works)
    decreases k - j
  {
    if j < k {
      assert phases[..k][j] in Elements(phases[..k]);
      assert phases[j..][1..] == phases[j + 1..];
      SkipDone(phases, k, j + 1, conds, works);
    }
  }

  /** One reconcile keeps the prefix, reverts no condition, and is through exactly when all are true. */
  lemma PhaseStep(phases: seq<Phase>, conds: set<Phase>, works: set<Phase>)
    requires Distinct(phases) && IsPrefix(phases, conds)
    ensures var r := RunPhases(phases, conds, works);
            && IsPrefix(phases, r.conds) && conds <= r.conds
            && (r.done <==> r.conds == Elements(phases)) && (r.conds != conds ==> r.touched)
  {
    var k :| 0 <= k <= |phases| && conds == Elements(phases[..k]);
    SkipDone(phases, k, 0, conds, works);
    assert phases[0..] == phases;
    FromPrefix(phases, k, works);
  }

  lemma PhasesDistinct(d: Distribution)
    ensures Distinct(Phases(d)) && IsPrefix(Phases(d), {})
  {
    assert {} == Elements(Phases(d)[..0]);
  }

  /** The same, phase by phase: a phase is through if it was, or if it and all before it were or worked. */
  lemma {:induction false} RunPhasesMeans(phases: seq<Phase>, conds: set<Phase>, works: set<Phase>)
    requires Distinct(phases)
    ensures var r := RunPhases(phases, conds, works);
            && (forall k :: 0 <= k < |phases| ==> (phases[k] in r.conds <==> phases[k] in conds || Through(phases, conds, works, k)))
            && (forall p :: p in r.conds ==> p in conds || p in phases) && conds <= r.conds
            && (r.done <==> forall k :: 0 <= k < |phases| ==> phases[k] in conds || phases[k] in works)
            && (r.touched <==> exists k :: 0 <= k < |phases| && phases[k] !in conds)
    decreases |phases|
  {
    if phases != [] {
      var rest := phases[1..];
      assert phases == [phases[0]] + rest;
      if phases[0] in conds || phases[0] in works {
        var conds' := conds + {phases[0]};
        if phases[0] in conds {
          assert conds' == conds;
        }
        RunPhasesMeans(rest, conds', works);
        forall k | 0 <= k < |rest| ensures Through(rest, conds', works, k) <==> Through(phases, conds, works, k + 1) {
          ThroughTail(phases, conds, works, k);
        }
        forall k | 0 < k < |phases| ensures phases[k] == rest[k - 1] && (phases[k] in conds' <==> phases[k] in conds) {
        }
      } else {
        forall k | 0 <= k < |phases| ensures !Through(phases, conds, works, k) {
          assert !(phases[0] in conds || phases[0] in works);
        }
      }
    }
  }

  /** The first phases, up to the `k`-th, are true or work. */
  ghost predicate Through(phases: seq<Phase>, conds: set<Phase>, works: set<Phase>, k: nat) {
    k < |phases| && forall j :: 0 <= j <= k ==> phases[j] in conds || phases[j] in works
  }

  lemma ThroughTail(phases: seq<Phase>, conds: set<Phase>, works: set<Phase>, k: nat)
    requires Distinct(phases) && k + 1 < |phases| && (phases[0] in conds || phases[0] in works)
    ensures Through(phases[1..], conds + {phases[0]}, works, k) <==> Through(phases, conds, works, k + 1)
  {
    forall j | 0 <= j <= k
      ensures phases[1..][j] in conds + {phases[0]} <==> phases[j + 1] in conds
    {
      assert phases[1..][j] == phases[j + 1] && phases[0] != phases[j + 1];
    }
    if Through(phases[1..], conds + {phases[0]}, works, k) {
      forall j | 0 <= j <= k + 1 ensures phases[j] in conds || phases[j] in works {
        if j > 0 {
          assert phases[1..][j - 1] in conds + {phases[0]} || phases[1..][j - 1] in works;
        }
      }
    }
  }

  /** The outcome of the phases of a distribution. */
  ghost predicate PhaseByPhase(d: Distribution, stored: set<Phase>, works: set<Phase>, r: Outcome) {
    && (forall k :: 0 <= k < |Phases(d)| ==>
          (Phases(d)[k] in r.conds <==> Phases(d)[k] in stored || Through(Phases(d), stored, works, k)))
    && stored <= r.conds <= stored + All(d)
    && (r.done <==> All(d) <= stored + works)
    && (r.touched <==> !(All(d) <= stored))
  }

  lemma RunPhaseByPhase(d: Distribution, stored: set<Phase>, works: set<Phase>)
    ensures PhaseByPhase(d, stored, works, RunPhases(Phases(d), stored, works))
  {
    PhasesDistinct(d);
    AllElements(d);
    RunPhasesMeans(Phases(d), stored, works);
  }

  /** The phases of a distribution. */
  function All(d: Distribution): set<Phase> {
    match d
    case Kubernetes => {Bootstrap, Repository, BinaryService, ContainerManager, Provisioning}
    case K3s => {Bootstrap, Repository, BinaryService, Provisioning}
    case Other => {}
  }

  /** The operating system first, then the repository, the binaries, the container manager of a Kubernetes
      host, and the bootstrap of the node last. */
  predicate InOrder(d: Distribution, conds: set<Phase>) {
    && conds <= All(d)
    && (Repository in conds ==> Bootstrap in conds)
    && (BinaryService in conds ==> Repository in conds)
    && (ContainerManager in conds ==> BinaryService in conds)
    && (Provisioning in conds ==> BinaryService in conds && (d.Kubernetes? ==> ContainerManager in conds))
  }

  lemma AllElements(d: Distribution)
    ensures Elements(Phases(d)) == All(d)
  {
    var ps := Phases(d);
    match d
    case Kubernetes =>
      assert ps[0] == Bootstrap && ps[1] == Repository && ps[2] == BinaryService && ps[3] == ContainerManager && ps[4] == Provisioning;
    case K3s =>
      assert ps[0] == Bootstrap && ps[1] == Repository && ps[2] == BinaryService && ps[3] == Provisioning;
    case Other =>
  }

  /** Being a prefix of the list is being in order. */
  lemma PrefixInOrder(d: Distribution, conds: set<Phase>)
    requires IsPrefix(Phases(d), conds)
    ensures InOrder(d, conds)
  {
    var ps := Phases(d);
    var k :| 0 <= k <= |ps| && conds == Elements(ps[..k]);
    AllElements(d);
    forall i, j | 0 <= i < j < |ps| && ps[j] in conds ensures ps[i] in conds {
      var h :| 0 <= h < k && ps[h] == ps[j];
      PhasesDistinct(d);
      assert ps[..k][i] == ps[i];
    }
    match d
    case Kubernetes =>
      assert ps[0] == Bootstrap && ps[1] == Repository && ps[2] == BinaryService && ps[3] == ContainerManager && ps[4] == Provisioning;
    case K3s =>
      assert ps[0] == Bootstrap && ps[1] == Repository && ps[2] == BinaryService && ps[3] == Provisioning;
    case Other =>
  }
}

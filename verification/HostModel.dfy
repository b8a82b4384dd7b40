/** The life of a host: a KKMachine allocates a node, the KKInstance bootstraps it behind a finalizer,
    and the host is cleaned before the KKInstance goes away.

    One step is one reconcile, an edit of the cluster spec, or a request to create or delete an object.
    The functions are the specification of a reconcile; the class at the end is the code. */
module HostModel {
  import opened Common
  import opened Allocator
  import opened HostPhases

  datatype Instance = Instance(
    internal: Address,
    roles: seq<Role>,
    owner: Name,          // the KKMachine it was created for
    labelled: bool,       // carries the labels of the KKCluster
    finalizer: bool,
    deleting: bool,
    cleaned: bool,        // its deleting-bootstrap condition is true
    conds: set<Phase>,
    running: bool)        // its state is Running

  datatype KKMachine = KKMachine(
    roles: seq<Role>,
    provider: Option<Name>,   // the instance named by spec.providerID
    finalizer: bool,
    deleting: bool,
    failed: bool)

  datatype Cleanup = KubeadmReset | ResetNetwork | RemoveFiles | DaemonReload | UninstallK3s

  const CleanupSteps: seq<Cleanup> := [KubeadmReset, ResetNetwork, RemoveFiles, DaemonReload, UninstallK3s]

  /** residue: the cleanup steps that a host still needs; a host on which a phase ran needs all. */
  datatype State = State(
    nodes: seq<Node>,
    insts: map<Name, Instance>,
    machines: map<Name, KKMachine>,
    names: set<Name>,                       // every KKMachine name used so far
    residue: map<Address, set<Cleanup>>)

  function Residue(s: State, a: Address): set<Cleanup> {
    if a in s.residue then s.residue[a] else {}
  }

  predicate Dirty(s: State, a: Address) {
    Residue(s, a) != {}
  }

  function AsListed(i: Instance): Listed {
    Listed(i.internal, i.labelled, true, true)
  }

  // ---------------------------------------------------------------------------------------------
  // KKMachine reconcile
  // ---------------------------------------------------------------------------------------------

  /** What a KKMachine reconcile meets.
      linked: Machine, Cluster and KKCluster are there and nothing is paused; ready: infrastructure is
      ready and bootstrap data exists; patch: the first patch; listed: the KKInstances the list call
      returns, if it works; close: the deferred patch at the end. */
  datatype MachineEnv = MachineEnv(
    linked: bool, ready: bool, getOk: bool, patch: Fault, lockFree: bool, versioned: bool,
    labelled: bool, listed: Option<seq<Listed>>, create: Fault, delete: Fault, close: Fault)

  function SetMachine(s: State, m: Name, k: KKMachine): State {
    s.(machines := s.machines[m := k])
  }

  predicate InstanceMissing(s: State, k: KKMachine) {
    k.provider.Some? && k.provider.value !in s.insts
  }

  /** The node an allocation would take. */
  function Pick(s: State, k: KKMachine, e: MachineEnv): Option<Node> {
    if e.lockFree && e.versioned && e.listed.Some? then Select(s.nodes, k.roles, e.listed.value) else None
  }

  function NewInstance(n: Node, m: Name, e: MachineEnv): Instance {
    Instance(n.internal, n.roles, m, e.labelled, false, false, false, {}, false)
  }

  /** createInstance and the record of its result at the end of the reconcile. */
  function Allocated(s: State, m: Name, e: MachineEnv): (t: State)
    requires m in s.machines
  {
    var k := s.machines[m];
    if e.lockFree && !e.versioned then
      (if TookEffect(e.close) then SetMachine(s, m, k.(failed := true)) else s)
    else
      var pick := Pick(s, k, e);
      if pick.None? || pick.value.name in s.insts || e.create.Rejected? then s
      else
        var created := s.(insts := s.insts[pick.value.name := NewInstance(pick.value, m, e)]);
        if e.create.Ok? && TookEffect(e.close)
        then SetMachine(created, m, k.(provider := Some(pick.value.name))) else created
  }

  function MachineNormal(s: State, m: Name, e: MachineEnv): (t: State)
    requires m in s.machines
  {
    var k := s.machines[m];
    if k.failed || !e.ready || !e.getOk || InstanceMissing(s, k) then s
    else if !k.finalizer && !e.patch.Ok? then
      (if TookEffect(e.patch) || TookEffect(e.close) then SetMachine(s, m, k.(finalizer := true)) else s)
    else
      var s1 := SetMachine(s, m, k.(finalizer := true));
      if k.provider.Some? then s1 else Allocated(s1, m, e)
  }

  /** A delete call: an object without finalizers goes at once. */
  function InstanceDeleted(s: State, n: Name): State
    requires n in s.insts
  {
    if s.insts[n].finalizer then s.(insts := s.insts[n := s.insts[n].(deleting := true)])
    else s.(insts := s.insts - {n})
  }

  function MachineDelete(s: State, m: Name, e: MachineEnv): (t: State)
    requires m in s.machines
  {
    var k := s.machines[m];
    if !e.patch.Ok? || !e.getOk then s
    else if k.provider.Some? && k.provider.value in s.insts then
      (if s.insts[k.provider.value].cleaned || !TookEffect(e.delete) then s
       else InstanceDeleted(s, k.provider.value))
    else if TookEffect(e.close) then s.(machines := s.machines - {m})
    else s
  }

  function MachineReconciled(s: State, m: Name, e: MachineEnv): (t: State)
    requires m in s.machines
  {
    if !e.linked then s
    else if s.machines[m].deleting then MachineDelete(s, m, e)
    else MachineNormal(s, m, e)
  }

  // ---------------------------------------------------------------------------------------------
  // KKInstance reconcile
  // ---------------------------------------------------------------------------------------------

  /** patch: the first patch; works: the phases whose body succeeds; cleans: the cleanup steps that
      succeed; close, status: the deferred patch of metadata and of status and conditions. */
  datatype InstanceEnv = InstanceEnv(
    linked: bool, paused: bool, patch: Fault, works: set<Phase>, cleans: set<Cleanup>, close: Fault, status: Fault)

  function SetInstance(s: State, n: Name, i: Instance): State {
    s.(insts := s.insts[n := i])
  }

  const AllSteps: set<Cleanup> := set k | 0 <= k < |CleanupSteps| :: CleanupSteps[k]

  lemma AllStepsAre()
    ensures AllSteps == {KubeadmReset, ResetNetwork, RemoveFiles, DaemonReload, UninstallK3s}
  {
    var c := CleanupSteps;
    assert c[0] == KubeadmReset && c[1] == ResetNetwork && c[2] == RemoveFiles && c[3] == DaemonReload && c[4] == UninstallK3s;
  }

  /** The phases of one reconcile: host and conditions afterwards. */
  function Bootstrapped(d: Distribution, s: State, n: Name, e: InstanceEnv): (t: State)
    requires n in s.insts
  {
    var i := s.insts[n];
    var r := RunPhases(Phases(d), i.conds, e.works);
    var s1 := if TookEffect(e.status) then SetInstance(s, n, i.(conds := r.conds, running := i.running || r.done)) else s;
    if r.touched then s1.(residue := s1.residue[i.internal := AllSteps]) else s1
  }

  function InstanceNormal(d: Distribution, s: State, n: Name, e: InstanceEnv): (t: State)
    requires n in s.insts
  {
    var i := s.insts[n];
    if !i.finalizer && !e.patch.Ok? then
      (if TookEffect(e.patch) || TookEffect(e.close) then SetInstance(s, n, i.(finalizer := true)) else s)
    else Bootstrapped(d, SetInstance(s, n, i.(finalizer := true)), n, e)
  }

  lemma SetMachineTwice(s: State, m: Name, j: KKMachine, k: KKMachine)
    ensures SetMachine(SetMachine(s, m, j), m, k) == SetMachine(s, m, k)
    ensures forall insts :: SetMachine(SetMachine(s, m, j).(insts := insts), m, k) == SetMachine(s.(insts := insts), m, k)
  {
  }

  lemma SetTwice(s: State, n: Name, i: Instance, j: Instance)
    ensures SetInstance(SetInstance(s, n, i), n, j) == SetInstance(s, n, j)
  {
  }

  /** Runs the steps up to the first that fails; returns what the host still needs, and whether all ran. */
  function RunCleanup(steps: seq<Cleanup>, works: set<Cleanup>, left: set<Cleanup>): (r: (set<Cleanup>, bool))
    decreases |steps|
  {
    if steps == [] then (left, true)
    else if steps[0] in works then RunCleanup(steps[1..], works, left - {steps[0]})
    else (left, false)
  }

  /** What a host still needs: each step counts only if it and all steps before it work. */
  predicate CleanedInOrder(works: set<Cleanup>, left: set<Cleanup>, rest: set<Cleanup>) {
    && (KubeadmReset in rest <==> KubeadmReset in left && !({KubeadmReset} <= works))
    && (ResetNetwork in rest <==> ResetNetwork in left && !({KubeadmReset, ResetNetwork} <= works))
    && (RemoveFiles in rest <==> RemoveFiles in left && !({KubeadmReset, ResetNetwork, RemoveFiles} <= works))
    && (DaemonReload in rest <==> DaemonReload in left && !({KubeadmReset, ResetNetwork, RemoveFiles, DaemonReload} <= works))
    && (UninstallK3s in rest <==> UninstallK3s in left && !CleansAll(works))
  }

  predicate CleansAll(works: set<Cleanup>) {
    {KubeadmReset, ResetNetwork, RemoveFiles, DaemonReload, UninstallK3s} <= works
  }

  lemma CleanupMeans(works: set<Cleanup>, left: set<Cleanup>)
    ensures var r := RunCleanup(CleanupSteps, works, left); r.1 == CleansAll(works) && CleanedInOrder(works, left, r.0)
  {
    var c := CleanupSteps;
    assert c[1..] == [ResetNetwork, RemoveFiles, DaemonReload, UninstallK3s];
    assert c[1..][1..] == [RemoveFiles, DaemonReload, UninstallK3s];
    assert c[1..][1..][1..] == [DaemonReload, UninstallK3s];
    assert c[1..][1..][1..][1..] == [UninstallK3s];
    assert c[1..][1..][1..][1..][1..] == [];
  }

  function InstanceDelete(s: State, n: Name, e: InstanceEnv): (t: State)
    requires n in s.insts
  {
    var i := s.insts[n];
    if e.paused || !e.patch.Ok? then s
    else
      var (left, all) := RunCleanup(CleanupSteps, e.cleans, Residue(s, i.internal));
      var s1 := s.(residue := s.residue[i.internal := left]);
      if all && TookEffect(e.close) then s1.(insts := s1.insts - {n})
      else if TookEffect(e.status) then SetInstance(s1, n, i.(cleaned := all, running := false))
      else s1
  }

  /** An instance is only reconciled while its KKMachine is found. */
  function InstanceReconciled(d: Distribution, s: State, n: Name, e: InstanceEnv): (t: State)
    requires n in s.insts
  {
    if !e.linked || s.insts[n].owner !in s.machines then s
    else if s.insts[n].deleting then InstanceDelete(s, n, e)
    else InstanceNormal(d, s, n, e)
  }

  // ---------------------------------------------------------------------------------------------
  // Runs
  // ---------------------------------------------------------------------------------------------

  datatype Step =
    | Edit(nodes: seq<Node>)
    | NewMachine(m: Name, roles: seq<Role>)
    | DeleteMachine(m: Name)
    | DeleteInstance(n: Name)
    | ReconcileMachine(m: Name, me: MachineEnv)
    | ReconcileInstance(n: Name, ie: InstanceEnv)

  /** The webhook accepts only valid specs; KKMachine names are not used twice. */
  ghost predicate Enabled(s: State, a: Step) {
    match a
    case Edit(nodes) => DistinctNodes(nodes)
    case NewMachine(m, _) => m !in s.names
    case DeleteMachine(m) => m in s.machines
    case DeleteInstance(n) => n in s.insts
    case ReconcileMachine(m, _) => m in s.machines
    case ReconcileInstance(n, _) => n in s.insts
  }

  ghost function Next(d: Distribution, s: State, a: Step): (t: State)
    requires Enabled(s, a)
  {
    match a
    case Edit(nodes) => s.(nodes := nodes)
    case NewMachine(m, roles) =>
      s.(machines := s.machines[m := KKMachine(roles, None, false, false, false)], names := s.names + {m})
    case DeleteMachine(m) =>
      if s.machines[m].finalizer then SetMachine(s, m, s.machines[m].(deleting := true))
      else s.(machines := s.machines - {m})
    case DeleteInstance(n) => InstanceDeleted(s, n)
    case ReconcileMachine(m, e) => MachineReconciled(s, m, e)
    case ReconcileInstance(n, e) => InstanceReconciled(d, s, n, e)
  }

  ghost predicate IsRun(d: Distribution, s: State, run: seq<Step>)
    decreases |run|
  {
    run == [] || (Enabled(s, run[0]) && IsRun(d, Next(d, s, run[0]), run[1..]))
  }

  ghost function Exec(d: Distribution, s: State, run: seq<Step>): (t: State)
    requires IsRun(d, s, run)
    decreases |run|
  {
    if run == [] then s else Exec(d, Next(d, s, run[0]), run[1..])
  }

  /** No object exists yet and every host is clean. */
  ghost predicate Init(s: State) {
    DistinctNodes(s.nodes) && s.insts == map[] && s.machines == map[] && s.names == {} && s.residue == map[]
  }

  // ---------------------------------------------------------------------------------------------
  // The controllers
  // ---------------------------------------------------------------------------------------------

  class Controllers {
    const d: Distribution
    var s: State

    constructor (d: Distribution, s: State)
      ensures this.d == d && this.s == s
    {
      this.d := d;
      this.s := s;
    }

    /** findInstance: no provider is no instance; a provider without its object is an error. */
    method FindInstance(m: Name, getOk: bool) returns (found: Option<Name>, missing: bool, ok: bool)
      requires m in s.machines
      ensures missing <==> getOk && s.machines[m].provider.Some? && s.machines[m].provider.value !in s.insts
      ensures ok <==> getOk && !missing
      ensures ok ==> found == s.machines[m].provider
      ensures !ok ==> found == None
    {
      if !getOk {
        return None, false, false;
      }
      if s.machines[m].provider.None? {
        return None, false, true;
      }
      if s.machines[m].provider.value !in s.insts {
        return None, true, false;
      }
      return s.machines[m].provider, false, true;
    }

    /** The node that an allocation takes, if the list works. */
    function NodeFor(s: State, m: Name, e: MachineEnv): Option<Node>
      requires m in s.machines
    {
      if e.listed.None? then None else Select(s.nodes, s.machines[m].roles, e.listed.value)
    }

    /** A new object: on the node's host, with its roles, for the KKMachine; nothing has happened to it yet. */
    function InstanceOf(node: Node, m: Name, labelled: bool): Instance {
      Instance(node.internal, node.roles, m, labelled, false, false, false, {}, false)
    }

    method CreateInstance(m: Name, e: MachineEnv) returns (created: Option<Name>, failed: bool)
      requires m in s.machines && e.lockFree
      modifies this`s
      ensures failed == !e.versioned
      ensures var node := NodeFor(old(s), m, e);
              if e.versioned && node.Some? && node.value.name !in old(s).insts && TookEffect(e.create)
              then && s == old(s).(insts := old(s).insts[node.value.name := InstanceOf(node.value, m, e.labelled)])
                   && created == if e.create.Ok? then Some(node.value.name) else None
              else s == old(s) && created == None
    {
      if !e.versioned {
        return None, true;
      }
      failed := false;
      if e.listed.None? {
        return None, false;
      }
      var spec := GetUnassignedInstanceSpec(s.nodes, s.machines[m].roles, e.listed.value);
      if spec.None? || spec.value.name in s.insts {
        return None, false;
      }
      if TookEffect(e.create) {
        s := s.(insts := s.insts[spec.value.name := NewInstance(spec.value, m, e)]);
      }
      created := if e.create.Ok? then Some(spec.value.name) else None;
    }

    /** A KKMachine that has failed, waits or lost its instance is left alone.  The finalizer comes first; then a
        KKMachine without an instance gets one, which it records if create and final patch succeed. */
    method ReconcileMachineNormal(m: Name, e: MachineEnv)
      requires m in s.machines
      modifies this`s
      ensures s == MachineNormal(old(s), m, e)
      ensures var k, node := old(s).machines[m], NodeFor(old(s), m, e);
              var held := k.(finalizer := true);
              if k.failed || !e.ready || !e.getOk || (k.provider.Some? && k.provider.value !in old(s).insts) then s == old(s)
              else if !k.finalizer && !e.patch.Ok? then
                s == SetMachine(old(s), m, k.(finalizer := TookEffect(e.patch) || TookEffect(e.close)))
              else if k.provider.Some? || !e.lockFree then s == SetMachine(old(s), m, held)
              else if !e.versioned then s == SetMachine(old(s), m, held.(failed := TookEffect(e.close)))
              else if node.None? || node.value.name in old(s).insts || !TookEffect(e.create) then s == SetMachine(old(s), m, held)
              else s == SetMachine(old(s).(insts := old(s).insts[node.value.name := InstanceOf(node.value, m, e.labelled)]), m,
                                   held.(provider := if e.create.Ok? && TookEffect(e.close) then Some(node.value.name) else None))
    {
      if s.machines[m].failed || !e.ready {
        return;
      }
      var instance, _, ok := FindInstance(m, e.getOk);
      if !ok {
        return;
      }
      ghost var k := s.machines[m];
      var held := AddMachineFinalizer(m, e);
      if held && instance.None? {
        Allocate(m, e);
        SetMachineTwice(old(s), m, k.(finalizer := true), s.machines[m]);
      }
    }

    /** Creates an instance for a KKMachine that has none, and records it. */
    method Allocate(m: Name, e: MachineEnv)
      requires m in s.machines && s.machines[m].provider.None? && !s.machines[m].failed
      modifies this`s
      ensures s == Allocated(old(s), m, e)
      ensures var k, node := old(s).machines[m], NodeFor(old(s), m, e);
              if !e.lockFree then s == old(s)
              else if !e.versioned then s == SetMachine(old(s), m, k.(failed := TookEffect(e.close)))
              else if node.None? || node.value.name in old(s).insts || !TookEffect(e.create) then s == old(s)
              else s == SetMachine(old(s).(insts := old(s).insts[node.value.name := InstanceOf(node.value, m, e.labelled)]), m,
                                   k.(provider := if e.create.Ok? && TookEffect(e.close) then Some(node.value.name) else None))
    {
      assert SetMachine(s, m, s.machines[m]) == s;
      if !e.lockFree {
        return;
      }
      var instance, failed := CreateInstance(m, e);
      assert SetMachine(s, m, s.machines[m]) == s;
      if instance.Some? && TookEffect(e.close) {
        s := SetMachine(s, m, s.machines[m].(provider := instance));
      } else if failed && TookEffect(e.close) {
        s := SetMachine(s, m, s.machines[m].(failed := true));
      }
    }

    /** As for instances. */
    method AddMachineFinalizer(m: Name, e: MachineEnv) returns (ok: bool)
      requires m in s.machines
      modifies this`s
      ensures ok == (old(s).machines[m].finalizer || e.patch.Ok?)
      ensures s == SetMachine(old(s), m, old(s).machines[m].(finalizer := ok || TookEffect(e.patch) || TookEffect(e.close)))
    {
      if s.machines[m].finalizer {
        assert SetMachine(s, m, s.machines[m]) == s;
        return true;
      }
      if TookEffect(e.patch) || (!e.patch.Ok? && TookEffect(e.close)) {
        s := SetMachine(s, m, s.machines[m].(finalizer := true));
      } else {
        assert SetMachine(s, m, s.machines[m]) == s;
      }
      return e.patch.Ok?;
    }

    /** Deletes the recorded instance while it exists and is not clean; the KKMachine goes when there is none. */
    method ReconcileMachineDelete(m: Name, e: MachineEnv)
      requires m in s.machines
      modifies this`s
      ensures s == MachineDelete(old(s), m, e)
      ensures var p := old(s).machines[m].provider;
              if !e.patch.Ok? || !e.getOk then s == old(s)
              else if p.Some? && p.value in old(s).insts then
                var i := old(s).insts[p.value];
                s == if i.cleaned || !TookEffect(e.delete) then old(s)
                     else if i.finalizer then SetInstance(old(s), p.value, i.(deleting := true))
                     else old(s).(insts := old(s).insts - {p.value})
              else s == if TookEffect(e.close) then old(s).(machines := old(s).machines - {m}) else old(s)
    {
      if !e.patch.Ok? {
        return;
      }
      var instance, missing, ok := FindInstance(m, e.getOk);
      if !ok && !missing {
        return;
      }
      if instance.Some? {
        if s.insts[instance.value].cleaned {
          return;
        }
        if TookEffect(e.delete) {
          s := InstanceDeleted(s, instance.value);
        }
        return;
      }
      if TookEffect(e.close) {
        s := s.(machines := s.machines - {m});
      }
    }

    /** Runs the cleanup steps one by one and stops at the first failure. */
    method ReconcileDeletingBootstrap(host: Address, works: set<Cleanup>) returns (ok: bool)
      modifies this`s
      ensures var r := RunCleanup(CleanupSteps, works, Residue(old(s), host));
              ok == r.1 && s == old(s).(residue := old(s).residue[host := r.0])
      ensures ok == CleansAll(works) && CleanedInOrder(works, Residue(old(s), host), Residue(s, host))
    {
      CleanupMeans(works, Residue(s, host));
      var left, k := Residue(s, host), 0;
      ok := true;
      while k < |CleanupSteps| && ok
        decreases |CleanupSteps| - k, ok
        invariant 0 <= k <= |CleanupSteps| && s == old(s)
        invariant RunCleanup(CleanupSteps, works, Residue(old(s), host))
                  == if ok then RunCleanup(CleanupSteps[k..], works, left) else (left, false)
      {
        assert CleanupSteps[k..][1..] == CleanupSteps[k + 1..];
        if CleanupSteps[k] in works {
          left := left - {CleanupSteps[k]};
          k := k + 1;
        } else {
          ok := false;
        }
      }
      s := s.(residue := s.residue[host := left]);
    }

    /** Cleans the host; the object goes only after a full cleanup and a stored patch. */
    method ReconcileInstanceDelete(n: Name, e: InstanceEnv)
      requires n in s.insts
      modifies this`s
      ensures s == InstanceDelete(old(s), n, e)
      ensures var i := old(s).insts[n];
              if e.paused || !e.patch.Ok? then s == old(s)
              else && CleanedInOrder(e.cleans, Residue(old(s), i.internal), Residue(s, i.internal))
                   && s.residue == old(s).residue[i.internal := Residue(s, i.internal)]
                   && s == old(s).(residue := s.residue, insts := s.insts)
                   && s.insts == if CleansAll(e.cleans) && TookEffect(e.close) then old(s).insts - {n}
                                 else if TookEffect(e.status)
                                 then old(s).insts[n := i.(cleaned := CleansAll(e.cleans), running := false)]
                                 else old(s).insts
    {
      if e.paused || !e.patch.Ok? {
        return;
      }
      var ok := ReconcileDeletingBootstrap(s.insts[n].internal, e.cleans);
      if ok && TookEffect(e.close) {
        s := s.(insts := s.insts - {n});
      } else if TookEffect(e.status) {
        s := SetInstance(s, n, s.insts[n].(cleaned := ok, running := false));
      }
    }

    /** What the phases make of instance `i`: those that come true are stored with the status, and so is that it
        is running when all are through. */
    ghost predicate PhasesDone(i: Instance, j: Instance, e: InstanceEnv) {
      && j == i.(finalizer := true, conds := j.conds, running := j.running)
      && if !TookEffect(e.status) then j.conds == i.conds && j.running == i.running
         else && i.conds <= j.conds <= i.conds + All(d) && j.running == (i.running || All(d) <= i.conds + e.works)
              && forall k :: 0 <= k < |Phases(d)| ==>
                   (Phases(d)[k] in j.conds <==> Phases(d)[k] in i.conds || Through(Phases(d), i.conds, e.works, k))
    }

    lemma PhasesDoneHeld(i: Instance, j: Instance, e: InstanceEnv)
      requires PhasesDone(i.(finalizer := true), j, e)
      ensures PhasesDone(i, j, e)
    {
    }

    /** The finalizer is stored before any phase touches the host.  A phase that comes true is stored with the
        status; a host on which a phase ran needs all cleanup steps, one with all phases true is not touched. */
    method ReconcileInstanceNormal(n: Name, e: InstanceEnv)
      requires n in s.insts
      modifies this`s
      ensures s == InstanceNormal(d, old(s), n, e)
      ensures var i := old(s).insts[n];
              n in s.insts &&
              if !i.finalizer && !e.patch.Ok? then
                s == SetInstance(old(s), n, i.(finalizer := TookEffect(e.patch) || TookEffect(e.close)))
              else && s == SetInstance(old(s), n, s.insts[n]).(residue := s.residue) && PhasesDone(i, s.insts[n], e)
                   && s.residue == if All(d) <= i.conds then old(s).residue
                                   else old(s).residue[i.internal := {KubeadmReset, ResetNetwork, RemoveFiles, DaemonReload, UninstallK3s}]
    {
      ghost var i := s.insts[n];
      var ok := AddFinalizer(n, e);
      if ok {
        AllStepsAre();
        BootstrapHost(n, e);
        SetTwice(old(s), n, i.(finalizer := true), s.insts[n]);
        PhasesDoneHeld(i, s.insts[n], e);
      }
    }

    /** The deferred patch still carries a finalizer whose own patch failed. */
    method AddFinalizer(n: Name, e: InstanceEnv) returns (ok: bool)
      requires n in s.insts
      modifies this`s
      ensures ok == (old(s).insts[n].finalizer || e.patch.Ok?)
      ensures s == SetInstance(old(s), n, old(s).insts[n].(finalizer := ok || TookEffect(e.patch) || TookEffect(e.close)))
    {
      if s.insts[n].finalizer {
        assert SetInstance(s, n, s.insts[n]) == s;
        return true;
      }
      if TookEffect(e.patch) || (!e.patch.Ok? && TookEffect(e.close)) {
        s := SetInstance(s, n, s.insts[n].(finalizer := true));
      } else {
        assert SetInstance(s, n, s.insts[n]) == s;
      }
      return e.patch.Ok?;
    }

    method ReconcileMachine(m: Name, e: MachineEnv)
      requires m in s.machines
      modifies this`s
      ensures s == MachineReconciled(old(s), m, e) && (!e.linked ==> s == old(s))
    {
      if !e.linked {
        return;
      }
      if s.machines[m].deleting {
        ReconcileMachineDelete(m, e);
      } else {
        ReconcileMachineNormal(m, e);
      }
    }

    method ReconcileInstance(n: Name, e: InstanceEnv)
      requires n in s.insts
      modifies this`s
      ensures s == InstanceReconciled(d, old(s), n, e) && (!e.linked || old(s).insts[n].owner !in old(s).machines ==> s == old(s))
    {
      if !e.linked || s.insts[n].owner !in s.machines {
        return;
      }
      if s.insts[n].deleting {
        ReconcileInstanceDelete(n, e);
      } else {
        ReconcileInstanceNormal(n, e);
      }
    }

    method BootstrapHost(n: Name, e: InstanceEnv)
      requires n in s.insts && s.insts[n].finalizer
      modifies this`s
      ensures s == Bootstrapped(d, old(s), n, e)
      ensures var i := old(s).insts[n];
              && n in s.insts && s == SetInstance(old(s), n, s.insts[n]).(residue := s.residue) && PhasesDone(i, s.insts[n], e)
              && s.residue == if All(d) <= i.conds then old(s).residue else old(s).residue[i.internal := AllSteps]
    {
      var r := ReconcilePhases(d, s.insts[n].conds, e.works);
      if TookEffect(e.status) {
        s := SetInstance(s, n, s.insts[n].(conds := r.conds, running := s.insts[n].running || r.done));
      }
      if r.touched {
        s := s.(residue := s.residue[s.insts[n].internal := AllSteps]);
      }
    }
  }
}

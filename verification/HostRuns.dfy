/** What holds in every run of the host lifecycle. */
module HostRuns {
  import opened Common
  import opened Allocator
  import opened HostPhases
  import opened HostModel

  // ---------------------------------------------------------------------------------------------
  // Creation of an instance
  // ---------------------------------------------------------------------------------------------

  /** The reconcile of a KKMachine gets as far as createInstance. */
  ghost predicate Allocating(s: State, m: Name, e: MachineEnv) {
    && m in s.machines && e.linked && e.ready && e.getOk
    && (var k := s.machines[m]; !k.deleting && !k.failed && k.provider.None? && (k.finalizer || e.patch.Ok?))
  }

  /** The node for which a step creates an instance. */
  ghost function Creates(s: State, a: Step): (r: Option<Node>) {
    if a.ReconcileMachine? && Allocating(s, a.m, a.me) && TookEffect(a.me.create)
    then
      var pick := Pick(s, s.machines[a.m], a.me);
      if pick.Some? && pick.value.name !in s.insts then pick else None
    else None
  }

  /** The new object was not written down in its KKMachine. */
  ghost predicate Loses(s: State, a: Step) {
    Creates(s, a).Some? && !(a.me.create.Ok? && TookEffect(a.me.close))
  }

  lemma CreateEffect(d: Distribution, s: State, a: Step)
    requires Enabled(s, a) && Creates(s, a).Some?
    ensures var node, t := Creates(s, a).value, Next(d, s, a);
            && t.insts == s.insts[node.name := NewInstance(node, a.m, a.me)]
            && t.machines == s.machines[a.m := t.machines[a.m]]
            && t.machines[a.m] == s.machines[a.m].(finalizer := true, provider := if Loses(s, a) then None else Some(node.name))
            && t.nodes == s.nodes && t.names == s.names && t.residue == s.residue
            && node in s.nodes && HasRole(node, s.machines[a.m].roles) && node.internal !in Used(a.me.listed.value)
  {
    SelectIff(s.nodes, s.machines[a.m].roles, a.me.listed.value);
  }

  /** Every other step of a KKMachine changes itself and at most deletes its recorded instance. */
  lemma MachineEffect(d: Distribution, s: State, a: Step)
    requires Enabled(s, a) && a.ReconcileMachine? && Creates(s, a).None?
    ensures var t, k := Next(d, s, a), s.machines[a.m];
            && t.nodes == s.nodes && t.names == s.names && t.residue == s.residue
            && (t.insts == s.insts || (k.deleting && k.provider.Some? && k.provider.value in s.insts
                                       && t == InstanceDeleted(s, k.provider.value)))
            && (a.m in t.machines ==>
                  && t.machines == s.machines[a.m := t.machines[a.m]] && t.machines[a.m].provider == k.provider
                  && t.machines[a.m].roles == k.roles && t.machines[a.m].deleting == k.deleting
                  && (k.finalizer ==> t.machines[a.m].finalizer))
            && (a.m !in t.machines ==> t.machines == s.machines - {a.m} && t.insts == s.insts && k.deleting
                                       && (k.provider.Some? ==> k.provider.value !in s.insts))
  {
  }

  // ---------------------------------------------------------------------------------------------
  // Cleaning
  // ---------------------------------------------------------------------------------------------

  lemma {:induction false} CleanupLeaves(steps: seq<Cleanup>, works: set<Cleanup>, left: set<Cleanup>)
    ensures var r := RunCleanup(steps, works, left);
            r.0 <= left && (r.1 ==> forall c :: c in r.0 ==> c !in steps)
    decreases |steps|
  {
    if steps != [] && steps[0] in works {
      CleanupLeaves(steps[1..], works, left - {steps[0]});
      assert steps == [steps[0]] + steps[1..];
    }
  }

  /** A cleanup that reports success leaves nothing behind. */
  lemma CleanupCleans(works: set<Cleanup>, left: set<Cleanup>)
    ensures var r := RunCleanup(CleanupSteps, works, left);
            r.0 <= left && (r.1 ==> r.0 == {})
  {
    CleanupLeaves(CleanupSteps, works, left);
    forall c: Cleanup ensures c in CleanupSteps {
      match c
      case KubeadmReset => assert CleanupSteps[0] == c;
      case ResetNetwork => assert CleanupSteps[1] == c;
      case RemoveFiles => assert CleanupSteps[2] == c;
      case DaemonReload => assert CleanupSteps[3] == c;
      case UninstallK3s => assert CleanupSteps[4] == c;
    }
  }

  /** The effect of an instance reconcile: it writes its own object and its own host; the object goes
      only with a clean host; a host is only touched behind a finalizer. */
  ghost predicate InstanceChange(s: State, t: State, n: Name) {
    n in s.insts &&
    var i := s.insts[n];
    && t.nodes == s.nodes && t.names == s.names && t.machines == s.machines
    && (forall a :: a != i.internal ==> Residue(t, a) == Residue(s, a))
    && (n in t.insts ==>
          && t.insts == s.insts[n := t.insts[n]]
          && t.insts[n].internal == i.internal && t.insts[n].roles == i.roles && t.insts[n].owner == i.owner
          && t.insts[n].labelled == i.labelled && t.insts[n].deleting == i.deleting
          && (i.finalizer ==> t.insts[n].finalizer)
          && (Dirty(t, i.internal) ==> t.insts[n].finalizer || Dirty(s, i.internal)))
    && (n !in t.insts ==> t.insts == s.insts - {n} && i.deleting && !Dirty(t, i.internal) && i.owner in s.machines)
  }

  lemma BootstrapEffect(d: Distribution, s: State, n: Name, e: InstanceEnv)
    requires n in s.insts && s.insts[n].finalizer
    ensures InstanceChange(s, Bootstrapped(d, s, n, e), n)
  {
    var r := RunPhases(Phases(d), s.insts[n].conds, e.works);
  }

  lemma CleanEffect(s: State, n: Name, e: InstanceEnv)
    requires n in s.insts && s.insts[n].deleting && s.insts[n].owner in s.machines
    ensures InstanceChange(s, InstanceDelete(s, n, e), n)
  {
    CleanupCleans(e.cleans, Residue(s, s.insts[n].internal));
  }

  lemma InstanceEffect(d: Distribution, s: State, n: Name, e: InstanceEnv)
    requires n in s.insts
    ensures InstanceChange(s, InstanceReconciled(d, s, n, e), n)
  {
    if e.linked && s.insts[n].owner in s.machines {
      if s.insts[n].deleting {
        CleanEffect(s, n, e);
      } else {
        BootstrapEffect(d, SetInstance(s, n, s.insts[n].(finalizer := true)), n, e);
      }
    }
  }

  // ---------------------------------------------------------------------------------------------
  // The invariant
  // ---------------------------------------------------------------------------------------------

  ghost predicate Held(s: State, a: Address) {
    exists n :: n in s.insts && s.insts[n].internal == a && s.insts[n].finalizer
  }

  /** Every host that needs cleaning is held by an instance that cannot go away without cleaning it. */
  ghost predicate DirtyHeld(s: State) {
    forall a :: Dirty(s, a) ==> Held(s, a)
  }

  ghost predicate ObjectsOk(s: State) {
    && s.machines.Keys <= s.names
    && (forall n :: n in s.insts ==> s.insts[n].owner in s.names && (s.insts[n].deleting ==> s.insts[n].finalizer))
    && (forall m :: m in s.machines && (s.machines[m].deleting || s.machines[m].provider.Some?) ==> s.machines[m].finalizer)
  }

  ghost predicate SharesRole(s: State, i: Instance) {
    i.owner in s.machines ==> exists r :: r in i.roles && r in s.machines[i.owner].roles
  }

  ghost predicate RolesMatch(s: State) {
    forall n :: n in s.insts ==> SharesRole(s, s.insts[n])
  }

  ghost predicate HostOk(s: State) {
    DirtyHeld(s) && ObjectsOk(s) && RolesMatch(s)
  }

  lemma ObjectsStep(d: Distribution, s: State, a: Step)
    requires Enabled(s, a) && ObjectsOk(s)
    ensures ObjectsOk(Next(d, s, a))
  {
    if Creates(s, a).Some? {
      CreateEffect(d, s, a);
    } else if a.ReconcileMachine? {
      MachineEffect(d, s, a);
    } else if a.ReconcileInstance? {
      InstanceEffect(d, s, a.n, a.ie);
    }
  }

  lemma HeldStays(s: State, t: State)
    requires forall n :: n in s.insts && s.insts[n].finalizer ==>
               n in t.insts && t.insts[n].finalizer && t.insts[n].internal == s.insts[n].internal
    ensures forall a :: Held(s, a) ==> Held(t, a)
  {
  }

  lemma DirtyStep(d: Distribution, s: State, a: Step)
    requires Enabled(s, a) && DirtyHeld(s) && ObjectsOk(s)
    ensures DirtyHeld(Next(d, s, a))
  {
    var t := Next(d, s, a);
    if a.ReconcileInstance? {
      InstanceEffect(d, s, a.n, a.ie);
      forall h | Dirty(t, h) ensures Held(t, h) {
        if h == s.insts[a.n].internal && (a.n !in t.insts || t.insts[a.n].finalizer) {
          assert a.n in t.insts;
        } else {
          assert Dirty(s, h);
          var n :| n in s.insts && s.insts[n].internal == h && s.insts[n].finalizer;
          assert n in t.insts && t.insts[n].internal == h && t.insts[n].finalizer;
        }
      }
    } else {
      if Creates(s, a).Some? {
        CreateEffect(d, s, a);
      } else if a.ReconcileMachine? {
        MachineEffect(d, s, a);
      }
      HeldStays(s, t);
      assert forall h :: Dirty(t, h) ==> Dirty(s, h);
    }
  }

  lemma RolesStep(d: Distribution, s: State, a: Step)
    requires Enabled(s, a) && RolesMatch(s) && ObjectsOk(s)
    ensures RolesMatch(Next(d, s, a))
  {
    var t := Next(d, s, a);
    if Creates(s, a).Some? {
      CreateEffect(d, s, a);
    } else if a.ReconcileMachine? {
      MachineEffect(d, s, a);
    } else if a.ReconcileInstance? {
      InstanceEffect(d, s, a.n, a.ie);
    }
    forall n | n in t.insts ensures SharesRole(t, t.insts[n]) {
      assert n in s.insts ==> SharesRole(s, s.insts[n]);
    }
  }

  /** In every run, whatever fails: a host that is not clean is held by an instance with a finalizer,
      and every instance shares a role with its KKMachine. */
  lemma {:induction false} HostRun(d: Distribution, s: State, run: seq<Step>)
    requires IsRun(d, s, run) && HostOk(s)
    ensures HostOk(Exec(d, s, run))
    decreases |run|
  {
    if run != [] {
      ObjectsStep(d, s, run[0]);
      DirtyStep(d, s, run[0]);
      RolesStep(d, s, run[0]);
      HostRun(d, Next(d, s, run[0]), run[1..]);
    }
  }

  lemma InitOk(s: State)
    requires Init(s)
    ensures HostOk(s) && DistinctHosts(s) && AllInSpec(s)
  {
  }

  // ---------------------------------------------------------------------------------------------
  // One instance per host
  // ---------------------------------------------------------------------------------------------

  ghost predicate DistinctHosts(s: State) {
    forall n, k :: n in s.insts && k in s.insts && n != k ==> s.insts[n].internal != s.insts[k].internal
  }

  ghost predicate InSpec(nodes: seq<Node>, n: Name, a: Address) {
    exists node :: node in nodes && node.name == n && node.internal == a
  }

  ghost predicate AllInSpec(s: State) {
    DistinctNodes(s.nodes) && forall n :: n in s.insts ==> InSpec(s.nodes, n, s.insts[n].internal)
  }

  /** The list an allocation works on shows every stored instance. */
  ghost predicate SeesAll(s: State, a: Step) {
    a.ReconcileMachine? && Allocating(s, a.m, a.me) && a.me.listed.Some? ==>
      forall n :: n in s.insts ==> s.insts[n].internal in Used(a.me.listed.value)
  }

  /** An allocation takes a host that no instance is on. */
  ghost predicate TakesFree(s: State, a: Step) {
    Creates(s, a).Some? ==> forall n :: n in s.insts ==> s.insts[n].internal != Creates(s, a).value.internal
  }

  /** What makes sure of that: a list that shows every stored instance, however the spec was edited; or a
      spec that still has every node in use, however stale the list (names then protect the hosts). */
  ghost predicate SafeStep(s: State, a: Step) {
    SeesAll(s, a) || AllInSpec(s)
  }

  /** An edit of the spec leaves the nodes in use as they are. */
  ghost predicate KeepsUsed(s: State, a: Step) {
    a.Edit? ==> forall n :: n in s.insts ==> InSpec(a.nodes, n, s.insts[n].internal)
  }

  ghost predicate Along(d: Distribution, s: State, run: seq<Step>, p: (State, Step) -> bool)
    requires IsRun(d, s, run)
    decreases |run|
  {
    run == [] || (p(s, run[0]) && Along(d, Next(d, s, run[0]), run[1..], p))
  }

  ghost predicate Always(d: Distribution, s: State, run: seq<Step>, p: State -> bool)
    requires IsRun(d, s, run)
    decreases |run|
  {
    p(s) && (run == [] || Always(d, Next(d, s, run[0]), run[1..], p))
  }

  lemma {:induction false} AlwaysEnds(d: Distribution, s: State, run: seq<Step>, p: State -> bool)
    requires IsRun(d, s, run) && Always(d, s, run, p)
    ensures p(Exec(d, s, run))
    decreases |run|
  {
    if run != [] {
      AlwaysEnds(d, Next(d, s, run[0]), run[1..], p);
    }
  }

  lemma InSpecUnique(nodes: seq<Node>, n: Name, k: Name, a: Address)
    requires DistinctNodes(nodes) && InSpec(nodes, n, a) && InSpec(nodes, k, a)
    ensures n == k
  {
  }

  /** Instances that are not created in this step keep name and address. */
  lemma OthersStay(d: Distribution, s: State, a: Step, n: Name)
    requires Enabled(s, a) && n in Next(d, s, a).insts
    requires Creates(s, a).None? || n != Creates(s, a).value.name
    ensures n in s.insts && Next(d, s, a).insts[n].internal == s.insts[n].internal
    ensures Next(d, s, a).insts[n].owner == s.insts[n].owner
  {
    if Creates(s, a).Some? {
      CreateEffect(d, s, a);
    } else if a.ReconcileMachine? {
      MachineEffect(d, s, a);
    } else if a.ReconcileInstance? {
      InstanceEffect(d, s, a.n, a.ie);
    }
  }

  lemma SafeTakesFree(d: Distribution, s: State, a: Step)
    requires Enabled(s, a) && SafeStep(s, a)
    ensures TakesFree(s, a)
  {
    if Creates(s, a).Some? {
      CreateEffect(d, s, a);
      var node := Creates(s, a).value;
      forall n | n in s.insts ensures s.insts[n].internal != node.internal {
        if s.insts[n].internal == node.internal {
          assert InSpec(s.nodes, node.name, node.internal);
          InSpecUnique(s.nodes, n, node.name, node.internal);
        }
      }
    }
  }

  lemma DistinctStep(d: Distribution, s: State, a: Step)
    requires Enabled(s, a) && DistinctHosts(s)
    ensures DistinctHosts(Next(d, s, a)) <==> TakesFree(s, a)
  {
    var t := Next(d, s, a);
    if Creates(s, a).Some? {
      CreateEffect(d, s, a);
      var node := Creates(s, a).value;
      assert t.insts[node.name].internal == node.internal;
      if n :| n in s.insts && s.insts[n].internal == node.internal {
        assert t.insts[n].internal == t.insts[node.name].internal;
      }
    } else {
      forall n, k | n in t.insts && k in t.insts && n != k ensures t.insts[n].internal != t.insts[k].internal {
        OthersStay(d, s, a, n);
        OthersStay(d, s, a, k);
      }
    }
  }

  /** No two instances are ever on one host, at any time of a run, if and only if every allocation of the
      run takes a host that no stored instance is on. */
  lemma {:induction false} DistinctIff(d: Distribution, s: State, run: seq<Step>)
    requires IsRun(d, s, run) && DistinctHosts(s)
    ensures Always(d, s, run, DistinctHosts) <==> Along(d, s, run, TakesFree)
    decreases |run|
  {
    if run != [] {
      DistinctStep(d, s, run[0]);
      var t := Next(d, s, run[0]);
      if DistinctHosts(t) {
        DistinctIff(d, t, run[1..]);
      }
    }
  }

  lemma InSpecStep(d: Distribution, s: State, a: Step)
    requires Enabled(s, a) && AllInSpec(s) && KeepsUsed(s, a)
    ensures AllInSpec(Next(d, s, a))
  {
    var t := Next(d, s, a);
    forall n | n in t.insts ensures InSpec(t.nodes, n, t.insts[n].internal) {
      if Creates(s, a).Some? {
        CreateEffect(d, s, a);
        if n == Creates(s, a).value.name {
          assert Creates(s, a).value in t.nodes;
        }
      } else {
        OthersStay(d, s, a, n);
        if a.ReconcileMachine? {
          MachineEffect(d, s, a);
        } else if a.ReconcileInstance? {
          InstanceEffect(d, s, a.n, a.ie);
        }
      }
    }
    if a.ReconcileMachine? && Creates(s, a).None? {
      MachineEffect(d, s, a);
    } else if a.ReconcileInstance? {
      InstanceEffect(d, s, a.n, a.ie);
    } else if Creates(s, a).Some? {
      CreateEffect(d, s, a);
    }
  }

  lemma {:induction false} SafeRun(d: Distribution, s: State, run: seq<Step>)
    requires IsRun(d, s, run) && Along(d, s, run, SafeStep)
    ensures Along(d, s, run, TakesFree)
    decreases |run|
  {
    if run != [] {
      SafeTakesFree(d, s, run[0]);
      SafeRun(d, Next(d, s, run[0]), run[1..]);
    }
  }

  /** The allocator is injective: no two instances are on one host at any time, if each allocation sees
      all instances or finds the nodes in use in the spec; and every instance has a role of its KKMachine. */
  lemma OneInstancePerHost(d: Distribution, s: State, run: seq<Step>)
    requires Init(s) && IsRun(d, s, run) && Along(d, s, run, SafeStep)
    ensures Always(d, s, run, DistinctHosts) && DistinctHosts(Exec(d, s, run)) && RolesMatch(Exec(d, s, run))
  {
    InitOk(s);
    HostRun(d, s, run);
    SafeRun(d, s, run);
    DistinctIff(d, s, run);
    AlwaysEnds(d, s, run, DistinctHosts);
  }

  lemma {:induction false} ListsAreSafe(d: Distribution, s: State, run: seq<Step>)
    requires IsRun(d, s, run) && Along(d, s, run, SeesAll)
    ensures Along(d, s, run, SafeStep)
    decreases |run|
  {
    if run != [] {
      ListsAreSafe(d, Next(d, s, run[0]), run[1..]);
    }
  }

  /** Edits that leave the nodes in use alone keep every instance in the spec, so every step is safe. */
  lemma {:induction false} EditsAreSafe(d: Distribution, s: State, run: seq<Step>)
    requires IsRun(d, s, run) && AllInSpec(s) && Along(d, s, run, KeepsUsed)
    ensures Along(d, s, run, SafeStep) && AllInSpec(Exec(d, s, run))
    decreases |run|
  {
    if run != [] {
      InSpecStep(d, s, run[0]);
      EditsAreSafe(d, Next(d, s, run[0]), run[1..]);
    }
  }

  /** After any run, an allocation that takes a free host takes a clean one, with a role of the KKMachine. */
  lemma CleanAllocation(d: Distribution, s: State, run: seq<Step>, a: Step)
    requires Init(s) && IsRun(d, s, run)
    requires var t := Exec(d, s, run); Enabled(t, a) && Creates(t, a).Some? && TakesFree(t, a)
    ensures var t, node := Exec(d, s, run), Creates(Exec(d, s, run), a).value;
            !Dirty(t, node.internal) && HasRole(node, t.machines[a.m].roles)
  {
    InitOk(s);
    HostRun(d, s, run);
    CreateEffect(d, Exec(d, s, run), a);
  }
}

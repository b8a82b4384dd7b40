/** Runs that show why the conditions of the host theorems are needed.  Each exists in every cluster
    that has a node with the role asked for. */
module HostMishaps {
  import opened Common
  import opened Allocator
  import opened HostPhases
  import opened HostModel
  import opened HostRuns
  import opened HostLeaks

  const Smooth := MachineEnv(true, true, true, Ok, true, true, true, Some([]), Ok, Ok, Ok)
  const Unanswered := InstanceEnv(true, false, Ok, {}, {}, Ok, Ok)

  lemma {:induction false} Extend(d: Distribution, s: State, run: seq<Step>, a: Step)
    requires IsRun(d, s, run) && Enabled(Exec(d, s, run), a)
    ensures IsRun(d, s, run + [a]) && Exec(d, s, run + [a]) == Next(d, Exec(d, s, run), a)
    decreases |run|
  {
    if run == [] {
      assert (run + [a])[1..] == [];
    } else {
      Extend(d, Next(d, s, run[0]), run[1..], a);
      assert (run + [a])[1..] == run[1..] + [a];
    }
  }

  ghost predicate Offers(s: State, r: Role) {
    exists node :: node in s.nodes && r in node.roles
  }

  /** The node that a KKMachine with role `r` gets when it sees no instance. */
  ghost function Favourite(s: State, r: Role): (node: Node)
    requires Offers(s, r)
    ensures Select(s.nodes, [r], []) == Some(node) && node in s.nodes && r in node.roles
  {
    SelectIff(s.nodes, [r], []);
    var node :| node in s.nodes && r in node.roles;
    assert HasRole(node, [r]);
    Select(s.nodes, [r], []).value
  }

  /** A new KKMachine, and its first reconcile. */
  lemma Started(d: Distribution, s: State, run: seq<Step>, m: Name, r: Role, e: MachineEnv) returns (run': seq<Step>)
    requires IsRun(d, s, run)
    requires var t := Exec(d, s, run);
             && m !in t.names && Offers(t, r) && Favourite(t, r).name !in t.insts
             && e.(labelled := true, close := Ok) == Smooth
    ensures IsRun(d, s, run')
    ensures var t, node := Exec(d, s, run), Favourite(Exec(d, s, run), r);
            Exec(d, s, run') == t.(
              insts := t.insts[node.name := NewInstance(node, m, e)],
              machines := t.machines[m := KKMachine([r], if TookEffect(e.close) then Some(node.name) else None, true, false, false)],
              names := t.names + {m})
    ensures forall a :: a in run' ==> a in run || a.NewMachine? || a.ReconcileMachine?
  {
    Extend(d, s, run, NewMachine(m, [r]));
    run' := run + [NewMachine(m, [r])];
    var t := Exec(d, s, run');
    assert Pick(t, t.machines[m], e) == Some(Favourite(Exec(d, s, run), r));
    Extend(d, s, run', ReconcileMachine(m, e));
    run' := run' + [ReconcileMachine(m, e)];
  }

  /** The first reconcile of an instance touches its host, behind a finalizer. */
  lemma TouchesHost(d: Distribution, s: State, n: Name)
    requires n in s.insts && s.insts[n].owner in s.machines && !s.insts[n].deleting && s.insts[n].conds == {} && !d.Other?
    ensures var t := Next(d, s, ReconcileInstance(n, Unanswered));
            && t == s.(insts := t.insts, residue := t.residue) && t.insts.Keys == s.insts.Keys
            && t.insts[n] == s.insts[n].(finalizer := true) && Dirty(t, s.insts[n].internal)
  {
    assert RunPhases(Phases(d), {}, {}) == Outcome({}, true, false);
    assert KubeadmReset in AllSteps by {
      assert CleanupSteps[0] == KubeadmReset;
    }
    var t := Next(d, s, ReconcileInstance(n, Unanswered));
    assert KubeadmReset in Residue(t, s.insts[n].internal);
  }

  /** A lost record, then the KKMachine is deleted: its instance keeps the host, touched and never to be
      cleaned, for ever (OrphanStays). */
  lemma LostRecordOrphans(d: Distribution, s: State, m: Name, r: Role) returns (run: seq<Step>, n: Name)
    requires Init(s) && Offers(s, r) && !d.Other?
    ensures IsRun(d, s, run)
    ensures var t := Exec(d, s, run); Orphan(t, n) && Dirty(t, t.insts[n].internal)
  {
    run := Started(d, s, [], m, r, Smooth.(close := Rejected));
    n := Favourite(s, r).name;
    Extend(d, s, run, ReconcileInstance(n, Unanswered));
    TouchesHost(d, Exec(d, s, run), n);
    run := run + [ReconcileInstance(n, Unanswered)];
    Extend(d, s, run, DeleteMachine(m));
    run := run + [DeleteMachine(m)];
    Extend(d, s, run, ReconcileMachine(m, Smooth));
    run := run + [ReconcileMachine(m, Smooth)];
  }

  /** A KKMachine that is being deleted still records its instance when another gets the same node and
      so the same instance name.  Its next reconcile deletes the other's instance, which nobody asked for. */
  lemma NameReuseDeletesStranger(d: Distribution, s: State, m: Name, k: Name, r: Role)
    returns (run: seq<Step>, n: Name)
    requires Init(s) && Offers(s, r) && m != k
    ensures IsRun(d, s, run) && (forall a :: a in run ==> !a.DeleteInstance? && a != DeleteMachine(k))
    ensures var t := Exec(d, s, run);
            && m in t.machines && k in t.machines && !t.machines[k].deleting && t.machines[k].provider == Some(n)
            && n in t.insts && t.insts[n].owner == k
            && n !in Next(d, t, ReconcileMachine(m, Smooth)).insts
  {
    run := Started(d, s, [], m, r, Smooth);
    n := Favourite(s, r).name;
    Extend(d, s, run, DeleteMachine(m));
    run := run + [DeleteMachine(m)];
    Extend(d, s, run, ReconcileMachine(m, Smooth));
    run := run + [ReconcileMachine(m, Smooth)];
    assert Exec(d, s, run).nodes == s.nodes;
    run := Started(d, s, run, k, r, Smooth);
  }

  /** A stale list together with an edit that renames a node in use: two instances on one host. */
  lemma StaleListAndRename(d: Distribution, s: State, m: Name, k: Name, r: Role, renamed: Name)
    returns (run: seq<Step>, n: Name)
    requires Init(s) && Offers(s, r) && m != k && renamed != Favourite(s, r).name
    ensures IsRun(d, s, run) && !Along(d, s, run, SafeStep)
    ensures var t := Exec(d, s, run);
            n in t.insts && renamed in t.insts && n != renamed && t.insts[n].internal == t.insts[renamed].internal
  {
    run := Started(d, s, [], m, r, Smooth);
    var node := Favourite(s, r);
    n := node.name;
    var edit := Edit([node.(name := renamed)]);
    Extend(d, s, run, edit);
    run := run + [edit];
    var t := Exec(d, s, run);
    assert t.nodes[0] == node.(name := renamed);
    assert Offers(t, r);
    run := Started(d, s, run, k, r, Smooth);
    if Along(d, s, run, SafeStep) {
      OneInstancePerHost(d, s, run);
    }
  }

  /** An instance without the cluster's labels is not seen: the allocator goes on choosing its node, and
      the other node with the role stays free although the list is exact and nothing fails. */
  lemma UnlabelledBlocks(d: Distribution, s: State, m: Name, k: Name, r: Role, other: Node, e: MachineEnv)
    returns (run: seq<Step>)
    requires Init(s) && Offers(s, r) && m != k && NothingFails(e)
    requires other in s.nodes && r in other.roles && other != Favourite(s, r)
    requires e.listed == Some([AsListed(NewInstance(Favourite(s, r), m, Smooth.(labelled := false)))])
    ensures IsRun(d, s, run) && k in Exec(d, s, run).machines
    ensures var t := Exec(d, s, run); var u := Next(d, t, ReconcileMachine(k, e));
            && t.machines[k].roles == [r] && ListsStored(t, e.listed.value)
            && other in t.nodes && other.name !in t.insts
            && u.insts == t.insts && k in u.machines && u.machines[k].provider.None?
  {
    var one := Smooth.(labelled := false);
    run := Started(d, s, [], m, r, one);
    Extend(d, s, run, NewMachine(k, [r]));
    run := run + [NewMachine(k, [r])];
    var t, node, list := Exec(d, s, run), Favourite(s, r), e.listed.value;
    assert other.name != node.name by {
      var x, y :| 0 <= x < |s.nodes| && 0 <= y < |s.nodes| && s.nodes[x] == other && s.nodes[y] == node;
      assert x < y || y < x;
    }
    assert t.insts[node.name] == NewInstance(node, m, one);
    assert Used(list) == Used([]);
    assert Pick(t, t.machines[k], e) == Some(node);
  }
}

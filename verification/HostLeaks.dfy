/** What ties KKMachines and their instances together, and exactly when that tie breaks. */
module HostLeaks {
  import opened Common
  import opened Allocator
  import opened HostPhases
  import opened HostModel
  import opened HostRuns

  // ---------------------------------------------------------------------------------------------
  // Every instance is recorded in its KKMachine
  // ---------------------------------------------------------------------------------------------

  ghost predicate Recorded(s: State, n: Name)
    requires n in s.insts
  {
    s.insts[n].owner in s.machines && s.machines[s.insts[n].owner].provider == Some(n)
  }

  ghost predicate AllRecorded(s: State) {
    forall n :: n in s.insts ==> Recorded(s, n)
  }

  ghost predicate NoLoss(s: State, a: Step) {
    !Loses(s, a)
  }

  lemma RecordedStep(d: Distribution, s: State, a: Step)
    requires Enabled(s, a) && ObjectsOk(s) && AllRecorded(s)
    ensures AllRecorded(Next(d, s, a)) <==> NoLoss(s, a)
  {
    var t := Next(d, s, a);
    if Creates(s, a).Some? {
      CreateEffect(d, s, a);
      assert Loses(s, a) ==> !Recorded(t, Creates(s, a).value.name);
      forall n | n in t.insts && !Loses(s, a) ensures Recorded(t, n) {
        assert n in s.insts ==> Recorded(s, n);
      }
    } else {
      if a.ReconcileMachine? {
        MachineEffect(d, s, a);
      } else if a.ReconcileInstance? {
        InstanceEffect(d, s, a.n, a.ie);
      }
      forall n | n in t.insts ensures Recorded(t, n) {
        OthersStay(d, s, a, n);
        assert Recorded(s, n);
      }
    }
  }

  /** Every instance is recorded in its own KKMachine at all times, if and only if no reconcile that
      created one lost the answer or the final patch. */
  lemma {:induction false} RecordedIffNoLoss(d: Distribution, s: State, run: seq<Step>)
    requires IsRun(d, s, run) && ObjectsOk(s) && AllRecorded(s)
    ensures Always(d, s, run, AllRecorded) <==> Along(d, s, run, NoLoss)
    decreases |run|
  {
    if run != [] {
      RecordedStep(d, s, run[0]);
      ObjectsStep(d, s, run[0]);
      var t := Next(d, s, run[0]);
      if AllRecorded(t) {
        RecordedIffNoLoss(d, t, run[1..]);
      }
    }
  }

  /** A KKMachine goes away only after its recorded instance; and unless a record was lost, no
      instance of it is left, and every host that is not clean belongs to a KKMachine that is there. */
  lemma MachineLeavesNothing(d: Distribution, s: State, run: seq<Step>, a: Step, m: Name)
    requires Init(s) && IsRun(d, s, run)
    requires var t := Exec(d, s, run); Enabled(t, a) && m in t.machines && m !in Next(d, t, a).machines
    ensures var t := Exec(d, s, run);
            && (t.machines[m].provider.Some? ==> t.machines[m].provider.value !in t.insts)
            && (Along(d, s, run, NoLoss) ==>
                  && (forall n :: n in t.insts ==> t.insts[n].owner != m)
                  && forall h :: Dirty(t, h) ==> exists n :: n in t.insts && t.insts[n].internal == h && Recorded(t, n))
  {
    InitOk(s);
    HostRun(d, s, run);
    var t := Exec(d, s, run);
    if Creates(t, a).Some? {
      CreateEffect(d, t, a);
    } else if a.ReconcileMachine? {
      MachineEffect(d, t, a);
    } else if a.ReconcileInstance? {
      InstanceEffect(d, t, a.n, a.ie);
    }
    if Along(d, s, run, NoLoss) {
      RecordedIffNoLoss(d, s, run);
      AlwaysEnds(d, s, run, AllRecorded);
      forall h | Dirty(t, h) ensures exists n :: n in t.insts && t.insts[n].internal == h && Recorded(t, n) {
        assert Held(t, h);
        var n :| n in t.insts && t.insts[n].internal == h && t.insts[n].finalizer;
        assert Recorded(t, n);
      }
    }
  }

  // ---------------------------------------------------------------------------------------------
  // An instance whose KKMachine is gone
  // ---------------------------------------------------------------------------------------------

  ghost predicate Orphan(s: State, n: Name) {
    n in s.insts && s.insts[n].finalizer && s.insts[n].owner in s.names && s.insts[n].owner !in s.machines
  }

  lemma OrphanStep(d: Distribution, s: State, a: Step, n: Name)
    requires Enabled(s, a) && Orphan(s, n)
    ensures Orphan(Next(d, s, a), n) && Next(d, s, a).insts[n].internal == s.insts[n].internal
  {
    if Creates(s, a).Some? {
      CreateEffect(d, s, a);
    } else if a.ReconcileMachine? {
      MachineEffect(d, s, a);
    } else if a.ReconcileInstance? {
      InstanceEffect(d, s, a.n, a.ie);
    }
  }

  /** Nothing ever removes it, not even a request to delete it: its reconcile needs the KKMachine. */
  lemma {:induction false} OrphanStays(d: Distribution, s: State, run: seq<Step>, n: Name)
    requires IsRun(d, s, run) && Orphan(s, n)
    ensures Orphan(Exec(d, s, run), n) && Exec(d, s, run).insts[n].internal == s.insts[n].internal
    decreases |run|
  {
    if run != [] {
      OrphanStep(d, s, run[0], n);
      OrphanStays(d, Next(d, s, run[0]), run[1..], n);
    }
  }

  // ---------------------------------------------------------------------------------------------
  // A KKMachine only deletes its own instance
  // ---------------------------------------------------------------------------------------------

  ghost predicate Exclusive(s: State) {
    forall m :: m in s.machines && s.machines[m].provider.Some? && s.machines[m].provider.value in s.insts
      ==> s.insts[s.machines[m].provider.value].owner == m
  }

  ghost predicate Claimed(s: State, n: Name) {
    exists m :: m in s.machines && s.machines[m].provider == Some(n)
  }

  /** An allocation does not take a name that some KKMachine still records. */
  ghost predicate TakesUnclaimed(s: State, a: Step) {
    Creates(s, a).Some? ==> !Claimed(s, Creates(s, a).value.name)
  }

  lemma ExclusiveStep(d: Distribution, s: State, a: Step)
    requires Enabled(s, a) && Exclusive(s)
    ensures Exclusive(Next(d, s, a)) <==> TakesUnclaimed(s, a)
  {
    var t := Next(d, s, a);
    if Creates(s, a).Some? {
      CreateEffect(d, s, a);
      var name := Creates(s, a).value.name;
      if Claimed(s, name) {
        var m :| m in s.machines && s.machines[m].provider == Some(name);
        assert m != a.m && t.machines[m].provider == Some(name) && t.insts[name].owner == a.m;
      }
    } else {
      if a.ReconcileMachine? {
        MachineEffect(d, s, a);
      } else if a.ReconcileInstance? {
        InstanceEffect(d, s, a.n, a.ie);
      }
      forall m | m in t.machines && t.machines[m].provider.Some? && t.machines[m].provider.value in t.insts
        ensures t.insts[t.machines[m].provider.value].owner == m
      {
        OthersStay(d, s, a, t.machines[m].provider.value);
      }
    }
  }

  /** The instance a KKMachine records is its own at all times, if and only if no allocation takes a
      name that another KKMachine still records. */
  lemma {:induction false} ExclusiveIff(d: Distribution, s: State, run: seq<Step>)
    requires IsRun(d, s, run) && Exclusive(s)
    ensures Always(d, s, run, Exclusive) <==> Along(d, s, run, TakesUnclaimed)
    decreases |run|
  {
    if run != [] {
      ExclusiveStep(d, s, run[0]);
      var t := Next(d, s, run[0]);
      if Exclusive(t) {
        ExclusiveIff(d, t, run[1..]);
      }
    }
  }

  /** Then a KKMachine's reconcile deletes no instance but its own. */
  lemma DeletesOwn(d: Distribution, s: State, run: seq<Step>, a: Step, n: Name)
    requires Init(s) && IsRun(d, s, run) && Along(d, s, run, TakesUnclaimed)
    requires var t := Exec(d, s, run);
             && Enabled(t, a) && a.ReconcileMachine? && n in t.insts
             && (n in Next(d, t, a).insts ==> Next(d, t, a).insts[n] != t.insts[n])
    ensures Exec(d, s, run).insts[n].owner == a.m
  {
    ExclusiveIff(d, s, run);
    AlwaysEnds(d, s, run, Exclusive);
    var t := Exec(d, s, run);
    if Creates(t, a).Some? {
      CreateEffect(d, t, a);
    } else {
      MachineEffect(d, t, a);
    }
  }

  // ---------------------------------------------------------------------------------------------
  // When an allocation succeeds
  // ---------------------------------------------------------------------------------------------

  /** The list is what is stored. */
  ghost predicate ListsStored(s: State, list: seq<Listed>) {
    && (forall x :: x in list ==> exists n :: n in s.insts && x == AsListed(s.insts[n]))
    && (forall n :: n in s.insts ==> AsListed(s.insts[n]) in list)
  }

  ghost predicate NothingFails(e: MachineEnv) {
    && e.linked && e.ready && e.getOk && e.patch.Ok? && e.lockFree && e.versioned && e.listed.Some?
    && e.create.Ok? && TookEffect(e.close)
  }

  lemma UsedMeansTaken(s: State, list: seq<Listed>, node: Node)
    requires AllInSpec(s) && ListsStored(s, list) && node in s.nodes
    requires forall n :: n in s.insts ==> s.insts[n].labelled
    ensures node.internal in Used(list) <==> node.name in s.insts
  {
    if node.internal in Used(list) {
      var k :| 0 <= k < |list| && Visible(list[k]) && list[k].internal == node.internal;
      assert list[k] in list;
      var n :| n in s.insts && list[k] == AsListed(s.insts[n]);
      assert InSpec(s.nodes, n, node.internal) && InSpec(s.nodes, node.name, node.internal);
      InSpecUnique(s.nodes, n, node.name, node.internal);
    }
    if node.name in s.insts {
      var other :| other in s.nodes && other.name == node.name && other.internal == s.insts[node.name].internal;
      assert other == node;
      var x := AsListed(s.insts[node.name]);
      assert x in list && Visible(x);
    }
  }

  /** Completeness: in any state in which the spec has the nodes in use and every instance carries the
      cluster's labels, a KKMachine that waits for an instance gets one, on record, if nothing fails,
      exactly when some node with one of its roles is free. */
  lemma AllocatesIff(d: Distribution, s: State, m: Name, e: MachineEnv)
    requires AllInSpec(s) && forall n :: n in s.insts ==> s.insts[n].labelled
    requires m in s.machines && !s.machines[m].deleting && !s.machines[m].failed && s.machines[m].provider.None?
    requires NothingFails(e) && ListsStored(s, e.listed.value)
    ensures var t := Next(d, s, ReconcileMachine(m, e));
            m in t.machines && (t.machines[m].provider.Some? <==>
              exists node :: node in s.nodes && HasRole(node, s.machines[m].roles) && node.name !in s.insts)
  {
    var a, list := ReconcileMachine(m, e), e.listed.value;
    SelectIff(s.nodes, s.machines[m].roles, list);
    forall node | node in s.nodes ensures node.internal in Used(list) <==> node.name in s.insts {
      UsedMeansTaken(s, list, node);
    }
    if Creates(s, a).Some? {
      CreateEffect(d, s, a);
    } else {
      MachineEffect(d, s, a);
    }
  }
}

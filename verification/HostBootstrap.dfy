/** The bootstrap phases of KKInstances over every run of the host lifecycle. */
module HostBootstrap {
  import opened Common
  import opened Allocator
  import opened HostPhases
  import opened HostModel
  import opened HostRuns

  /** The true conditions of every instance are the first phases of its distribution, and an instance is
      running only with all of them true. */
  ghost predicate CondsOk(d: Distribution, s: State) {
    forall n :: n in s.insts ==> IsPrefix(Phases(d), s.insts[n].conds) && (s.insts[n].running ==> s.insts[n].conds == All(d))
  }

  /** Step `a` runs the phases of instance `n`. */
  ghost predicate Bootstraps(s: State, a: Step, n: Name) {
    && a.ReconcileInstance? && a.n == n && n in s.insts && a.ie.linked && s.insts[n].owner in s.machines
    && !s.insts[n].deleting && (s.insts[n].finalizer || a.ie.patch.Ok?)
  }

  lemma BootstrapIs(d: Distribution, s: State, a: Step, n: Name)
    requires Enabled(s, a) && Bootstraps(s, a, n)
    ensures var i, t := s.insts[n], Next(d, s, a); var r := RunPhases(Phases(d), i.conds, a.ie.works);
            && n in t.insts && t.insts == s.insts[n := t.insts[n]]
            && (if TookEffect(a.ie.status) then t.insts[n].conds == r.conds && t.insts[n].running == (i.running || r.done)
                else t.insts[n].conds == i.conds && t.insts[n].running == i.running)
            && t.residue == if r.touched then s.residue[i.internal := AllSteps] else s.residue
  {
  }

  /** Every other step leaves the conditions of an instance alone, and a new instance has none. */
  lemma OtherConds(d: Distribution, s: State, a: Step, n: Name)
    requires Enabled(s, a) && !Bootstraps(s, a, n) && n in Next(d, s, a).insts
    ensures var t := Next(d, s, a).insts[n];
            if n in s.insts then t.conds == s.insts[n].conds && (t.running ==> s.insts[n].running)
            else t.conds == {} && !t.running && Creates(s, a).Some? && Creates(s, a).value.name == n
  {
    if Creates(s, a).Some? {
      CreateEffect(d, s, a);
    } else if a.ReconcileMachine? {
      MachineEffect(d, s, a);
    } else if a.ReconcileInstance? {
      InstanceEffect(d, s, a.n, a.ie);
    }
  }

  /** No step makes a true condition of a living instance false. */
  lemma CondsStep(d: Distribution, s: State, a: Step)
    requires Enabled(s, a) && CondsOk(d, s)
    ensures CondsOk(d, Next(d, s, a))
    ensures forall n :: n in s.insts && n in Next(d, s, a).insts ==> s.insts[n].conds <= Next(d, s, a).insts[n].conds
  {
    var t := Next(d, s, a);
    PhasesDistinct(d);
    AllElements(d);
    forall n | n in t.insts
      ensures IsPrefix(Phases(d), t.insts[n].conds) && (t.insts[n].running ==> t.insts[n].conds == All(d))
      ensures n in s.insts ==> s.insts[n].conds <= t.insts[n].conds
    {
      if Bootstraps(s, a, n) {
        BootstrapIs(d, s, a, n);
        PhaseStep(Phases(d), s.insts[n].conds, a.ie.works);
        Full(d, s.insts[n].conds, t.insts[n].conds);
      } else {
        OtherConds(d, s, a, n);
      }
    }
  }

  lemma Full(d: Distribution, conds: set<Phase>, more: set<Phase>)
    requires conds <= more && IsPrefix(Phases(d), more)
    ensures conds == All(d) ==> more == All(d)
  {
    PrefixInOrder(d, more);
  }

  /** In every run, with any failures and lost status patches: the conditions of every instance come true in
      the order of its distribution's phases, and it is running only when all are true. */
  lemma {:induction false} PhasesStayPrefix(d: Distribution, s: State, run: seq<Step>)
    requires IsRun(d, s, run) && CondsOk(d, s)
    ensures var t := Exec(d, s, run);
            CondsOk(d, t) && forall n :: n in t.insts ==> InOrder(d, t.insts[n].conds) && (t.insts[n].running ==> t.insts[n].conds == All(d))
    decreases |run|
  {
    if run == [] {
      forall n | n in s.insts ensures InOrder(d, s.insts[n].conds) {
        PrefixInOrder(d, s.insts[n].conds);
      }
    } else {
      CondsStep(d, s, run[0]);
      PhasesStayPrefix(d, Next(d, s, run[0]), run[1..]);
    }
  }

  ghost predicate Lives(d: Distribution, s: State, run: seq<Step>, n: Name)
    requires IsRun(d, s, run)
    decreases |run|
  {
    n in s.insts && (run == [] || Lives(d, Next(d, s, run[0]), run[1..], n))
  }

  /** And no condition is lost while the object lives. */
  lemma {:induction false} ConditionsStay(d: Distribution, s: State, run: seq<Step>, n: Name)
    requires IsRun(d, s, run) && CondsOk(d, s) && Lives(d, s, run, n)
    ensures n in s.insts && n in Exec(d, s, run).insts && s.insts[n].conds <= Exec(d, s, run).insts[n].conds
    decreases |run|
  {
    if run != [] {
      CondsStep(d, s, run[0]);
      ConditionsStay(d, Next(d, s, run[0]), run[1..], n);
    }
  }

  // ---------------------------------------------------------------------------------------------
  // How often a phase runs
  // ---------------------------------------------------------------------------------------------

  /** The body of phase `p` runs on the host of `n` and succeeds: all phases before it are true or succeed. */
  ghost predicate Succeeds(d: Distribution, s: State, a: Step, n: Name, p: Phase) {
    && Bootstraps(s, a, n) && p !in s.insts[n].conds
    && exists k: nat :: Through(Phases(d), s.insts[n].conds, a.ie.works, k) && Phases(d)[k] == p
  }

  ghost predicate LosesStatus(s: State, a: Step, n: Name) {
    Bootstraps(s, a, n) && !TookEffect(a.ie.status)
  }

  ghost predicate CreatesIt(s: State, a: Step, n: Name) {
    Creates(s, a).Some? && Creates(s, a).value.name == n
  }

  ghost function Count(b: bool): nat {
    if b then 1 else 0
  }

  ghost function Successes(d: Distribution, s: State, run: seq<Step>, n: Name, p: Phase): nat
    requires IsRun(d, s, run)
    decreases |run|
  {
    if run == [] then 0 else Count(Succeeds(d, s, run[0], n, p)) + Successes(d, Next(d, s, run[0]), run[1..], n, p)
  }

  /** The objects of this name created in the run, and the status patches of them that were not stored. */
  ghost function Created(d: Distribution, s: State, run: seq<Step>, n: Name): nat
    requires IsRun(d, s, run)
    decreases |run|
  {
    if run == [] then 0 else Count(CreatesIt(s, run[0], n)) + Created(d, Next(d, s, run[0]), run[1..], n)
  }

  ghost function LostPatches(d: Distribution, s: State, run: seq<Step>, n: Name): nat
    requires IsRun(d, s, run)
    decreases |run|
  {
    if run == [] then 0 else Count(LosesStatus(s, run[0], n)) + LostPatches(d, Next(d, s, run[0]), run[1..], n)
  }

  /** The object is there and its phase is still to come. */
  ghost predicate Due(s: State, n: Name, p: Phase) {
    n in s.insts && p !in s.insts[n].conds
  }

  lemma SuccessStep(d: Distribution, s: State, a: Step, n: Name, p: Phase)
    requires Enabled(s, a)
    ensures Count(Succeeds(d, s, a, n, p)) + Count(Due(Next(d, s, a), n, p))
            <= Count(Due(s, n, p)) + Count(CreatesIt(s, a, n)) + Count(LosesStatus(s, a, n))
  {
    var t := Next(d, s, a);
    if Bootstraps(s, a, n) {
      BootstrapIs(d, s, a, n);
      PhasesDistinct(d);
      RunPhasesMeans(Phases(d), s.insts[n].conds, a.ie.works);
      if Succeeds(d, s, a, n, p) {
        var k: nat :| Through(Phases(d), s.insts[n].conds, a.ie.works, k) && Phases(d)[k] == p;
        assert Phases(d)[k] in RunPhases(Phases(d), s.insts[n].conds, a.ie.works).conds;
      }
    } else if n in t.insts {
      OtherConds(d, s, a, n);
    }
  }

  /** The body of a phase succeeds at most once per object, plus once for every status patch that was lost; in
      every run, whatever fails. */
  lemma {:induction false} PhaseRunsOnce(d: Distribution, s: State, run: seq<Step>, n: Name, p: Phase)
    requires IsRun(d, s, run)
    ensures Successes(d, s, run, n, p) <= Count(Due(s, n, p)) + Created(d, s, run, n) + LostPatches(d, s, run, n)
    decreases |run|
  {
    if run != [] {
      SuccessStep(d, s, run[0], n, p);
      PhaseRunsOnce(d, Next(d, s, run[0]), run[1..], n, p);
    }
  }

  // ---------------------------------------------------------------------------------------------
  // The end
  // ---------------------------------------------------------------------------------------------

  /** After any run, a reconcile in which every phase works that is not true yet, and whose status is stored,
      ends with exactly the phases of the distribution true and the instance running. */
  lemma BootstrapCompletes(d: Distribution, s: State, run: seq<Step>, a: Step, n: Name)
    requires Init(s) && IsRun(d, s, run) && Enabled(Exec(d, s, run), a) && Bootstraps(Exec(d, s, run), a, n)
    requires All(d) <= Exec(d, s, run).insts[n].conds + a.ie.works && TookEffect(a.ie.status)
    ensures var t := Next(d, Exec(d, s, run), a);
            n in t.insts && t.insts[n].conds == All(d) && t.insts[n].running
  {
    var u := Exec(d, s, run);
    PhasesStayPrefix(d, s, run);
    PhasesDistinct(d);
    AllElements(d);
    BootstrapIs(d, u, a, n);
    RunPhasesMeans(Phases(d), u.insts[n].conds, a.ie.works);
    PhaseStep(Phases(d), u.insts[n].conds, a.ie.works);
    assert forall k :: 0 <= k < |Phases(d)| ==> Phases(d)[k] in Elements(Phases(d));
  }

  /** And from then on no phase touches the host again. */
  lemma RunningIsQuiet(d: Distribution, s: State, a: Step, n: Name)
    requires Enabled(s, a) && Bootstraps(s, a, n) && s.insts[n].conds == All(d)
    ensures Next(d, s, a).residue == s.residue && Next(d, s, a).insts[n].conds == All(d)
  {
    var phases := Phases(d);
    PhasesDistinct(d);
    AllElements(d);
    BootstrapIs(d, s, a, n);
    RunPhasesMeans(phases, All(d), a.ie.works);
    assert forall k :: 0 <= k < |phases| ==> phases[k] in Elements(phases);
    assert forall p :: p in phases ==> p in All(d);
  }
}

/** No spurious rollout: the owners of machines never ask for a version other than theirs while the
    cluster is not paused, as long as the list of upgraded machines shows enough and a pause is not
    skipped because of a stale read. */
module UpgradeOwners {
  import opened Common
  import opened UpgradeModel
  import opened UpgradeRuns
  import opened UpgradeSafety

  type Owners = map<Owner, Version>

  /** An owner of active machines asks for `v`. */
  ghost predicate Done(c: Config, over: Owners, o: Owner, v: Version) {
    o in over && c.Owned(o) * c.active != {} ==> over[o] == v
  }

  /** Every owner of active machines asks for `v`, or a machine of it is on the list. */
  ghost predicate Covered(c: Config, over: Owners, v: Version, view: set<Name>) {
    forall o :: o in over ==> Done(c, over, o, v) || c.Owned(o) * view != {}
  }

  /** The condition on a list of upgraded machines. */
  ghost predicate ListCovers(c: Config, s: State, a: Action) {
    a.Cluster? && a.ca.CList? && s.cc.CRun? && s.cc.ver.Some? ==> Covered(c, s.st.over, s.cc.ver.value, a.ca.seenNew)
  }

  /** The condition on the pause flag: a read that shows the cluster paused is right. */
  ghost predicate PauseRead(c: Config, s: State, a: Action) {
    a.Cluster? && a.ca.SetPaused? && a.ca.seen ==> s.st.paused
  }

  ghost predicate ReadsOk(c: Config, s: State, a: Action) {
    ListCovers(c, s, a) && PauseRead(c, s, a)
  }

  // ---------------------------------------------------------------------------------------------
  // Invariant
  // ---------------------------------------------------------------------------------------------

  ghost predicate SetOk(c: Config, over: Owners, v: Version, view: set<Name>, left: set<Name>, patched: set<Name>, ms: Name) {
    if ms in left then Done(c, over, MachineSet(ms), v) || c.Owned(MachineSet(ms)) * view != {}
    else Done(c, over, MachineSet(ms), v) && (c.Owned(MachineSet(ms)) * view != {} ==> ms in patched)
  }

  ghost predicate DeploymentOk(c: Config, over: Owners, v: Version, left: set<Name>, patched: set<Name>, md: Name) {
    Done(c, over, MachineDeployment(md), v) || (md in left && DeploymentTouched(c, md, patched))
  }

  /** How far the patch phase is. */
  ghost predicate PatchOk(c: Config, over: Owners, p: CProc) {
    p.CRun? && p.ver.Some? ==>
      var v := p.ver.value;
      match p.at
      case PatchKcp(view) => Covered(c, over, v, view)
      case PatchSets(view, left, patched) =>
        && Done(c, over, Kcp, v)
        && (forall ms :: ms in c.machineSets ==> SetOk(c, over, v, view, left, patched, ms))
        && (forall md :: md in c.deployments ==>
              Done(c, over, MachineDeployment(md), v) || c.Owned(MachineDeployment(md)) * view != {})
      case PatchDeployments(left, patched) =>
        && Done(c, over, Kcp, v) && (forall ms :: ms in c.machineSets ==> Done(c, over, MachineSet(ms), v))
        && (forall md :: md in c.deployments ==> DeploymentOk(c, over, v, left, patched, md))
      case Unpause => forall o :: o in c.OwnerSet() ==> Done(c, over, o, v)
      case _ => true
  }

  /** From the pause to the end of its pause, the cluster controller has the cluster paused. */
  predicate PauseOk(st: Store, p: CProc) {
    p.CRun? && p.ver.Some? && !p.at.Pause? && !p.at.Clear? && !p.at.Finish? ==> st.paused
  }

  /** While the cluster is not paused, no machine has a version to go to. */
  ghost predicate AtRest(st: Store, i: Name, p: Proc) {
    && (i in st.ann && i in st.mver ==> st.mver[i] == st.ann[i])
    && (p.Run? && i in st.mver ==> st.mver[i] == p.ver)
  }

  ghost predicate Frozen(c: Config, s: State) {
    Consistent(c, s.st) && forall i :: i in s.ip ==> AtRest(s.st, i, s.ip[i])
  }

  ghost predicate OwnersOk(c: Config, s: State) {
    (!s.st.paused ==> Frozen(c, s)) && PauseOk(s.st, s.cc) && PatchOk(c, s.st.over, s.cc)
  }

  /** A deployment that owns a listed machine owns a listed, so patched, machine set. */
  lemma DeploymentIsTouched(c: Config, view: set<Name>, patched: set<Name>, md: Name)
    requires md in c.deployments && c.Owned(MachineDeployment(md)) * view != {}
    requires forall ms :: ms in c.machineSets && c.Owned(MachineSet(ms)) * view != {} ==> ms in patched
    ensures DeploymentTouched(c, md, patched)
  {
    var m :| m in c.Owned(MachineDeployment(md)) * view;
    var ms :| ms in c.deployments[md] && ms in c.machineSets && m in c.machineSets[ms];
    assert m in c.Owned(MachineSet(ms)) * view;
    assert ms in c.deployments[md] * patched;
  }

  lemma LoopDeploymentsOk(c: Config, over: Owners, v: Version, left: set<Name>, patched: set<Name>)
    requires Done(c, over, Kcp, v) && forall ms :: ms in c.machineSets ==> Done(c, over, MachineSet(ms), v)
    requires forall md :: md in c.deployments ==> DeploymentOk(c, over, v, left, patched, md)
    ensures PatchOk(c, over, LoopDeployments(Some(v), left, patched))
  {
    if left == {} {
      forall o | o in c.OwnerSet() ensures Done(c, over, o, v) {
        assert o.MachineDeployment? ==> DeploymentOk(c, over, v, left, patched, o.name);
      }
    }
  }

  lemma LoopSetsOk(c: Config, over: Owners, v: Version, view: set<Name>, left: set<Name>, patched: set<Name>)
    requires Done(c, over, Kcp, v) && forall ms :: ms in c.machineSets ==> SetOk(c, over, v, view, left, patched, ms)
    requires forall md :: md in c.deployments ==>
               Done(c, over, MachineDeployment(md), v) || c.Owned(MachineDeployment(md)) * view != {}
    ensures PatchOk(c, over, LoopSets(c, Some(v), view, left, patched))
  {
    if left == {} {
      assert forall ms :: ms in c.machineSets ==> SetOk(c, over, v, view, {}, patched, ms);
      forall md | md in c.deployments ensures DeploymentOk(c, over, v, c.deployments.Keys, patched, md) {
        if !Done(c, over, MachineDeployment(md), v) {
          DeploymentIsTouched(c, view, patched, md);
        }
      }
      LoopDeploymentsOk(c, over, v, c.deployments.Keys, patched);
    }
  }

  /** Owner `o` gets version `v`. */
  lemma Given(c: Config, over: Owners, o: Owner, v: Version)
    ensures Done(c, over[o := v], o, v) && forall x :: Done(c, over, x, v) ==> Done(c, over[o := v], x, v)
  {
  }

  lemma KcpDone(c: Config, over: Owners, over': Owners, v: Version, view: set<Name>)
    requires over.Keys == c.OwnerSet() && Covered(c, over, v, view)
    requires if c.Owned(Kcp) * view == {} then over' == over else over' == over[Kcp := v]
    ensures PatchOk(c, over', LoopSets(c, Some(v), view, c.machineSets.Keys, {}))
  {
    Given(c, over, Kcp, v);
    forall o | o in over ensures Done(c, over', o, v) || c.Owned(o) * view != {} {
      assert Done(c, over, o, v) || c.Owned(o) * view != {};
    }
    assert Done(c, over', Kcp, v);
    forall ms | ms in c.machineSets ensures SetOk(c, over', v, view, c.machineSets.Keys, {}, ms) {
      assert MachineSet(ms) in over;
    }
    forall md | md in c.deployments
      ensures Done(c, over', MachineDeployment(md), v) || c.Owned(MachineDeployment(md)) * view != {}
    {
      assert MachineDeployment(md) in over;
    }
    LoopSetsOk(c, over', v, view, c.machineSets.Keys, {});
  }

  lemma KcpKeeps(c: Config, st: Store, p: CProc, found: bool, f: Fault)
    requires st.over.Keys == c.OwnerSet() && PatchOk(c, st.over, p) && CEnabled(c, st, p, PatchControlPlane(found, f))
    ensures PatchOk(c, CNextStore(c, st, p, PatchControlPlane(found, f)).over, CNextProc(c, st, p, PatchControlPlane(found, f)))
  {
    var a := PatchControlPlane(found, f);
    if CNextProc(c, st, p, a).CRun? {
      KcpDone(c, st.over, CNextStore(c, st, p, a).over, p.ver.value, p.at.view);
    }
  }

  lemma SetDone(c: Config, over: Owners, over': Owners, v: Version, view: set<Name>, left: set<Name>, patched: set<Name>, ms: Name)
    requires PatchOk(c, over, CRun(Some(v), PatchSets(view, left, patched)))
    requires over' == if SetTouched(c, ms, view) then over[MachineSet(ms) := v] else over
    ensures PatchOk(c, over', LoopSets(c, Some(v), view, left - {ms}, if SetTouched(c, ms, view) then patched + {ms} else patched))
  {
    var done := if SetTouched(c, ms, view) then patched + {ms} else patched;
    Given(c, over, MachineSet(ms), v);
    forall x | x in c.machineSets ensures SetOk(c, over', v, view, left - {ms}, done, x) {
      assert SetOk(c, over, v, view, left, patched, x);
    }
    LoopSetsOk(c, over', v, view, left - {ms}, done);
  }

  lemma SetKeeps(c: Config, st: Store, p: CProc, ms: Name, f: Fault)
    requires PatchOk(c, st.over, p) && CEnabled(c, st, p, PatchSet(ms, f))
    ensures PatchOk(c, CNextStore(c, st, p, PatchSet(ms, f)).over, CNextProc(c, st, p, PatchSet(ms, f)))
  {
    if CNextProc(c, st, p, PatchSet(ms, f)).CRun? {
      SetDone(c, st.over, CNextStore(c, st, p, PatchSet(ms, f)).over, p.ver.value, p.at.view, p.at.left, p.at.patched, ms);
    }
  }

  lemma DeploymentDone(c: Config, over: Owners, over': Owners, v: Version, left: set<Name>, patched: set<Name>, md: Name)
    requires PatchOk(c, over, CRun(Some(v), PatchDeployments(left, patched)))
    requires over' == if DeploymentTouched(c, md, patched) then over[MachineDeployment(md) := v] else over
    ensures PatchOk(c, over', LoopDeployments(Some(v), left - {md}, patched))
  {
    Given(c, over, MachineDeployment(md), v);
    forall x | x in c.deployments ensures DeploymentOk(c, over', v, left - {md}, patched, x) {
      assert DeploymentOk(c, over, v, left, patched, x);
    }
    LoopDeploymentsOk(c, over', v, left - {md}, patched);
  }

  lemma DeploymentKeeps(c: Config, st: Store, p: CProc, md: Name, f: Fault)
    requires PatchOk(c, st.over, p) && CEnabled(c, st, p, PatchDeployment(md, f))
    ensures PatchOk(c, CNextStore(c, st, p, PatchDeployment(md, f)).over, CNextProc(c, st, p, PatchDeployment(md, f)))
  {
    if CNextProc(c, st, p, PatchDeployment(md, f)).CRun? {
      DeploymentDone(c, st.over, CNextStore(c, st, p, PatchDeployment(md, f)).over, p.ver.value, p.at.left, p.at.patched, md);
    }
  }

  /** Once every owner is done, the cluster is consistent. */
  lemma DoneIsConsistent(c: Config, st: Store, v: Version)
    requires Shaped(c, st) && AllAt(c, st, v) && forall o :: o in c.OwnerSet() ==> Done(c, st.over, o, v)
    ensures Consistent(c, st)
  {
    forall o, m | o in st.over && m in c.Owned(o) && m in c.active && m in st.mver
      ensures st.over[o] == st.mver[m]
    {
      assert m in c.Owned(o) * c.active;
      assert Done(c, st.over, o, v);
    }
  }

  lemma RestInst(c: Config, st: Store, i: Name, p: Proc, a: IAction)
    requires InstEnabled(c, st, i, p, a) && AtRest(st, i, p)
    ensures var t := NextStore(c, st, i, p, a);
            t.mver == st.mver && t.ann == st.ann && t.over == st.over && AtRest(t, i, NextProc(c, st, i, p, a))
  {
    if a.PatchMachine? {
      assert p.Run? && st.mver[i := p.ver] == st.mver;
    } else {
      RestStore(c, st, i, p, a);
    }
  }

  lemma RestStore(c: Config, st: Store, i: Name, p: Proc, a: IAction)
    requires InstEnabled(c, st, i, p, a) && !a.PatchMachine?
    ensures NextStore(c, st, i, p, a).mver == st.mver
  {
  }

  lemma InstOwners(c: Config, s: State, i: Name, a: IAction)
    requires OwnersOk(c, s) && Enabled(c, s, Inst(i, a))
    ensures OwnersOk(c, Next(c, s, Inst(i, a)))
  {
    var t := NextStore(c, s.st, i, s.ip[i], a);
    if !s.st.paused {
      RestInst(c, s.st, i, s.ip[i], a);
      SameConsistent(c, s.st, t);
      forall j | j in s.ip && j != i ensures AtRest(t, j, s.ip[j]) {
        assert AtRest(s.st, j, s.ip[j]);
      }
    }
  }

  predicate IsPatch(a: CAction) {
    a.PatchControlPlane? || a.PatchSet? || a.PatchDeployment?
  }

  lemma PatchStep(c: Config, s: State, a: CAction)
    requires Shaped(c, s.st) && s.st.paused && PatchOk(c, s.st.over, s.cc) && CEnabled(c, s.st, s.cc, a) && IsPatch(a)
    ensures PatchOk(c, CNextStore(c, s.st, s.cc, a).over, CNextProc(c, s.st, s.cc, a))
  {
    match a
    case PatchControlPlane(found, f) => KcpKeeps(c, s.st, s.cc, found, f);
    case PatchSet(ms, f) => SetKeeps(c, s.st, s.cc, ms, f);
    case PatchDeployment(md, f) => DeploymentKeeps(c, s.st, s.cc, md, f);
  }

  lemma QuietNext(c: Config, s: State, a: CAction)
    requires Enabled(c, s, Cluster(a)) && ListCovers(c, s, Cluster(a)) && !IsPatch(a)
    ensures PatchOk(c, s.st.over, CNextProc(c, s.st, s.cc, a))
  {
  }

  lemma QuietStore(c: Config, st: Store, p: CProc, a: CAction)
    requires CEnabled(c, st, p, a) && !IsPatch(a)
    ensures var t := CNextStore(c, st, p, a); t.over == st.over && t.mver == st.mver
    ensures !CNextStore(c, st, p, a).paused ==> !st.paused || a.SetUnpaused?
    ensures !a.Annotate? ==> forall n :: n in CNextStore(c, st, p, a).ann ==> n in st.ann && CNextStore(c, st, p, a).ann[n] == st.ann[n]
  {
  }

  /** The controller keeps the cluster paused, if a pause is not skipped. */
  lemma PauseKeeps(c: Config, s: State, a: CAction)
    requires PauseOk(s.st, s.cc) && Enabled(c, s, Cluster(a)) && PauseRead(c, s, Cluster(a))
    ensures PauseOk(CNextStore(c, s.st, s.cc, a), CNextProc(c, s.st, s.cc, a))
  {
  }

  /** At the end of the pause all is done. */
  lemma UnpauseFrozen(c: Config, s: State)
    requires Inv(c, s) && OwnersOk(c, s) && s.cc.CRun? && s.cc.ver.Some? && s.cc.at.Unpause?
    ensures Frozen(c, s)
  {
    var v := s.cc.ver.value;
    UnpauseAt(c, s.st, s.cc, v);
    AllDone(c, s.st.over, s.cc, v);
    DoneIsConsistent(c, s.st, v);
    AllRestAtEnd(c, s, v);
  }

  lemma UnpauseAt(c: Config, st: Store, p: CProc, v: Version)
    requires st.obs.Keys == c.active && ClusterOk(c, st, p) && p == CRun(Some(v), Unpause)
    ensures AllAt(c, st, v) && st.target == Some(v)
  {
  }

  lemma AllDone(c: Config, over: Owners, p: CProc, v: Version)
    requires PatchOk(c, over, p) && p == CRun(Some(v), Unpause)
    ensures forall o :: o in c.OwnerSet() ==> Done(c, over, o, v)
  {
  }

  lemma AllRestAtEnd(c: Config, s: State, v: Version)
    requires StoreOk(c, s.st) && s.ip.Keys == c.active && AllAt(c, s.st, v) && s.st.target == Some(v)
    requires forall i :: i in s.ip ==> InstOk(c, s.st, i, s.ip[i])
    ensures forall i :: i in s.ip ==> AtRest(s.st, i, s.ip[i])
  {
    forall i | i in s.ip ensures AtRest(s.st, i, s.ip[i]) {
      RestAtEnd(c, s.st, i, s.ip[i], v);
    }
  }

  lemma RestAtEnd(c: Config, st: Store, i: Name, p: Proc, v: Version)
    requires HostOk(c, st, i) && InstOk(c, st, i, p) && st.target == Some(v) && st.mver[i] == v
    ensures AtRest(st, i, p)
  {
  }

  lemma FrozenKeeps(c: Config, s: State, t: Store)
    requires Frozen(c, s) && t.over == s.st.over && t.mver == s.st.mver
    requires forall n :: n in t.ann ==> n in s.st.ann && t.ann[n] == s.st.ann[n]
    ensures forall cc :: Frozen(c, State(t, cc, s.ip))
  {
    SameConsistent(c, s.st, t);
    forall i | i in s.ip ensures AtRest(t, i, s.ip[i]) {
      assert AtRest(s.st, i, s.ip[i]);
    }
  }

  lemma QuietFrozen(c: Config, s: State, a: CAction)
    requires Inv(c, s) && OwnersOk(c, s) && Enabled(c, s, Cluster(a)) && !IsPatch(a)
    ensures !CNextStore(c, s.st, s.cc, a).paused ==> Frozen(c, Next(c, s, Cluster(a)))
  {
    var t := CNextStore(c, s.st, s.cc, a);
    QuietStore(c, s.st, s.cc, a);
    if !t.paused {
      if a.SetUnpaused? {
        UnpauseFrozen(c, s);
      }
      FrozenKeeps(c, s, t);
    }
  }

  lemma ClusterOwners(c: Config, s: State, a: CAction)
    requires Inv(c, s) && OwnersOk(c, s) && Enabled(c, s, Cluster(a)) && ReadsOk(c, s, Cluster(a))
    ensures OwnersOk(c, Next(c, s, Cluster(a)))
  {
    PauseKeeps(c, s, a);
    if IsPatch(a) {
      PatchStep(c, s, a);
      OwnerKeys(c, s.st, s.cc, a);
    } else {
      QuietNext(c, s, a);
      QuietStore(c, s.st, s.cc, a);
      QuietFrozen(c, s, a);
    }
  }

  lemma SameConsistent(c: Config, st: Store, t: Store)
    requires t.over == st.over && t.mver == st.mver && Consistent(c, st)
    ensures Consistent(c, t)
  {
  }

  lemma OtherOwners(c: Config, s: State, a: Action)
    requires OwnersOk(c, s) && Enabled(c, s, a) && (a.Request? || a.Crash?)
    ensures OwnersOk(c, Next(c, s, a))
  {
    var t := Next(c, s, a);
    if !s.st.paused {
      SameConsistent(c, s.st, t.st);
      forall i | i in t.ip ensures AtRest(t.st, i, t.ip[i]) {
        assert AtRest(s.st, i, s.ip[i]);
      }
    }
  }

  lemma {:induction false} OwnersRun(c: Config, s: State, run: seq<Action>)
    requires Inv(c, s) && OwnersOk(c, s) && IsRun(c, s, run) && Along(c, s, run, ReadsOk)
    ensures Inv(c, Exec(c, s, run)) && OwnersOk(c, Exec(c, s, run))
    decreases |run|
  {
    if run != [] {
      StepKeeps(c, s, run[0]);
      match run[0] {
        case Inst(i, a) => InstOwners(c, s, i, a);
        case Cluster(a) => ClusterOwners(c, s, a);
        case Request(_) | Crash => OtherOwners(c, s, run[0]);
      }
      OwnersRun(c, Next(c, s, run[0]), run[1..]);
    }
  }

  /** No spurious rollout.  In every run from a consistent cluster, whatever the interleaving, the
      failed writes and the number and kind of requests, if every list of upgraded machines shows one
      machine of each owner that is still to be patched and no stale read skips a pause: while the
      cluster is not paused, every control plane, MachineSet and MachineDeployment has the version of all
      its machines with an active KKInstance. */
  lemma NoSpuriousRollout(c: Config, s: State, run: seq<Action>)
    requires Init(c, s) && IsRun(c, s, run) && Along(c, s, run, ReadsOk)
    ensures !Exec(c, s, run).st.paused ==> Consistent(c, Exec(c, s, run).st)
  {
    InitInv(c, s);
    OwnersRun(c, s, run);
  }

  // ---------------------------------------------------------------------------------------------
  // The condition on the list is exact
  // ---------------------------------------------------------------------------------------------

  ghost predicate Patching(s: State, v: Version) {
    && s.cc.CRun? && s.cc.ver == Some(v)
    && match s.cc.at
       case PatchKcp(_) => true
       case PatchSets(_, left, _) => left != {}
       case PatchDeployments(left, _) => left != {}
       case _ => false
  }

  function PatchRank(p: CProc): nat {
    if p.CRun? && p.at.PatchKcp? then 2 else if p.CRun? && p.at.PatchSets? then 1 else 0
  }

  function PatchLeft(p: CProc): set<Name> {
    if p.CRun? && (p.at.PatchSets? || p.at.PatchDeployments?) then p.at.left else {}
  }

  /** The patch phase passes owner `o` by. */
  ghost predicate Missed(c: Config, p: CProc, o: Owner) {
    p.CRun? &&
      match p.at
      case PatchKcp(view) => c.Owned(o) * view == {}
      case PatchSets(view, _, patched) =>
        c.Owned(o) * view == {} && (o.MachineDeployment? ==> !DeploymentTouched(c, o.name, patched))
      case PatchDeployments(_, patched) => o.MachineDeployment? ==> !DeploymentTouched(c, o.name, patched)
      case Unpause => true
      case _ => false
  }

  lemma MissedSet(c: Config, o: Owner, view: set<Name>, patched: set<Name>, ms: Name)
    requires o.MachineDeployment? && !DeploymentTouched(c, o.name, patched) && c.Owned(o) * view == {}
    requires ms in c.machineSets && SetTouched(c, ms, view)
    ensures !DeploymentTouched(c, o.name, patched + {ms})
  {
    var m :| m in c.Owned(MachineSet(ms)) * view;
    assert m in view && m !in c.Owned(o) * view;
  }

  /** The next patch of the phase goes through. */
  lemma PatchNext(c: Config, s: State, v: Version) returns (ca: CAction)
    requires Patching(s, v) && (s.cc.at.PatchSets? ==> s.cc.at.left <= c.machineSets.Keys)
    ensures CEnabled(c, s.st, s.cc, ca) && CalmCluster(c, ca) && IsPatch(ca)
    ensures var t := Next(c, s, Cluster(ca));
            && t == State(s.st.(over := t.st.over), t.cc, s.ip)
            && (Patching(t, v) || t.cc == CRun(Some(v), Unpause))
            && (t.cc.CRun? && t.cc.at.PatchSets? ==> t.cc.at.left <= c.machineSets.Keys)
            && (PatchRank(t.cc) < PatchRank(s.cc) || (PatchRank(t.cc) == PatchRank(s.cc) && PatchLeft(t.cc) < PatchLeft(s.cc)))
    ensures var t := Next(c, s, Cluster(ca));
            forall o :: o in s.st.over && Missed(c, s.cc, o) ==> Missed(c, t.cc, o) && o in t.st.over && t.st.over[o] == s.st.over[o]
  {
    if s.cc.at.PatchKcp? {
      ca := PatchControlPlane(true, Ok);
    } else {
      var n :| n in s.cc.at.left;
      ca := if s.cc.at.PatchSets? then PatchSet(n, Ok) else PatchDeployment(n, Ok);
      if s.cc.at.PatchSets? && SetTouched(c, n, s.cc.at.view) {
        forall o | Missed(c, s.cc, o) && o.MachineDeployment? ensures !DeploymentTouched(c, o.name, s.cc.at.patched + {n}) {
          MissedSet(c, o, s.cc.at.view, s.cc.at.patched, n);
        }
      }
    }
  }

  /** The patch phase goes through. */
  lemma {:induction false} FinishPatching(c: Config, s: State, v: Version) returns (run: seq<Action>, t: State)
    requires Patching(s, v) && (s.cc.at.PatchSets? ==> s.cc.at.left <= c.machineSets.Keys)
    ensures CalmRun(c, s, run) && Exec(c, s, run) == t
    ensures t == State(s.st.(over := t.st.over), CRun(Some(v), Unpause), s.ip)
    ensures forall o :: o in s.st.over && Missed(c, s.cc, o) ==> o in t.st.over && t.st.over[o] == s.st.over[o]
    ensures forall a :: a in run ==> a.Cluster? && !a.ca.CList? && !a.ca.SetPaused?
    decreases PatchRank(s.cc), PatchLeft(s.cc)
  {
    var ca := PatchNext(c, s, v);
    var s1 := Next(c, s, Cluster(ca));
    if s1.cc != CRun(Some(v), Unpause) {
      run, t := FinishPatching(c, s1, v);
    } else {
      run, t := [], s1;
    }
    CalmThen(c, s, Cluster(ca), run);
    run := [Cluster(ca)] + run;
  }

  lemma {:induction false} NoReads(c: Config, s: State, run: seq<Action>)
    requires IsRun(c, s, run) && forall a :: a in run ==> a.Cluster? && !a.ca.CList? && !a.ca.SetPaused?
    ensures Along(c, s, run, ReadsOk)
    decreases |run|
  {
    if run != [] {
      NoReads(c, Next(c, s, run[0]), run[1..]);
    }
  }

  /** An owner that is passed by makes the cluster inconsistent, and unpaused. */
  lemma MissedRollsOut(c: Config, t: State, v: Version, w: set<Name>) returns (run: seq<Action>)
    requires c.Wf() && Shaped(c, t.st) && AllAt(c, t.st, v) && t.st.paused
    requires t.cc == CRun(Some(v), PatchKcp(w)) && !Covered(c, t.st.over, v, w)
    ensures IsRun(c, t, run) && Along(c, t, run, ReadsOk)
    ensures !Exec(c, t, run).st.paused && !Consistent(c, Exec(c, t, run).st)
  {
    var o :| o in t.st.over && !Done(c, t.st.over, o, v) && c.Owned(o) * w == {};
    var m :| m in c.Owned(o) * c.active;
    var u: State;
    run, u := FinishPatching(c, t, v);
    RunSnoc(c, t, run, Cluster(SetUnpaused(true, Ok)));
    LeftBehind(c, u, v, o, m);
    run := run + [Cluster(SetUnpaused(true, Ok))];
    NoReads(c, t, run);
  }

  /** The end of the pause with an owner left behind. */
  lemma LeftBehind(c: Config, s: State, v: Version, o: Owner, m: Name)
    requires s.cc == CRun(Some(v), Unpause) && s.st.paused
    requires o in s.st.over && m in c.Owned(o) && m in c.active && m in s.st.mver && s.st.over[o] != s.st.mver[m]
    ensures var t := Next(c, s, Cluster(SetUnpaused(true, Ok))).st; !t.paused && !Consistent(c, t)
  {
    var t := Next(c, s, Cluster(SetUnpaused(true, Ok))).st;
    assert t == s.st.(paused := false);
  }

  ghost predicate StaysConsistent(c: Config, s: State) {
    forall run :: IsRun(c, s, run) && Along(c, s, run, ReadsOk) ==> (!Exec(c, s, run).st.paused ==> Consistent(c, Exec(c, s, run).st))
  }

  lemma OkStaysConsistent(c: Config, s: State)
    requires Inv(c, s) && OwnersOk(c, s)
    ensures StaysConsistent(c, s)
  {
    forall run | IsRun(c, s, run) && Along(c, s, run, ReadsOk)
      ensures !Exec(c, s, run).st.paused ==> Consistent(c, Exec(c, s, run).st)
    {
      OwnersRun(c, s, run);
    }
  }

  lemma NextStaysConsistent(c: Config, s: State, a: CAction)
    requires Inv(c, s) && OwnersOk(c, s) && Enabled(c, s, Cluster(a)) && ReadsOk(c, s, Cluster(a))
    ensures StaysConsistent(c, Next(c, s, Cluster(a)))
  {
    StepKeeps(c, s, Cluster(a));
    ClusterOwners(c, s, a);
    OkStaysConsistent(c, Next(c, s, Cluster(a)));
  }

  lemma MissedByList(c: Config, s: State, w: set<Name>)
    requires Inv(c, s) && PauseOk(s.st, s.cc) && Enabled(c, s, Cluster(CList(w))) && !ListCovers(c, s, Cluster(CList(w)))
    ensures !StaysConsistent(c, Next(c, s, Cluster(CList(w))))
  {
    var v := s.cc.ver.value;
    var t := State(s.st, CRun(Some(v), PatchKcp(w)), s.ip);
    assert t == Next(c, s, Cluster(CList(w)));
    var more := MissedRollsOut(c, t, v, w);
  }

  /** After any run that met the condition, a list meets it if and only if no continuation that meets it
      leads to a spurious rollout. */
  lemma ListIff(c: Config, s: State, run: seq<Action>, w: set<Name>)
    requires Init(c, s) && IsRun(c, s, run) && Along(c, s, run, ReadsOk) && Enabled(c, Exec(c, s, run), Cluster(CList(w)))
    ensures var t := Exec(c, s, run);
            ListCovers(c, t, Cluster(CList(w))) <==> StaysConsistent(c, Next(c, t, Cluster(CList(w))))
  {
    InitInv(c, s);
    OwnersRun(c, s, run);
    var t := Exec(c, s, run);
    if ListCovers(c, t, Cluster(CList(w))) {
      NextStaysConsistent(c, t, CList(w));
    } else {
      MissedByList(c, t, w);
    }
  }
}

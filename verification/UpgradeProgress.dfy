/** Progress of the in-place upgrade: while something is left to do, some instance can do it. */
module UpgradeProgress {
  import opened Common
  import opened UpgradeModel
  import opened UpgradeRuns
  import opened UpgradeSafety

  /** A run in which only instance `i` acts. */
  ghost predicate Solo(run: seq<Action>, i: Name) {
    forall k :: 0 <= k < |run| ==> run[k].Inst? && run[k].i == i
  }

  ghost predicate SoloRun(c: Config, s: State, i: Name, run: seq<Action>, st: Store, p: Proc) {
    Solo(run, i) && CalmRun(c, s, run) && Exec(c, s, run) == State(st, s.cc, s.ip[i := p])
  }

  /** Instance `i` alone, without a failure, can lead from `s` to store `st` with its reconcile at `p`,
      the rest untouched. */
  ghost predicate Leads(c: Config, s: State, i: Name, st: Store, p: Proc) {
    exists run :: SoloRun(c, s, i, run, st, p)
  }

  lemma LeadsStart(c: Config, s: State, i: Name)
    requires i in s.ip
    ensures Leads(c, s, i, s.st, s.ip[i])
  {
    assert s.ip[i := s.ip[i]] == s.ip;
    assert SoloRun(c, s, i, [], s.st, s.ip[i]);
  }

  lemma LeadsStep(c: Config, s: State, i: Name, st: Store, p: Proc, a: IAction)
    requires Leads(c, s, i, st, p) && InstEnabled(c, st, i, p, a) && CalmInst(a) && CurrentInst(st, a)
    ensures Leads(c, s, i, NextStore(c, st, i, p, a), NextProc(c, st, i, p, a))
  {
    var run :| SoloRun(c, s, i, run, st, p);
    CalmThen(c, Exec(c, s, run), Inst(i, a), []);
    CalmConcat(c, s, run, [Inst(i, a)] + []);
    assert [Inst(i, a)] + [] == [Inst(i, a)];
    var q := NextProc(c, st, i, p, a);
    assert s.ip[i := p][i := q] == s.ip[i := q];
    assert SoloRun(c, s, i, run + [Inst(i, a)], NextStore(c, st, i, p, a), q);
  }

  lemma SoloConcat(r1: seq<Action>, r2: seq<Action>, i: Name)
    requires Solo(r1, i) && Solo(r2, i)
    ensures Solo(r1 + r2, i)
  {
  }

  lemma LeadsOn(c: Config, s: State, i: Name, st: Store, p: Proc, t: Store, q: Proc)
    requires Leads(c, s, i, st, p) && Leads(c, State(st, s.cc, s.ip[i := p]), i, t, q)
    ensures Leads(c, s, i, t, q)
  {
    var s1 := State(st, s.cc, s.ip[i := p]);
    var r1 :| SoloRun(c, s, i, r1, st, p);
    var r2 :| SoloRun(c, s1, i, r2, t, q);
    SoloConcat(r1, r2, i);
    CalmConcat(c, s, r1, r2);
    assert s.ip[i := p][i := q] == s.ip[i := q];
    assert SoloRun(c, s, i, r1 + r2, t, q);
  }

  // ---------------------------------------------------------------------------------------------
  // Undisturbed reconciles
  // ---------------------------------------------------------------------------------------------

  /** Annotated, idle, and asked to go to `v`. */
  ghost predicate Ready(c: Config, s: State, i: Name, v: Version) {
    && i in c.active && i in s.ip && s.ip[i].Idle? && Has(s.st, i) && i in s.st.ann && s.st.ann[i] == v
  }

  /** A reconcile that started in `st` and saw exactly the machines at version `v`. */
  function Look(st: Store, i: Name, v: Version, at: Point): (p: Proc)
    requires Has(st, i)
  {
    Run(v, st.mver[i], st.running[i], AtVersion(st, v), at)
  }

  lemma ToDecision(c: Config, s: State, i: Name, v: Version)
    requires Ready(c, s, i, v) && s.st.running[i] != v
    ensures Leads(c, s, i, s.st, Look(s.st, i, v, Choose(c, i, Look(s.st, i, v, Decide))))
  {
    var p := Run(v, s.st.mver[i], s.st.running[i], {}, Binaries);
    LeadsStart(c, s, i);
    LeadsStep(c, s, i, s.st, Idle, Begin(true));
    LeadsStep(c, s, i, s.st, p, Download(Ok));
    LeadsStep(c, s, i, s.st, p.(at := Kubeadm), ReadMachines(AtVersion(s.st, v)));
    LeadsStep(c, s, i, s.st, Look(s.st, i, v, Decide), Branch);
  }

  /** The end of a reconcile that did not mark the instance upgraded. */
  lemma ToIdle(c: Config, s: State, i: Name, st: Store, p: Proc)
    requires Leads(c, s, i, st, p) && At(p, Close(false)) && i in c.active && Has(st, i)
    ensures Leads(c, s, i, st.(obs := st.obs[i := p.seen]), Idle)
  {
    LeadsStep(c, s, i, st, p, CloseScope(Ok));
  }

  /** Instance `i` has the lock. */
  function Locked(st: Store, i: Name): Store {
    if st.lock.None? then st.(lock := Some(i), locks := st.locks + {i}) else st.(lock := Some(i))
  }

  /** Up to the critical section of the first control plane. */
  lemma ToCritical(c: Config, s: State, i: Name, v: Version)
    requires Ready(c, s, i, v) && s.st.running[i] != v && i in c.cp
    requires AtVersion(s.st, v) * c.cp == {} && (s.st.lock.Some? ==> s.st.lock.value == i)
    ensures Leads(c, s, i, Locked(s.st, i), Look(s.st, i, v, Apply))
  {
    var p := Look(s.st, i, v, Recheck);
    ToDecision(c, s, i, v);
    LeadsStep(c, s, i, s.st, p, Reread(AtVersion(s.st, v)));
    LeadsStep(c, s, i, s.st, p.(at := LockGet), GetLock(true, s.st.lock));
    if s.st.lock.None? {
      LeadsStep(c, s, i, s.st, p.(at := LockCreate), CreateLock(Ok));
    }
  }

  /** An instance that finds a lock whose holder does not resolve deletes it. */
  lemma RemovesLock(c: Config, s: State, i: Name, v: Version)
    requires Ready(c, s, i, v) && s.st.running[i] != v && i in c.cp && AtVersion(s.st, v) * c.cp == {}
    requires s.st.lock.Some? && s.st.lock.value != i && s.st.lock.value !in c.machineNames
    ensures Leads(c, s, i, s.st, Look(s.st, i, v, StealDelete))
    ensures Leads(c, s, i, s.st.(lock := None, obs := s.st.obs[i := s.st.running[i]]), Idle)
  {
    var st := s.st;
    var p := Look(st, i, v, Recheck);
    ToDecision(c, s, i, v);
    LeadsStep(c, s, i, st, p, Reread(AtVersion(st, v)));
    LeadsStep(c, s, i, st, p.(at := LockGet), GetLock(true, st.lock));
    LeadsStep(c, s, i, st, p.(at := LockHolder(st.lock.value)), GetHolder(true));
    LeadsStep(c, s, i, st, p.(at := StealGet), GetToUnlock(true, true));
    LeadsStep(c, s, i, st, p.(at := StealDelete), DeleteLock(Ok));
    ToIdle(c, s, i, st.(lock := None), p.(at := Close(false)));
  }

  /** The first control plane: lock, `kubeadm upgrade apply`, patch. */
  lemma FirstControlPlane(c: Config, s: State, i: Name, v: Version)
    requires Ready(c, s, i, v) && s.st.running[i] != v && i in c.cp
    requires AtVersion(s.st, v) * c.cp == {} && (s.st.lock.Some? ==> s.st.lock.value == i)
    ensures Leads(c, s, i, Locked(s.st, i).(log := s.st.log + [Applied(i, v)], mver := s.st.mver[i := v],
                                            obs := s.st.obs[i := s.st.running[i]]), Idle)
  {
    var st := s.st;
    var p := Look(st, i, v, Apply);
    ToCritical(c, s, i, v);
    var st1 := Locked(st, i);
    LeadsStep(c, s, i, st1, p, UpgradeApply(Ok));
    var st2 := st1.(log := st.log + [Applied(i, v)]);
    LeadsStep(c, s, i, st2, p.(at := ApplyPatch), PatchMachine(Ok));
    ToIdle(c, s, i, st2.(mver := st.mver[i := v]), p.(at := Close(false)));
  }

  lemma Release(c: Config, s: State, i: Name, st: Store, p: Proc)
    requires Leads(c, s, i, st, p) && At(p, JoinGet) && i in c.active && Has(st, i)
    ensures Leads(c, s, i, st.(lock := None), p.(at := JoinNode))
  {
    LeadsStep(c, s, i, st, p, GetToUnlock(true, st.lock.Some?));
    if st.lock.Some? {
      LeadsStep(c, s, i, st, p.(at := JoinDelete), DeleteLock(Ok));
    }
  }

  /** A further control plane: release the lock, `kubeadm upgrade node`, patch. */
  lemma NextControlPlane(c: Config, s: State, i: Name, v: Version)
    requires Ready(c, s, i, v) && s.st.running[i] != v && i in c.cp && s.st.mver[i] != v
    requires AtVersion(s.st, v) * c.cp != {}
    ensures Leads(c, s, i, s.st.(lock := None, log := s.st.log + [NodeUpgraded(i, v)], mver := s.st.mver[i := v],
                                 obs := s.st.obs[i := s.st.running[i]]), Idle)
  {
    var st := s.st;
    var p := Look(st, i, v, JoinGet);
    assert i !in AtVersion(st, v) * c.cp;
    ToDecision(c, s, i, v);
    Release(c, s, i, st, p);
    JoinTail(c, s, i, st.(lock := None), p.(at := JoinNode));
  }

  /** `kubeadm upgrade node`, patch, end. */
  lemma JoinTail(c: Config, s: State, i: Name, st: Store, p: Proc)
    requires Leads(c, s, i, st, p) && At(p, JoinNode) && i in c.active && Has(st, i)
    ensures Leads(c, s, i, st.(log := st.log + [NodeUpgraded(i, p.ver)], mver := st.mver[i := p.ver], obs := st.obs[i := p.seen]), Idle)
  {
    LeadsStep(c, s, i, st, p, UpgradeNode(Ok));
    var st1 := st.(log := st.log + [NodeUpgraded(i, p.ver)]);
    LeadsStep(c, s, i, st1, p.(at := JoinPatch), PatchMachine(Ok));
    ToIdle(c, s, i, st1.(mver := st.mver[i := p.ver]), p.(at := Close(false)));
  }

  /** Drain, restart the kubelet, end. */
  lemma RestartTail(c: Config, s: State, i: Name, st: Store, p: Proc)
    requires Leads(c, s, i, st, p) && At(p, Drain) && i in c.active && Has(st, i)
    ensures Leads(c, s, i, st.(running := st.running[i := p.ver], log := st.log + [Restarted(i, p.ver)],
                               obs := st.obs[i := p.seen]), Idle)
  {
    LeadsStep(c, s, i, st, p, DrainNode(true));
    LeadsStep(c, s, i, st, p.(at := Restart), RestartKubelet(Ok));
    ToIdle(c, s, i, st.(running := st.running[i := p.ver], log := st.log + [Restarted(i, p.ver)]), p.(at := Close(false)));
  }

  /** A worker, while not all workers are seen there: `kubeadm upgrade node`, patch, restart. */
  lemma WorkerUpgrade(c: Config, s: State, i: Name, v: Version)
    requires Ready(c, s, i, v) && s.st.running[i] != v && i !in c.cp && i in c.workers
    requires c.cp <= AtVersion(s.st, v) && !(c.workers <= AtVersion(s.st, v))
    ensures Leads(c, s, i, s.st.(mver := s.st.mver[i := v], running := s.st.running[i := v],
                                 log := s.st.log + [NodeUpgraded(i, v)] + [Restarted(i, v)],
                                 obs := s.st.obs[i := s.st.running[i]]), Idle)
  {
    var st := s.st;
    var p := Look(st, i, v, WorkerNode);
    assert AtVersion(st, v) * c.cp == c.cp && AtVersion(st, v) * c.workers != c.workers;
    ToDecision(c, s, i, v);
    LeadsStep(c, s, i, st, p, UpgradeNode(Ok));
    var st1 := st.(log := st.log + [NodeUpgraded(i, v)]);
    LeadsStep(c, s, i, st1, p.(at := WorkerPatch), PatchMachine(Ok));
    RestartTail(c, s, i, st1.(mver := st.mver[i := v]), p.(at := Drain));
  }

  /** An instance whose machine, like all others it waits for, is there already: restart. */
  lemma KubeletRestart(c: Config, s: State, i: Name, v: Version)
    requires Ready(c, s, i, v) && s.st.running[i] != v && c.cp <= AtVersion(s.st, v)
    requires i in c.cp || c.workers <= AtVersion(s.st, v)
    ensures Leads(c, s, i, s.st.(running := s.st.running[i := v], log := s.st.log + [Restarted(i, v)],
                                 obs := s.st.obs[i := s.st.running[i]]), Idle)
  {
    assert AtVersion(s.st, v) * c.cp == c.cp;
    assert i in c.cp || AtVersion(s.st, v) * c.workers == c.workers;
    ToDecision(c, s, i, v);
    RestartTail(c, s, i, s.st, Look(s.st, i, v, Drain));
  }

  /** An instance whose kubelet is there already: report. */
  lemma Report(c: Config, s: State, i: Name, v: Version)
    requires Ready(c, s, i, v) && s.st.running[i] == v
    ensures Leads(c, s, i, s.st.(obs := s.st.obs[i := v], upgraded := s.st.upgraded + {i}), Idle)
  {
    var p := Run(v, s.st.mver[i], v, {}, Binaries);
    LeadsStart(c, s, i);
    LeadsStep(c, s, i, s.st, Idle, Begin(true));
    LeadsStep(c, s, i, s.st, p, Download(Ok));
    LeadsStep(c, s, i, s.st, p.(at := Kubeadm), ReadMachines({}));
    LeadsStep(c, s, i, s.st, p.(at := Close(true)), CloseScope(Ok));
  }

  // ---------------------------------------------------------------------------------------------
  // The rest of a reconcile in flight
  // ---------------------------------------------------------------------------------------------

  /** How many calls a reconcile has at most before it. */
  function Rank(p: Proc): nat {
    if p.Idle? then 0
    else
      match p.at
      case Binaries => 14
      case Kubeadm => 13
      case Decide => 12
      case Recheck => 11
      case LockGet => 10
      case LockHolder(_) | LockCreate => 9
      case StealGet | JoinGet => 8
      case StealDelete | JoinDelete | Apply => 7
      case JoinNode | WorkerNode | ApplyPatch => 6
      case JoinPatch | WorkerPatch | FreeGet => 5
      case FreeDelete | Drain => 4
      case Restart => 3
      case Close(_) => 2
  }

  /** The next call, without a failure. */
  function NextCall(st: Store, p: Proc): (a: IAction)
    requires p.Run?
    ensures CalmInst(a) && CurrentInst(st, a)
  {
    match p.at
    case Binaries => Download(Ok)
    case Kubeadm => ReadMachines(AtVersion(st, p.ver))
    case Decide => Branch
    case Recheck => Reread(AtVersion(st, p.ver))
    case LockGet => GetLock(true, st.lock)
    case LockHolder(_) => GetHolder(true)
    case LockCreate => CreateLock(Ok)
    case StealGet | FreeGet | JoinGet => GetToUnlock(true, st.lock.Some?)
    case StealDelete | FreeDelete | JoinDelete => DeleteLock(Ok)
    case Apply => UpgradeApply(Ok)
    case JoinNode | WorkerNode => UpgradeNode(Ok)
    case ApplyPatch | JoinPatch | WorkerPatch => PatchMachine(Ok)
    case Drain => DrainNode(true)
    case Restart => RestartKubelet(Ok)
    case Close(_) => CloseScope(Ok)
  }

  lemma NextCallWorks(c: Config, st: Store, i: Name, p: Proc)
    requires i in c.active && Has(st, i) && p.Run?
    ensures InstEnabled(c, st, i, p, NextCall(st, p))
    ensures Rank(NextProc(c, st, i, p, NextCall(st, p))) < Rank(p)
    ensures Has(NextStore(c, st, i, p, NextCall(st, p)), i)
  {
  }

  /** A reconcile in flight ends by its own calls. */
  lemma {:induction false} ToRest(c: Config, s: State, i: Name, st: Store, p: Proc) returns (t: Store)
    requires i in c.active && Has(st, i) && Leads(c, s, i, st, p)
    ensures Leads(c, s, i, t, Idle)
    decreases Rank(p)
  {
    if p.Idle? {
      t := st;
    } else {
      var a := NextCall(st, p);
      NextCallWorks(c, st, i, p);
      LeadsStep(c, s, i, st, p, a);
      t := ToRest(c, s, i, NextStore(c, st, i, p, a), NextProc(c, st, i, p, a));
    }
  }

  // ---------------------------------------------------------------------------------------------
  // The measure
  // ---------------------------------------------------------------------------------------------

  function OldCp(c: Config, st: Store, v: Version): set<Name> {
    set m | m in c.cp && m in st.mver && st.mver[m] != v
  }
  function OldWorkers(c: Config, st: Store, v: Version): set<Name> {
    set m | m in c.workers && m in c.active && m in st.mver && st.mver[m] != v
  }
  function OldKubelets(c: Config, st: Store, v: Version): set<Name> {
    set m | m in c.active && m in st.running && st.running[m] != v
  }
  function Unreported(c: Config, st: Store, v: Version): set<Name> {
    set m | m in c.active && m in st.obs && !(st.obs[m] == v && m in st.upgraded)
  }

  /** Old control planes, then old workers, then old kubelets, then instances that have not reported. */
  ghost predicate Closer(c: Config, st: Store, t: Store, v: Version) {
    || |OldCp(c, t, v)| < |OldCp(c, st, v)|
    || (|OldCp(c, t, v)| == |OldCp(c, st, v)| &&
        (|| |OldWorkers(c, t, v)| < |OldWorkers(c, st, v)|
         || (|OldWorkers(c, t, v)| == |OldWorkers(c, st, v)| &&
             (|| |OldKubelets(c, t, v)| < |OldKubelets(c, st, v)|
              || (|OldKubelets(c, t, v)| == |OldKubelets(c, st, v)| &&
                  |Unreported(c, t, v)| < |Unreported(c, st, v)|)))))
  }

  ghost predicate Same(c: Config, st: Store, t: Store, v: Version) {
    && OldCp(c, t, v) == OldCp(c, st, v) && OldWorkers(c, t, v) == OldWorkers(c, st, v)
    && OldKubelets(c, t, v) == OldKubelets(c, st, v) && Unreported(c, t, v) == Unreported(c, st, v)
  }

  ghost predicate NotFarther(c: Config, st: Store, t: Store, v: Version) {
    && OldCp(c, t, v) <= OldCp(c, st, v) && OldWorkers(c, t, v) <= OldWorkers(c, st, v)
    && OldKubelets(c, t, v) <= OldKubelets(c, st, v) && Unreported(c, t, v) <= Unreported(c, st, v)
  }

  lemma SmallerSet(a: set<Name>, b: set<Name>)
    requires a <= b
    ensures |a| <= |b| && (|a| == |b| ==> a == b)
  {
    if x :| x in b && x !in a {
      assert a <= b - {x};
      SmallerSet(a, b - {x});
    } else {
      assert a == b;
    }
  }

  lemma CloserOrSame(c: Config, st: Store, t: Store, v: Version)
    requires NotFarther(c, st, t, v)
    ensures Closer(c, st, t, v) || Same(c, st, t, v)
  {
    SmallerSet(OldCp(c, t, v), OldCp(c, st, v));
    SmallerSet(OldWorkers(c, t, v), OldWorkers(c, st, v));
    SmallerSet(OldKubelets(c, t, v), OldKubelets(c, st, v));
    SmallerSet(Unreported(c, t, v), Unreported(c, st, v));
  }

  /** The lock does not keep the first control plane out: it is free, or held by an active control plane,
      or its holder does not resolve; or some control plane is at `v`, and the others remove it. */
  ghost predicate LockOpen(c: Config, st: Store, v: Version) {
    st.lock.Some? ==>
      st.lock.value in c.active * c.cp || st.lock.value !in c.machineNames || AtVersion(st, v) * c.cp != {}
  }

  /** All instances are annotated with `v`, the control-plane machines without one are there already, and
      the lock is open.  Reconciles may be in flight. */
  ghost predicate Waiting(c: Config, s: State, v: Version) {
    && Inv(c, s) && !PhaseEmpty(c) && IdleCpAt(c, s.st, v) && LockOpen(c, s.st, v)
    && s.st.target == Some(v) && s.st.ann.Keys == c.active
  }

  // ---------------------------------------------------------------------------------------------
  // What an instance does never leads away from the end
  // ---------------------------------------------------------------------------------------------

  lemma MachinesStay(c: Config, st: Store, t: Store, i: Name, v: Version)
    requires c.Wf() && Shaped(c, st) && i in c.active && Guarantee(c, st, t, i) && i in st.ann && st.ann[i] == v
    ensures AtVersion(st, v) <= AtVersion(t, v) && (IdleCpAt(c, st, v) ==> IdleCpAt(c, t, v))
    ensures OldCp(c, t, v) <= OldCp(c, st, v) && OldWorkers(c, t, v) <= OldWorkers(c, st, v)
    ensures OldKubelets(c, t, v) <= OldKubelets(c, st, v)
  {
  }

  lemma ReportsStay(c: Config, st: Store, t: Store, i: Name, v: Version)
    requires c.Wf() && Shaped(c, st) && i in c.active && Guarantee(c, st, t, i) && i in st.ann && st.ann[i] == v
    requires st.upgraded <= t.upgraded
    ensures Unreported(c, t, v) <= Unreported(c, st, v)
  {
  }

  /** What an action of `i` may do to the lock and to the marks. */
  lemma LockBy(c: Config, st: Store, i: Name, p: Proc, a: IAction)
    requires Has(st, i) && InstOk(c, st, i, p) && InstEnabled(c, st, i, p, a)
    ensures var t := NextStore(c, st, i, p, a);
            && st.upgraded <= t.upgraded
            && (t.lock == st.lock || t.lock.None? || (t.lock == Some(i) && i in c.active * c.cp))
  {
  }

  /** Instance `i` went from `st` to `t`. */
  ghost predicate Onward(c: Config, st: Store, t: Store, v: Version, i: Name) {
    NotFarther(c, st, t, v) && (t.lock == st.lock || t.lock.None? || t.lock == Some(i))
  }

  lemma OnwardTrans(c: Config, st: Store, t: Store, u: Store, v: Version, i: Name)
    requires Onward(c, st, t, v, i) && Onward(c, t, u, v, i)
    ensures Onward(c, st, u, v, i)
  {
  }

  lemma StillWaiting(c: Config, s: State, a: Action, v: Version)
    requires Waiting(c, s, v) && a.Inst? && Enabled(c, s, a)
    ensures Waiting(c, Next(c, s, a), v)
    ensures Onward(c, s.st, Next(c, s, a).st, v, a.i)
  {
    var i := a.i;
    var t := NextStore(c, s.st, i, s.ip[i], a.ia);
    StepKeeps(c, s, a);
    assert HostOk(c, s.st, i);
    InstGuarantee(c, s.st, i, s.ip[i], a.ia);
    LockBy(c, s.st, i, s.ip[i], a.ia);
    MachinesStay(c, s.st, t, i, v);
    ReportsStay(c, s.st, t, i, v);
  }

  lemma {:induction false} SoloInduction(c: Config, s: State, i: Name, run: seq<Action>, p: State -> bool)
    requires IsRun(c, s, run) && Solo(run, i) && p(s)
    requires forall t, a: Action :: p(t) && a.Inst? && a.i == i && Enabled(c, t, a) ==> p(Next(c, t, a))
    ensures p(Exec(c, s, run))
    decreases |run|
  {
    if run != [] {
      SoloInduction(c, Next(c, s, run[0]), i, run[1..], p);
    }
  }

  ghost predicate WaitingOnward(c: Config, st: Store, s: State, v: Version, i: Name) {
    Waiting(c, s, v) && Onward(c, st, s.st, v, i)
  }

  lemma StillOnward(c: Config, st: Store, s: State, a: Action, v: Version)
    requires a.Inst? && Enabled(c, s, a) && WaitingOnward(c, st, s, v, a.i)
    ensures WaitingOnward(c, st, Next(c, s, a), v, a.i)
  {
    StillWaiting(c, s, a, v);
    OnwardTrans(c, st, s.st, Next(c, s, a).st, v, a.i);
  }

  lemma SoloKeeps(c: Config, s: State, i: Name, run: seq<Action>, v: Version)
    requires Waiting(c, s, v) && IsRun(c, s, run) && Solo(run, i)
    ensures Waiting(c, Exec(c, s, run), v) && Onward(c, s.st, Exec(c, s, run).st, v, i)
  {
    var p := (t: State) => WaitingOnward(c, s.st, t, v, i);
    forall t, a: Action | p(t) && a.Inst? && a.i == i && Enabled(c, t, a) ensures p(Next(c, t, a)) {
      StillOnward(c, s.st, t, a, v);
    }
    SoloInduction(c, s, i, run, p);
  }

  lemma LeadsKeeps(c: Config, s: State, i: Name, t: Store, p: Proc, v: Version)
    requires Waiting(c, s, v) && i in c.active && Leads(c, s, i, t, p)
    ensures Waiting(c, State(t, s.cc, s.ip[i := p]), v) && Onward(c, s.st, t, v, i)
  {
    var run :| SoloRun(c, s, i, run, t, p);
    SoloKeeps(c, s, i, run, v);
  }

  // ---------------------------------------------------------------------------------------------
  // Some instance helps
  // ---------------------------------------------------------------------------------------------

  lemma MachineMoves(c: Config, st: Store, t: Store, i: Name, v: Version)
    requires i in st.mver && st.mver[i] != v && i in c.active && i in c.cp + c.workers && c.cp !! c.workers
    requires t.mver == st.mver[i := v]
    ensures Closer(c, st, t, v)
  {
    if i in c.cp {
      assert OldCp(c, t, v) == OldCp(c, st, v) - {i};
    } else {
      assert OldCp(c, t, v) == OldCp(c, st, v);
      assert OldWorkers(c, t, v) == OldWorkers(c, st, v) - {i};
    }
  }

  lemma KubeletMoves(c: Config, st: Store, t: Store, i: Name, v: Version)
    requires i in c.active && i in st.running && st.running[i] != v
    requires t.mver == st.mver && t.running == st.running[i := v]
    ensures Closer(c, st, t, v)
  {
    assert OldCp(c, t, v) == OldCp(c, st, v) && OldWorkers(c, t, v) == OldWorkers(c, st, v);
    assert OldKubelets(c, t, v) == OldKubelets(c, st, v) - {i};
  }

  lemma ReportMoves(c: Config, st: Store, t: Store, i: Name, v: Version)
    requires i in Unreported(c, st, v)
    requires t.mver == st.mver && t.running == st.running && t.obs == st.obs[i := v] && t.upgraded == st.upgraded + {i}
    ensures Closer(c, st, t, v)
  {
    assert OldCp(c, t, v) == OldCp(c, st, v) && OldWorkers(c, t, v) == OldWorkers(c, st, v);
    assert OldKubelets(c, t, v) == OldKubelets(c, st, v);
    assert Unreported(c, t, v) == Unreported(c, st, v) - {i};
  }

  lemma WaitingReady(c: Config, s: State, v: Version, i: Name)
    requires Waiting(c, s, v) && i in c.active && s.ip[i].Idle?
    ensures Ready(c, s, i, v) && i in s.st.mver && (s.st.mver[i] != v ==> s.st.running[i] != v)
  {
    assert HostOk(c, s.st, i);
  }

  /** Instance `i` is the one to go on with. */
  ghost predicate Turn(c: Config, st: Store, v: Version, i: Name) {
    && i in c.active
    && if OldCp(c, st, v) != {} then
         && i in OldCp(c, st, v)
         && (AtVersion(st, v) * c.cp == {} && st.lock.Some? ==> st.lock.value == i || st.lock.value !in c.machineNames)
       else if OldWorkers(c, st, v) != {} then i in OldWorkers(c, st, v)
       else i in Unreported(c, st, v)
  }

  lemma SomeTurn(c: Config, s: State, v: Version) returns (i: Name)
    requires Waiting(c, s, v) && Unreported(c, s.st, v) != {}
    ensures Turn(c, s.st, v, i)
  {
    if OldCp(c, s.st, v) != {} {
      i :| i in OldCp(c, s.st, v);
      if AtVersion(s.st, v) * c.cp == {} && s.st.lock.Some? && s.st.lock.value in c.active * c.cp {
        i := s.st.lock.value;
        assert i !in AtVersion(s.st, v) * c.cp;
      }
    } else if OldWorkers(c, s.st, v) != {} {
      i :| i in OldWorkers(c, s.st, v);
    } else {
      i :| i in Unreported(c, s.st, v);
    }
  }

  lemma FirstProgress(c: Config, s: State, v: Version, i: Name) returns (t: Store)
    requires Waiting(c, s, v) && i in c.active && s.ip[i].Idle? && i in OldCp(c, s.st, v)
    requires AtVersion(s.st, v) * c.cp == {} && (s.st.lock.Some? ==> s.st.lock.value == i)
    ensures Leads(c, s, i, t, Idle) && Closer(c, s.st, t, v)
  {
    WaitingReady(c, s, v, i);
    FirstControlPlane(c, s, i, v);
    t := Locked(s.st, i).(log := s.st.log + [Applied(i, v)], mver := s.st.mver[i := v],
                          obs := s.st.obs[i := s.st.running[i]]);
    MachineMoves(c, s.st, t, i, v);
  }

  lemma StealProgress(c: Config, s: State, v: Version, i: Name) returns (t: Store)
    requires Waiting(c, s, v) && i in c.active && s.ip[i].Idle? && i in OldCp(c, s.st, v)
    requires AtVersion(s.st, v) * c.cp == {} && s.st.lock.Some? && s.st.lock.value != i && s.st.lock.value !in c.machineNames
    ensures Leads(c, s, i, t, Idle) && Waiting(c, State(t, s.cc, s.ip[i := Idle]), v) && NotFarther(c, s.st, t, v)
    ensures t.lock.None? && i in OldCp(c, t, v) && AtVersion(t, v) * c.cp == {}
  {
    WaitingReady(c, s, v, i);
    RemovesLock(c, s, i, v);
    t := s.st.(lock := None, obs := s.st.obs[i := s.st.running[i]]);
    LeadsKeeps(c, s, i, t, Idle, v);
    SameMachines(c, s.st, t, v);
  }

  lemma SameMachines(c: Config, st: Store, t: Store, v: Version)
    requires t.mver == st.mver
    ensures AtVersion(t, v) == AtVersion(st, v) && OldCp(c, t, v) == OldCp(c, st, v)
  {
  }

  /** Without the lock in the way, or after removing it. */
  lemma FirstOrSteal(c: Config, s: State, v: Version, i: Name) returns (t: Store)
    requires Waiting(c, s, v) && i in c.active && s.ip[i].Idle? && i in OldCp(c, s.st, v)
    requires AtVersion(s.st, v) * c.cp == {} && (s.st.lock.Some? ==> s.st.lock.value == i || s.st.lock.value !in c.machineNames)
    ensures Leads(c, s, i, t, Idle) && Closer(c, s.st, t, v)
  {
    if s.st.lock.Some? && s.st.lock.value != i {
      var st1 := StealProgress(c, s, v, i);
      t := FirstProgress(c, State(st1, s.cc, s.ip[i := Idle]), v, i);
      LeadsOn(c, s, i, st1, Idle, t, Idle);
      StillCloser(c, s.st, st1, t, v);
    } else {
      t := FirstProgress(c, s, v, i);
    }
  }

  lemma StillCloser(c: Config, st: Store, t: Store, u: Store, v: Version)
    requires NotFarther(c, st, t, v) && Closer(c, t, u, v)
    ensures Closer(c, st, u, v)
  {
    CloserOrSame(c, st, t, v);
  }

  lemma NextProgress(c: Config, s: State, v: Version, i: Name) returns (t: Store)
    requires Waiting(c, s, v) && i in c.active && s.ip[i].Idle? && i in OldCp(c, s.st, v)
    requires AtVersion(s.st, v) * c.cp != {}
    ensures Leads(c, s, i, t, Idle) && Closer(c, s.st, t, v)
  {
    WaitingReady(c, s, v, i);
    NextControlPlane(c, s, i, v);
    t := s.st.(lock := None, log := s.st.log + [NodeUpgraded(i, v)], mver := s.st.mver[i := v],
               obs := s.st.obs[i := s.st.running[i]]);
    MachineMoves(c, s.st, t, i, v);
  }

  lemma AllCpSeen(c: Config, s: State, v: Version)
    requires Inv(c, s) && OldCp(c, s.st, v) == {}
    ensures c.cp <= AtVersion(s.st, v)
  {
    forall m | m in c.cp ensures m in AtVersion(s.st, v) {
      assert m !in OldCp(c, s.st, v);
    }
  }

  lemma WorkerProgress(c: Config, s: State, v: Version, i: Name) returns (t: Store)
    requires Waiting(c, s, v) && i in c.active && s.ip[i].Idle? && OldCp(c, s.st, v) == {}
    requires s.st.running[i] != v && i in c.workers && !(c.workers <= AtVersion(s.st, v))
    ensures Leads(c, s, i, t, Idle) && Closer(c, s.st, t, v)
  {
    AllCpSeen(c, s, v);
    WaitingReady(c, s, v, i);
    WorkerUpgrade(c, s, i, v);
    t := s.st.(mver := s.st.mver[i := v], running := s.st.running[i := v],
               log := s.st.log + [NodeUpgraded(i, v)] + [Restarted(i, v)], obs := s.st.obs[i := s.st.running[i]]);
    WorkerMoves(c, s.st, t, i, v);
  }

  lemma WorkerMoves(c: Config, st: Store, t: Store, i: Name, v: Version)
    requires i in c.active && i in c.workers && c.cp !! c.workers && i in st.mver && i in st.running && st.running[i] != v
    requires t.mver == st.mver[i := v] && t.running == st.running[i := v]
    ensures Closer(c, st, t, v)
  {
    if st.mver[i] != v {
      MachineMoves(c, st, t, i, v);
    } else {
      assert st.mver[i := v] == st.mver;
      KubeletMoves(c, st, t, i, v);
    }
  }

  lemma KubeletProgress(c: Config, s: State, v: Version, i: Name) returns (t: Store)
    requires Waiting(c, s, v) && i in c.active && s.ip[i].Idle? && OldCp(c, s.st, v) == {}
    requires s.st.running[i] != v && (i in c.cp || c.workers <= AtVersion(s.st, v))
    ensures Leads(c, s, i, t, Idle) && Closer(c, s.st, t, v)
  {
    AllCpSeen(c, s, v);
    WaitingReady(c, s, v, i);
    KubeletRestart(c, s, i, v);
    t := s.st.(running := s.st.running[i := v], log := s.st.log + [Restarted(i, v)],
               obs := s.st.obs[i := s.st.running[i]]);
    KubeletMoves(c, s.st, t, i, v);
  }

  lemma ReportProgress(c: Config, s: State, v: Version, i: Name) returns (t: Store)
    requires Waiting(c, s, v) && i in c.active && s.ip[i].Idle? && s.st.running[i] == v && i in Unreported(c, s.st, v)
    ensures Leads(c, s, i, t, Idle) && Closer(c, s.st, t, v)
  {
    WaitingReady(c, s, v, i);
    Report(c, s, i, v);
    t := s.st.(obs := s.st.obs[i := v], upgraded := s.st.upgraded + {i});
    ReportMoves(c, s.st, t, i, v);
  }

  lemma IdleHelps(c: Config, s: State, v: Version, i: Name) returns (t: Store)
    requires Waiting(c, s, v) && Turn(c, s.st, v, i) && s.ip[i].Idle?
    ensures Leads(c, s, i, t, Idle) && Closer(c, s.st, t, v)
  {
    WaitingReady(c, s, v, i);
    if OldCp(c, s.st, v) != {} {
      if AtVersion(s.st, v) * c.cp == {} {
        t := FirstOrSteal(c, s, v, i);
      } else {
        t := NextProgress(c, s, v, i);
      }
    } else if s.st.running[i] == v {
      t := ReportProgress(c, s, v, i);
    } else if i in c.cp || c.workers <= AtVersion(s.st, v) {
      t := KubeletProgress(c, s, v, i);
    } else {
      t := WorkerProgress(c, s, v, i);
    }
  }

  /** No deadlock.  While some instance has not reported the new version, some instance alone and
      without a failure brings the upgrade strictly closer to its end, whatever the others are doing:
      it ends the reconcile it is in, and if that was not enough its next one does it, or the one
      after if it first has to remove a left-over lock. */
  lemma SomeReconcileHelps(c: Config, s: State, v: Version) returns (i: Name, t: Store)
    requires Waiting(c, s, v) && Unreported(c, s.st, v) != {}
    ensures i in c.active && Leads(c, s, i, t, Idle) && Closer(c, s.st, t, v)
    ensures Waiting(c, State(t, s.cc, s.ip[i := Idle]), v)
  {
    i := SomeTurn(c, s, v);
    LeadsStart(c, s, i);
    var st1 := ToRest(c, s, i, s.st, s.ip[i]);
    LeadsKeeps(c, s, i, st1, Idle, v);
    CloserOrSame(c, s.st, st1, v);
    t := st1;
    if !Closer(c, s.st, st1, v) {
      var s1 := State(st1, s.cc, s.ip[i := Idle]);
      SameNew(c, s.st, st1, v);
      t := IdleHelps(c, s1, v, i);
      LeadsOn(c, s, i, st1, Idle, t, Idle);
      StillCloser(c, s.st, st1, t, v);
      LeadsKeeps(c, s, i, t, Idle, v);
    }
  }

  lemma SameNew(c: Config, st: Store, t: Store, v: Version)
    requires Same(c, st, t, v) && c.cp <= st.mver.Keys && c.cp <= t.mver.Keys
    ensures AtVersion(t, v) * c.cp == AtVersion(st, v) * c.cp
  {
    assert AtVersion(t, v) * c.cp == c.cp - OldCp(c, t, v);
    assert AtVersion(st, v) * c.cp == c.cp - OldCp(c, st, v);
  }

  /** Hence the instances can all reach the new version, without a failure or a crash. */
  lemma {:induction false} AllCanReport(c: Config, s: State, v: Version) returns (run: seq<Action>)
    requires Waiting(c, s, v)
    ensures CalmRun(c, s, run) && Exec(c, s, run).cc == s.cc && forall a :: a in run ==> a.Inst?
    ensures Waiting(c, Exec(c, s, run), v) && Unreported(c, Exec(c, s, run).st, v) == {}
    decreases |OldCp(c, s.st, v)|, |OldWorkers(c, s.st, v)|, |OldKubelets(c, s.st, v)|, |Unreported(c, s.st, v)|
  {
    run := [];
    if Unreported(c, s.st, v) != {} {
      var i, t := SomeReconcileHelps(c, s, v);
      var r1 :| SoloRun(c, s, i, r1, t, Idle);
      var r2 := AllCanReport(c, State(t, s.cc, s.ip[i := Idle]), v);
      CalmConcat(c, s, r1, r2);
      run := r1 + r2;
      assert forall a :: a in r1 ==> a.Inst?;
    }
  }
}

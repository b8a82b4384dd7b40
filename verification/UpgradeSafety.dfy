/** Safety of the in-place upgrade over every run: the invariant of the protocol and the order of the
    commands on the hosts.

    The proof is a rely-guarantee argument: every action of instance `i` keeps to `Guarantee`, every
    action of the cluster controller changes only what it owns, and the invariants of the other
    processes are stable under both.
 */
module UpgradeSafety {
  import opened Common
  import opened UpgradeModel

  /** Host `m` ran a kubeadm upgrade to `v` that took effect. */
  predicate Succeeded(log: seq<Event>, m: Name, v: Version) {
    Applied(m, v) in log || NodeUpgraded(m, v) in log
  }

  ghost predicate AtStart(c: Config, m: Name, v: Version) {
    m in c.base && c.base[m] == v
  }

  /** Machine `m` was at `v` from the start, or its host was upgraded to it. */
  ghost predicate Reached(c: Config, log: seq<Event>, m: Name, v: Version) {
    AtStart(c, m, v) || Succeeded(log, m, v)
  }

  /** What must lie before an event. */
  ghost predicate Justified(c: Config, past: seq<Event>, e: Event) {
    match e
    case Applied(n, v) => n in c.cp
    case NodeUpgraded(n, v) =>
      if n in c.cp then exists m :: m in c.cp && (AtStart(c, m, v) || Applied(m, v) in past)
      else forall m :: m in c.cp ==> Reached(c, past, m, v)
    case Restarted(n, v) => Succeeded(past, n, v) && forall m :: m in c.cp ==> Reached(c, past, m, v)
  }

  ghost predicate Ordered(c: Config, log: seq<Event>) {
    forall k :: 0 <= k < |log| ==> Justified(c, log[..k], log[k])
  }

  lemma OrderedAppend(c: Config, log: seq<Event>, e: Event)
    requires Ordered(c, log) && Justified(c, log, e)
    ensures Ordered(c, log + [e])
  {
    var all := log + [e];
    forall k | 0 <= k < |all| ensures Justified(c, all[..k], all[k]) {
      assert all[..k] == log[..k];
      if k == |log| {
        assert log[..k] == log;
      }
    }
  }

  /** If some control plane is at `v`, some control plane completed `apply` or was there from the start. */
  lemma SuccessNeedsApply(c: Config, log: seq<Event>, m: Name, v: Version)
    requires Ordered(c, log) && m in c.cp && Reached(c, log, m, v)
    ensures exists n :: n in c.cp && (AtStart(c, n, v) || Applied(n, v) in log)
  {
  }

  // ---------------------------------------------------------------------------------------------
  // The invariant
  // ---------------------------------------------------------------------------------------------

  /** Instance `i` is not asked for any version other than `v`. */
  predicate Aimed(st: Store, i: Name, v: Version) {
    i in st.ann ==> st.ann[i] == v
  }

  /** The control-plane machines without an active KKInstance, which nobody upgrades, are at `v`. */
  ghost predicate IdleCpAt(c: Config, st: Store, v: Version) {
    forall m :: m in c.cp && m !in c.active && m in st.mver ==> st.mver[m] == v
  }

  ghost predicate Has(st: Store, i: Name) {
    i in st.mver && i in st.running && i in st.obs
  }

  /** Machine versions are explained by the commands that ran. */
  ghost predicate History(c: Config, st: Store) {
    Ordered(c, st.log) && forall m :: m in st.mver ==> Reached(c, st.log, m, st.mver[m])
  }

  /** An instance that is not asked for another version runs and reports that of its Machine. */
  ghost predicate HostOk(c: Config, st: Store, i: Name) {
    && Has(st, i)
    && (Aimed(st, i, st.running[i]) ==> st.mver[i] == st.running[i])
    && (Aimed(st, i, st.obs[i]) ==> st.running[i] == st.obs[i])
    && (i in st.ann ==>
          && st.target == Some(st.ann[i])
          && (st.mver[i] == st.ann[i] ==> Succeeded(st.log, i, st.ann[i]))
          && (st.running[i] == st.ann[i] ==> IdleCpAt(c, st, st.ann[i])))
  }

  ghost predicate StoreOk(c: Config, st: Store) {
    && c.Wf() && Shaped(c, st) && st.ann.Keys <= c.active
    && History(c, st)
    && (forall i :: i in c.active ==> HostOk(c, st, i))
  }

  /** What a reconcile of instance `i` in flight may count on, wherever it is.  A reconcile that found
      an old kubelet works for the current annotation, and what it saw at the new version is there. */
  ghost predicate Base(st: Store, i: Name, p: Proc)
    requires p.Run? && i in st.mver && i in st.running && i in st.obs
  {
    && ((i in st.ann && st.ann[i] == p.ver) || st.mver[i] == p.ver)
    && (Aimed(st, i, p.seen) ==> st.running[i] == p.seen)
    && (Aimed(st, i, st.obs[i]) ==> p.seen == st.obs[i])
    && (p.seen != p.ver ==> i in st.ann && st.ann[i] == p.ver && p.view <= AtVersion(st, p.ver))
    && (p.seen == p.ver ==> p.at.Binaries? || p.at.Kubeadm? || p.at.Close?)
  }

  /** What it may count on before a particular call. */
  ghost predicate Local(c: Config, st: Store, i: Name, p: Proc)
    requires p.Run? && i in st.mver
  {
    match p.at
    case Recheck | LockGet | LockHolder(_) | LockCreate | Apply => i in c.cp
    case ApplyPatch => i in c.cp && Succeeded(st.log, i, p.ver)
    case JoinGet | JoinDelete | JoinNode => i in c.cp && p.view * c.cp != {}
    case JoinPatch => i in c.cp && p.view * c.cp != {} && Succeeded(st.log, i, p.ver)
    case WorkerNode => i !in c.cp && c.cp <= p.view
    case WorkerPatch => i !in c.cp && c.cp <= p.view && Succeeded(st.log, i, p.ver)
    case Drain | Restart => c.cp <= p.view && st.mver[i] == p.ver && Succeeded(st.log, i, p.ver)
    case _ => true
  }

  ghost predicate InstOk(c: Config, st: Store, i: Name, p: Proc)
    requires i in st.mver && i in st.running && i in st.obs
  {
    p.Run? ==> Base(st, i, p) && Local(c, st, i, p)
  }

  /** Every active instance reports version `v`, and its machine is there. */
  ghost predicate AllAt(c: Config, st: Store, v: Version) {
    forall i :: i in c.active && i in st.mver && i in st.obs ==> st.mver[i] == v && st.obs[i] == v
  }

  ghost predicate ClusterOk(c: Config, st: Store, p: CProc)
    requires st.obs.Keys == c.active
  {
    p.CRun? ==>
      && (p.ver.Some? ==> st.target == p.ver)
      && (p.ver.None? ==> st.ann == map[] && (p.at.Clear? || p.at.Finish?))
      && match p.at
         case Pause => true
         case AnnotateCp(todo) => c.active * c.cp <= st.ann.Keys + todo
         case AnnotateWorkers(todo) => c.active <= st.ann.Keys + todo
         case Check(todo) =>
           c.active <= st.ann.Keys && forall i :: i in c.active && i !in todo ==> Some(st.obs[i]) == p.ver
         case Clear(todo) => st.ann.Keys <= todo && (p.ver.Some? ==> AllAt(c, st, p.ver.value))
         case Finish => st.ann == map[] && (p.ver.Some? ==> AllAt(c, st, p.ver.value))
         case _ => c.active <= st.ann.Keys && AllAt(c, st, p.ver.value)
  }

  /** Without an active control plane or without an active worker the annotation phases fail. */
  ghost predicate PhaseEmpty(c: Config) {
    c.active * c.cp == {} || c.active * c.workers == {}
  }

  /** No loop is entered with nothing to do, and no phase after an empty one. */
  ghost predicate ClusterShape(c: Config, p: CProc) {
    p.CRun? ==>
      match p.at
      case Pause => true
      case Finish => p.ver.Some? ==> !PhaseEmpty(c)
      case AnnotateCp(todo) => todo != {} && todo <= c.active * c.cp
      case AnnotateWorkers(todo) => todo != {} && todo <= c.active * c.workers && c.active * c.cp != {}
      case Check(todo) => todo != {} && todo <= c.active && !PhaseEmpty(c)
      case PatchSets(_, left, _) => left != {} && left <= c.machineSets.Keys && !PhaseEmpty(c)
      case PatchDeployments(left, _) => left != {} && !PhaseEmpty(c)
      case Clear(todo) => todo != {} && todo <= c.active && (p.ver.Some? ==> !PhaseEmpty(c))
      case _ => !PhaseEmpty(c)
  }

  ghost predicate Inv(c: Config, s: State) {
    && StoreOk(c, s.st)
    && s.ip.Keys == c.active
    && (forall i :: i in s.ip ==> InstOk(c, s.st, i, s.ip[i]))
    && ClusterOk(c, s.st, s.cc) && ClusterShape(c, s.cc)
  }

  // ---------------------------------------------------------------------------------------------
  // Actions of an instance
  // ---------------------------------------------------------------------------------------------

  /** What an action of instance `i` may do to the store. */
  ghost predicate Guarantee(c: Config, st: Store, t: Store, i: Name)
    requires i in c.active && c.Wf() && Shaped(c, st)
  {
    && t.paused == st.paused && t.target == st.target && t.ann == st.ann && t.over == st.over && Shaped(c, t)
    && st.log <= t.log && Ordered(c, t.log)
    && (forall m :: m in c.cp + c.workers && m != i ==> t.mver[m] == st.mver[m])
    && (forall m :: m in c.active && m != i ==> t.running[m] == st.running[m] && t.obs[m] == st.obs[m])
    && (t.mver[i] == st.mver[i] ||
        (i in st.ann && st.ann[i] == t.mver[i] && Succeeded(t.log, i, t.mver[i])))
    && (t.running[i] == st.running[i] || (t.mver[i] == t.running[i] && IdleCpAt(c, st, t.running[i])))
    && (t.obs[i] == st.obs[i] || !Aimed(st, i, t.obs[i]) || t.running[i] == t.obs[i])
    && (Aimed(st, i, st.obs[i]) ==> t.obs[i] == st.obs[i])
    && (Aimed(st, i, st.running[i]) ==> t.running[i] == st.running[i])
    && (Aimed(st, i, st.mver[i]) ==> t.mver[i] == st.mver[i])
  }

  lemma SucceededGrows(log: seq<Event>, log': seq<Event>, m: Name, v: Version)
    requires log <= log' && Succeeded(log, m, v)
    ensures Succeeded(log', m, v)
  {
  }

  lemma HistoryStable(c: Config, st: Store, t: Store, i: Name)
    requires i in c.active && c.Wf() && Shaped(c, st) && Guarantee(c, st, t, i) && History(c, st)
    ensures History(c, t)
  {
    forall m, v | Succeeded(st.log, m, v) ensures Succeeded(t.log, m, v) {
      SucceededGrows(st.log, t.log, m, v);
    }
  }

  lemma HostStable(c: Config, st: Store, t: Store, i: Name, j: Name)
    requires i in c.active && c.Wf() && Shaped(c, st) && Guarantee(c, st, t, i) && j in c.active && HostOk(c, st, j)
    ensures HostOk(c, t, j)
  {
    if j in st.ann && Succeeded(st.log, j, st.ann[j]) {
      SucceededGrows(st.log, t.log, j, st.ann[j]);
    }
  }

  lemma StoreStable(c: Config, st: Store, t: Store, i: Name)
    requires StoreOk(c, st) && i in c.active && Guarantee(c, st, t, i)
    ensures StoreOk(c, t)
  {
    HistoryStable(c, st, t, i);
    forall j | j in c.active ensures HostOk(c, t, j) {
      HostStable(c, st, t, i, j);
    }
  }

  lemma OtherStable(c: Config, st: Store, t: Store, i: Name, j: Name, p: Proc)
    requires i in c.active && c.Wf() && Shaped(c, st) && Guarantee(c, st, t, i)
    requires j != i && j in c.active && HostOk(c, st, j) && HostOk(c, st, i) && InstOk(c, st, j, p)
    ensures InstOk(c, t, j, p)
  {
    if p.Run? && Succeeded(st.log, j, p.ver) {
      SucceededGrows(st.log, t.log, j, p.ver);
    }
  }

  lemma ClusterStable(c: Config, st: Store, t: Store, p: CProc)
    requires st.obs.Keys == t.obs.Keys == c.active && st.mver.Keys == t.mver.Keys && ClusterOk(c, st, p)
    requires t.target == st.target && t.ann == st.ann
    requires forall m :: m in c.active && st.target == Some(st.obs[m]) ==> t.obs[m] == st.obs[m]
    requires forall m :: m in c.active && m in st.mver && st.target == Some(st.mver[m]) ==> t.mver[m] == st.mver[m]
    ensures ClusterOk(c, t, p)
  {
  }

  lemma AppendGuarantee(c: Config, st: Store, i: Name, e: Event)
    requires c.Wf() && Shaped(c, st) && Ordered(c, st.log) && i in c.active && Justified(c, st.log, e)
    ensures Guarantee(c, st, st.(log := st.log + [e]), i)
  {
    OrderedAppend(c, st.log, e);
  }

  /** Past its first look, a reconcile works for the current annotation, and what it saw is there. */
  lemma Working(c: Config, st: Store, i: Name, p: Proc)
    requires Has(st, i) && InstOk(c, st, i, p) && p.Run? && !p.at.Binaries? && !p.at.Kubeadm? && !p.at.Close?
    ensures i in st.ann && st.ann[i] == p.ver && p.view <= AtVersion(st, p.ver)
  {
  }

  /** What a reconcile saw at the new version justifies its commands. */
  lemma ViewReached(c: Config, st: Store, view: set<Name>, v: Version)
    requires view <= AtVersion(st, v) && History(c, st)
    ensures forall m :: m in view ==> Reached(c, st.log, m, v)
  {
  }

  lemma NodeJustified(c: Config, st: Store, i: Name, view: set<Name>, v: Version)
    requires view <= AtVersion(st, v) && History(c, st)
    requires if i in c.cp then view * c.cp != {} else c.cp <= view
    ensures Justified(c, st.log, NodeUpgraded(i, v))
  {
    ViewReached(c, st, view, v);
    if i in c.cp {
      var m :| m in view * c.cp;
      SuccessNeedsApply(c, st.log, m, v);
    }
  }

  lemma NodeGuarantee(c: Config, st: Store, i: Name, p: Proc)
    requires c.Wf() && Shaped(c, st) && History(c, st) && i in c.active && InstOk(c, st, i, p)
    requires At(p, JoinNode) || At(p, WorkerNode)
    ensures Guarantee(c, st, st.(log := st.log + [NodeUpgraded(i, p.ver)]), i)
  {
    Working(c, st, i, p);
    NodeJustified(c, st, i, p.view, p.ver);
    AppendGuarantee(c, st, i, NodeUpgraded(i, p.ver));
  }

  lemma RestartChange(c: Config, st: Store, i: Name, v: Version)
    requires i in c.active && c.Wf() && Shaped(c, st) && st.mver[i] == v && IdleCpAt(c, st, v)
    requires Ordered(c, st.log + [Restarted(i, v)]) && (Aimed(st, i, st.running[i]) ==> st.running[i] == v)
    ensures Guarantee(c, st, st.(running := st.running[i := v], log := st.log + [Restarted(i, v)]), i)
  {
  }

  lemma RestartJustified(c: Config, st: Store, i: Name, view: set<Name>, v: Version)
    requires c.cp <= view <= AtVersion(st, v) && History(c, st) && Succeeded(st.log, i, v)
    ensures Ordered(c, st.log + [Restarted(i, v)]) && IdleCpAt(c, st, v)
  {
    ViewReached(c, st, view, v);
    OrderedAppend(c, st.log, Restarted(i, v));
  }

  lemma RestartGuarantee(c: Config, st: Store, i: Name, p: Proc)
    requires c.Wf() && Shaped(c, st) && History(c, st) && i in c.active && HostOk(c, st, i)
    requires InstOk(c, st, i, p) && At(p, Restart)
    ensures Guarantee(c, st, st.(running := st.running[i := p.ver], log := st.log + [Restarted(i, p.ver)]), i)
  {
    RestartFacts(c, st, i, p);
    RestartJustified(c, st, i, p.view, p.ver);
    RestartChange(c, st, i, p.ver);
  }

  lemma RestartFacts(c: Config, st: Store, i: Name, p: Proc)
    requires HostOk(c, st, i) && InstOk(c, st, i, p) && At(p, Restart)
    ensures c.cp <= p.view <= AtVersion(st, p.ver) && st.mver[i] == p.ver && Succeeded(st.log, i, p.ver)
    ensures Aimed(st, i, st.running[i]) ==> st.running[i] == p.ver
  {
  }

  lemma MachineChange(c: Config, st: Store, i: Name, v: Version)
    requires i in c.active && c.Wf() && Shaped(c, st) && Ordered(c, st.log) && Succeeded(st.log, i, v)
    requires st.mver[i] == v || (i in st.ann && st.ann[i] == v)
    ensures Guarantee(c, st, st.(mver := st.mver[i := v]), i)
  {
  }

  lemma PatchGuarantee(c: Config, st: Store, i: Name, p: Proc)
    requires c.Wf() && Shaped(c, st) && Ordered(c, st.log) && i in c.active && InstOk(c, st, i, p)
    requires At(p, ApplyPatch) || At(p, JoinPatch) || At(p, WorkerPatch)
    ensures Guarantee(c, st, st.(mver := st.mver[i := p.ver]), i)
  {
    MachineChange(c, st, i, p.ver);
  }

  lemma StatusGuarantee(c: Config, st: Store, i: Name, v: Version, upgraded: set<Name>)
    requires StoreOk(c, st) && i in c.active
    requires Aimed(st, i, v) ==> st.running[i] == v
    requires Aimed(st, i, st.obs[i]) ==> v == st.obs[i]
    ensures Guarantee(c, st, st.(obs := st.obs[i := v], upgraded := upgraded), i)
  {
  }

  lemma LockGuarantee(c: Config, st: Store, i: Name, l: Option<Name>, ls: set<Name>)
    requires StoreOk(c, st) && i in c.active
    ensures Guarantee(c, st, st.(lock := l, locks := ls), i)
  {
  }

  lemma EffectGuarantee(c: Config, st: Store, i: Name, p: Proc, a: IAction)
    requires StoreOk(c, st) && i in c.active && InstOk(c, st, i, p) && InstEnabled(c, st, i, p, a)
    requires NextStore(c, st, i, p, a) != st
    ensures Guarantee(c, st, NextStore(c, st, i, p, a), i)
  {
    if a.UpgradeApply? {
      AppendGuarantee(c, st, i, Applied(i, p.ver));
    } else if a.UpgradeNode? {
      NodeGuarantee(c, st, i, p);
    } else if a.RestartKubelet? {
      RestartGuarantee(c, st, i, p);
    } else if a.PatchMachine? {
      PatchGuarantee(c, st, i, p);
    } else if a.Observe? {
      StatusGuarantee(c, st, i, st.running[i], st.upgraded);
    } else if a.CloseScope? {
      StatusGuarantee(c, st, i, p.seen, NextStore(c, st, i, p, a).upgraded);
    } else {
      LockGuarantee(c, st, i, NextStore(c, st, i, p, a).lock, NextStore(c, st, i, p, a).locks);
    }
  }

  lemma InstGuarantee(c: Config, st: Store, i: Name, p: Proc, a: IAction)
    requires StoreOk(c, st) && i in c.active && InstOk(c, st, i, p) && InstEnabled(c, st, i, p, a)
    ensures Guarantee(c, st, NextStore(c, st, i, p, a), i)
  {
    if NextStore(c, st, i, p, a) != st {
      EffectGuarantee(c, st, i, p, a);
    } else {
      LockGuarantee(c, st, i, st.lock, st.locks);
    }
  }

  lemma BeginKeeps(c: Config, st: Store, i: Name, current: bool)
    requires HostOk(c, st, i) && i in c.active && i in st.ann
    ensures InstOk(c, st, i, NextProc(c, st, i, Idle, Begin(current)))
  {
  }

  lemma BranchKeeps(c: Config, st: Store, i: Name, p: Proc)
    requires c.Wf() && i in c.active && HostOk(c, st, i) && InstOk(c, st, i, p) && At(p, Decide)
    ensures InstOk(c, st, i, p.(at := Choose(c, i, p)))
  {
  }

  lemma LookKeeps(c: Config, st: Store, i: Name, p: Proc, w: set<Name>)
    requires Has(st, i) && InstOk(c, st, i, p) && InstEnabled(c, st, i, p, ReadMachines(w))
    ensures InstOk(c, NextStore(c, st, i, p, ReadMachines(w)), i, NextProc(c, st, i, p, ReadMachines(w)))
  {
  }

  lemma GetLockKeeps(c: Config, st: Store, i: Name, p: Proc, ok: bool, seen: Option<Name>)
    requires Has(st, i) && InstOk(c, st, i, p) && InstEnabled(c, st, i, p, GetLock(ok, seen))
    ensures InstOk(c, NextStore(c, st, i, p, GetLock(ok, seen)), i, NextProc(c, st, i, p, GetLock(ok, seen)))
  {
  }

  lemma HolderKeeps(c: Config, st: Store, i: Name, p: Proc, ok: bool)
    requires Has(st, i) && InstOk(c, st, i, p) && InstEnabled(c, st, i, p, GetHolder(ok))
    ensures InstOk(c, NextStore(c, st, i, p, GetHolder(ok)), i, NextProc(c, st, i, p, GetHolder(ok)))
  {
  }

  lemma CreateKeeps(c: Config, st: Store, i: Name, p: Proc, f: Fault)
    requires Has(st, i) && InstOk(c, st, i, p) && InstEnabled(c, st, i, p, CreateLock(f))
    ensures InstOk(c, NextStore(c, st, i, p, CreateLock(f)), i, NextProc(c, st, i, p, CreateLock(f)))
  {
  }

  lemma UnlockGetKeeps(c: Config, st: Store, i: Name, p: Proc, ok: bool, found: bool)
    requires Has(st, i) && InstOk(c, st, i, p) && InstEnabled(c, st, i, p, GetToUnlock(ok, found))
    ensures InstOk(c, NextStore(c, st, i, p, GetToUnlock(ok, found)), i, NextProc(c, st, i, p, GetToUnlock(ok, found)))
  {
  }

  lemma DeleteKeeps(c: Config, st: Store, i: Name, p: Proc, f: Fault)
    requires Has(st, i) && InstOk(c, st, i, p) && InstEnabled(c, st, i, p, DeleteLock(f))
    ensures InstOk(c, NextStore(c, st, i, p, DeleteLock(f)), i, NextProc(c, st, i, p, DeleteLock(f)))
  {
  }

  lemma ApplyKeeps(c: Config, st: Store, i: Name, p: Proc, f: Fault)
    requires Has(st, i) && InstOk(c, st, i, p) && InstEnabled(c, st, i, p, UpgradeApply(f))
    ensures InstOk(c, NextStore(c, st, i, p, UpgradeApply(f)), i, NextProc(c, st, i, p, UpgradeApply(f)))
  {
  }

  lemma NodeKeeps(c: Config, st: Store, i: Name, p: Proc, f: Fault)
    requires Has(st, i) && InstOk(c, st, i, p) && InstEnabled(c, st, i, p, UpgradeNode(f))
    ensures InstOk(c, NextStore(c, st, i, p, UpgradeNode(f)), i, NextProc(c, st, i, p, UpgradeNode(f)))
  {
  }

  lemma MachineKeeps(c: Config, st: Store, i: Name, p: Proc, f: Fault)
    requires Has(st, i) && InstOk(c, st, i, p) && InstEnabled(c, st, i, p, PatchMachine(f))
    requires Aimed(st, i, st.running[i]) ==> st.mver[i] == st.running[i]
    ensures InstOk(c, NextStore(c, st, i, p, PatchMachine(f)), i, NextProc(c, st, i, p, PatchMachine(f)))
  {
  }

  lemma KubeletKeeps(c: Config, st: Store, i: Name, p: Proc, f: Fault)
    requires Has(st, i) && InstOk(c, st, i, p) && InstEnabled(c, st, i, p, RestartKubelet(f))
    requires Aimed(st, i, st.running[i]) ==> st.mver[i] == st.running[i]
    ensures InstOk(c, NextStore(c, st, i, p, RestartKubelet(f)), i, NextProc(c, st, i, p, RestartKubelet(f)))
  {
  }

  lemma QuietKeeps(c: Config, st: Store, i: Name, p: Proc, a: IAction)
    requires Has(st, i) && InstOk(c, st, i, p) && InstEnabled(c, st, i, p, a)
    requires a.Download? || a.Reread? || a.DrainNode?
    ensures InstOk(c, NextStore(c, st, i, p, a), i, NextProc(c, st, i, p, a))
  {
  }

  lemma InstKeeps(c: Config, st: Store, i: Name, p: Proc, a: IAction)
    requires c.Wf() && HostOk(c, st, i) && i in c.active && InstOk(c, st, i, p) && InstEnabled(c, st, i, p, a)
    ensures InstOk(c, NextStore(c, st, i, p, a), i, NextProc(c, st, i, p, a))
  {
    match a
    case Observe | CloseScope(_) =>
    case Begin(current) => BeginKeeps(c, st, i, current);
    case ReadMachines(w) => LookKeeps(c, st, i, p, w);
    case Branch => BranchKeeps(c, st, i, p);
    case GetLock(ok, seen) => GetLockKeeps(c, st, i, p, ok, seen);
    case GetHolder(ok) => HolderKeeps(c, st, i, p, ok);
    case CreateLock(f) => CreateKeeps(c, st, i, p, f);
    case GetToUnlock(ok, found) => UnlockGetKeeps(c, st, i, p, ok, found);
    case DeleteLock(f) => DeleteKeeps(c, st, i, p, f);
    case UpgradeApply(f) => ApplyKeeps(c, st, i, p, f);
    case UpgradeNode(f) => NodeKeeps(c, st, i, p, f);
    case PatchMachine(f) => MachineKeeps(c, st, i, p, f);
    case RestartKubelet(f) => KubeletKeeps(c, st, i, p, f);
    case Download(_) | Reread(_) | DrainNode(_) => QuietKeeps(c, st, i, p, a);
  }

  lemma InstStep(c: Config, s: State, i: Name, a: IAction)
    requires Inv(c, s) && Enabled(c, s, Inst(i, a))
    ensures Inv(c, Next(c, s, Inst(i, a)))
  {
    var t := Next(c, s, Inst(i, a));
    InstGuarantee(c, s.st, i, s.ip[i], a);
    InstKeeps(c, s.st, i, s.ip[i], a);
    AllStable(c, s, t.st, i, t.ip[i]);
  }

  lemma AllStable(c: Config, s: State, t: Store, i: Name, q: Proc)
    requires Inv(c, s) && i in c.active && Guarantee(c, s.st, t, i) && InstOk(c, t, i, q)
    ensures Inv(c, State(t, s.cc, s.ip[i := q]))
  {
    StoreStable(c, s.st, t, i);
    ClusterToo(c, s, t, i);
    InstsStable(c, s, t, i);
    Together(c, s.ip, s.cc, t, i, q);
  }

  lemma Together(c: Config, ip: map<Name, Proc>, cc: CProc, t: Store, i: Name, q: Proc)
    requires StoreOk(c, t) && ip.Keys == c.active && i in c.active && ClusterOk(c, t, cc) && ClusterShape(c, cc)
    requires InstOk(c, t, i, q) && forall j :: j in c.active && j != i ==> InstOk(c, t, j, ip[j])
    ensures Inv(c, State(t, cc, ip[i := q]))
  {
  }

  lemma ClusterToo(c: Config, s: State, t: Store, i: Name)
    requires Inv(c, s) && i in c.active && Guarantee(c, s.st, t, i)
    ensures ClusterOk(c, t, s.cc)
  {
    assert HostOk(c, s.st, i);
    ReportsStable(c, s.st, t, i);
    ClusterStable(c, s.st, t, s.cc);
  }

  lemma InstsStable(c: Config, s: State, t: Store, i: Name)
    requires Inv(c, s) && i in c.active && Guarantee(c, s.st, t, i)
    ensures forall j :: j in c.active && j != i ==> InstOk(c, t, j, s.ip[j])
  {
    forall j | j in c.active && j != i ensures InstOk(c, t, j, s.ip[j]) {
      assert HostOk(c, s.st, i) && HostOk(c, s.st, j) && InstOk(c, s.st, j, s.ip[j]);
      OtherStable(c, s.st, t, i, j, s.ip[j]);
    }
  }

  lemma ReportsStable(c: Config, st: Store, t: Store, i: Name)
    requires i in c.active && c.Wf() && Shaped(c, st) && Guarantee(c, st, t, i) && HostOk(c, st, i)
    ensures forall m :: m in c.active && st.target == Some(st.obs[m]) ==> t.obs[m] == st.obs[m]
    ensures forall m :: m in c.active && st.target == Some(st.mver[m]) ==> t.mver[m] == st.mver[m]
  {
  }

  // ---------------------------------------------------------------------------------------------
  // Actions of the cluster controller
  // ---------------------------------------------------------------------------------------------

  lemma ReportedAllAt(c: Config, st: Store, v: Version)
    requires StoreOk(c, st) && st.target == Some(v) && forall i :: i in c.active ==> st.obs[i] == v
    ensures AllAt(c, st, v)
  {
  }

  lemma CheckKeeps(c: Config, st: Store, p: CProc, n: Name)
    requires StoreOk(c, st) && ClusterOk(c, st, p) && CEnabled(c, st, p, CheckInstance(n))
    ensures ClusterOk(c, st, CNextProc(c, st, p, CheckInstance(n)))
  {
    if PassesCheck(st, n) && p.at.todo == {n} {
      ReportedAllAt(c, st, p.ver.value);
    }
  }

  lemma OwnedHost(c: Config, st: Store, over: map<Owner, Version>, i: Name, p: Proc)
    requires HostOk(c, st, i) && InstOk(c, st, i, p)
    ensures HostOk(c, st.(over := over), i) && InstOk(c, st.(over := over), i, p)
  {
  }

  lemma OwnersNext(c: Config, st: Store, p: CProc, a: CAction)
    requires st.obs.Keys == c.active && ClusterOk(c, st, p) && CEnabled(c, st, p, a)
    requires a.PatchControlPlane? || a.PatchSet? || a.PatchDeployment?
    ensures ClusterOk(c, CNextStore(c, st, p, a), CNextProc(c, st, p, a))
  {
    OwnersPoint(c, st, p, a);
    assert CNextStore(c, st, p, a) == st.(over := CNextStore(c, st, p, a).over);
  }

  lemma OwnersPoint(c: Config, st: Store, p: CProc, a: CAction)
    requires CEnabled(c, st, p, a) && (a.PatchControlPlane? || a.PatchSet? || a.PatchDeployment?)
    ensures var q := CNextProc(c, st, p, a);
            q.CIdle? || (q.ver == p.ver && (q.at.PatchSets? || q.at.PatchDeployments? || q.at.Unpause?))
  {
  }

  lemma OwnerKeys(c: Config, st: Store, p: CProc, a: CAction)
    requires Shaped(c, st) && CEnabled(c, st, p, a)
    requires a.PatchControlPlane? || a.PatchSet? || a.PatchDeployment?
    ensures var t := CNextStore(c, st, p, a); t == st.(over := t.over) && t.over.Keys == st.over.Keys
  {
    assert a.PatchSet? && SetTouched(c, a.ms, p.at.view) ==> a.ms in c.machineSets;
    assert a.PatchDeployment? && DeploymentTouched(c, a.md, p.at.patched) ==> a.md in c.deployments;
  }

  lemma OwnerStep(c: Config, s: State, a: CAction)
    requires Inv(c, s) && Enabled(c, s, Cluster(a))
    requires a.PatchControlPlane? || a.PatchSet? || a.PatchDeployment?
    ensures Inv(c, Next(c, s, Cluster(a)))
  {
    var t := CNextStore(c, s.st, s.cc, a);
    OwnerKeys(c, s.st, s.cc, a);
    forall i | i in c.active ensures HostOk(c, t, i) && InstOk(c, t, i, s.ip[i]) {
      OwnedHost(c, s.st, t.over, i, s.ip[i]);
    }
    OwnersNext(c, s.st, s.cc, a);
    ClusterKeeps(c, s, a, t);
  }

  lemma ShapeKeeps(c: Config, st: Store, p: CProc, a: CAction)
    requires c.Wf() && ClusterShape(c, p) && CEnabled(c, st, p, a)
    ensures ClusterShape(c, CNextProc(c, st, p, a))
  {
  }

  /** The cluster controller changes nothing that belongs to a host. */
  ghost predicate SameHosts(st: Store, t: Store) {
    t.mver == st.mver && t.running == st.running && t.obs == st.obs && t.log == st.log && t.over.Keys == st.over.Keys
  }

  lemma ClusterKeeps(c: Config, s: State, a: CAction, t: Store)
    requires Inv(c, s) && CEnabled(c, s.st, s.cc, a) && t == CNextStore(c, s.st, s.cc, a)
    requires SameHosts(s.st, t) && t.ann.Keys <= c.active
    requires forall i :: i in c.active ==> HostOk(c, t, i) && InstOk(c, t, i, s.ip[i])
    requires ClusterOk(c, t, CNextProc(c, s.st, s.cc, a))
    ensures Inv(c, Next(c, s, Cluster(a)))
  {
    ShapeKeeps(c, s.st, s.cc, a);
  }

  lemma PausedHost(c: Config, st: Store, paused: bool, i: Name, p: Proc)
    requires HostOk(c, st, i) && InstOk(c, st, i, p)
    ensures HostOk(c, st.(paused := paused), i) && InstOk(c, st.(paused := paused), i, p)
  {
  }

  lemma PauseStep(c: Config, s: State, a: CAction)
    requires Inv(c, s) && Enabled(c, s, Cluster(a)) && (a.SetPaused? || a.SetUnpaused?)
    ensures Inv(c, Next(c, s, Cluster(a)))
  {
    var t, q := CNextStore(c, s.st, s.cc, a), CNextProc(c, s.st, s.cc, a);
    assert t == s.st.(paused := t.paused);
    forall i | i in c.active ensures HostOk(c, t, i) && InstOk(c, t, i, s.ip[i]) {
      PausedHost(c, s.st, t.paused, i, s.ip[i]);
    }
    PauseOnward(c, s.st, s.cc, a);
    ClusterKeeps(c, s, a, t);
  }

  lemma PauseOnward(c: Config, st: Store, p: CProc, a: CAction)
    requires st.obs.Keys == c.active && st.ann.Keys <= c.active && ClusterOk(c, st, p) && ClusterShape(c, p)
    requires CEnabled(c, st, p, a) && (a.SetPaused? || a.SetUnpaused?)
    ensures ClusterOk(c, CNextStore(c, st, p, a), CNextProc(c, st, p, a))
  {
    if a.SetUnpaused? {
      LoopClearOk(c, CNextStore(c, st, p, a), p.ver, c.active);
    }
  }

  /** An instance that gets an annotation reports, runs and has the Machine of another version. */
  lemma AnnotatedHost(c: Config, st: Store, n: Name, v: Version, i: Name, p: Proc)
    requires HostOk(c, st, i) && InstOk(c, st, i, p) && HostOk(c, st, n)
    requires n !in st.ann && st.obs[n] != v && st.target == Some(v)
    ensures HostOk(c, st.(ann := st.ann[n := v]), i) && InstOk(c, st.(ann := st.ann[n := v]), i, p)
  {
  }

  lemma AnnotateKeeps(c: Config, st: Store, p: CProc, n: Name, f: Fault)
    requires c.Wf() && st.obs.Keys == c.active && ClusterOk(c, st, p) && CEnabled(c, st, p, Annotate(n, f))
    ensures ClusterOk(c, CNextStore(c, st, p, Annotate(n, f)), CNextProc(c, st, p, Annotate(n, f)))
  {
    var t, q := CNextStore(c, st, p, Annotate(n, f)), CNextProc(c, st, p, Annotate(n, f));
    assert t == st.(ann := t.ann) && st.ann.Keys <= t.ann.Keys;
    if q.CRun? {
      assert n in t.ann;
      LoopAnnotateOk(c, t, p.ver, p.at, p.at.todo - {n});
    }
  }

  lemma LoopAnnotateOk(c: Config, st: Store, ver: Option<Version>, at: CPoint, todo: set<Name>)
    requires c.Wf() && st.obs.Keys == c.active && ver.Some? && st.target == ver
    requires at.AnnotateCp? || at.AnnotateWorkers?
    requires if at.AnnotateCp? then c.active * c.cp <= st.ann.Keys + todo else c.active <= st.ann.Keys + todo
    ensures ClusterOk(c, st, LoopAnnotate(c, ver, at, todo))
  {
  }

  lemma AnnotateStep(c: Config, s: State, n: Name, f: Fault)
    requires Inv(c, s) && Enabled(c, s, Cluster(Annotate(n, f)))
    ensures Inv(c, Next(c, s, Cluster(Annotate(n, f))))
  {
    var t := CNextStore(c, s.st, s.cc, Annotate(n, f));
    forall i | i in c.active ensures HostOk(c, t, i) && InstOk(c, t, i, s.ip[i]) {
      if t != s.st {
        AnnotatedHost(c, s.st, n, s.cc.ver.value, i, s.ip[i]);
      }
    }
    AnnotateKeeps(c, s.st, s.cc, n, f);
    ClusterKeeps(c, s, Annotate(n, f), t);
  }

  /** An instance that loses its annotation has reported the version. */
  lemma ClearedHost(c: Config, st: Store, n: Name, i: Name, p: Proc)
    requires n in st.ann && n in st.obs && st.obs[n] == st.ann[n] && HostOk(c, st, i) && InstOk(c, st, i, p)
    ensures HostOk(c, st.(ann := st.ann - {n}), i) && InstOk(c, st.(ann := st.ann - {n}), i, p)
  {
  }

  lemma ClearHost(c: Config, st: Store, cc: CProc, n: Name, f: Fault, i: Name, p: Proc)
    requires st.obs.Keys == c.active && ClusterOk(c, st, cc) && CEnabled(c, st, cc, ClearAnnotation(n, f))
    requires st.mver.Keys >= c.active && (n in st.ann ==> n in c.active && HostOk(c, st, n))
    requires HostOk(c, st, i) && InstOk(c, st, i, p)
    ensures var t := CNextStore(c, st, cc, ClearAnnotation(n, f)); HostOk(c, t, i) && InstOk(c, t, i, p)
  {
    if n in st.ann && TookEffect(f) {
      ClearedHost(c, st, n, i, p);
    } else {
      assert st.ann - {n} == st.ann || !TookEffect(f);
    }
  }

  lemma ClearKeeps(c: Config, st: Store, p: CProc, n: Name, f: Fault)
    requires st.obs.Keys == c.active && ClusterOk(c, st, p) && CEnabled(c, st, p, ClearAnnotation(n, f))
    ensures ClusterOk(c, CNextStore(c, st, p, ClearAnnotation(n, f)), CNextProc(c, st, p, ClearAnnotation(n, f)))
  {
    if n !in st.ann || f.Ok? {
      var t := CNextStore(c, st, p, ClearAnnotation(n, f));
      LoopClearOk(c, t, p.ver, p.at.todo - {n});
    }
  }

  lemma LoopClearOk(c: Config, st: Store, ver: Option<Version>, todo: set<Name>)
    requires st.obs.Keys == c.active && st.ann.Keys <= todo
    requires if ver.Some? then st.target == ver && AllAt(c, st, ver.value) else st.ann == map[]
    ensures ClusterOk(c, st, LoopClear(ver, todo))
  {
  }

  lemma ClearStep(c: Config, s: State, n: Name, f: Fault)
    requires Inv(c, s) && Enabled(c, s, Cluster(ClearAnnotation(n, f)))
    ensures Inv(c, Next(c, s, Cluster(ClearAnnotation(n, f))))
  {
    var t := CNextStore(c, s.st, s.cc, ClearAnnotation(n, f));
    forall i | i in c.active ensures HostOk(c, t, i) && InstOk(c, t, i, s.ip[i]) {
      ClearHost(c, s.st, s.cc, n, f, i, s.ip[i]);
    }
    ClearKeeps(c, s.st, s.cc, n, f);
    ClusterKeeps(c, s, ClearAnnotation(n, f), t);
  }

  /** A request without annotations, set or removed. */
  lemma RetargetedHost(c: Config, st: Store, target: Option<Version>, i: Name, p: Proc)
    requires st.ann == map[] && HostOk(c, st, i) && InstOk(c, st, i, p)
    ensures HostOk(c, st.(target := target), i) && InstOk(c, st.(target := target), i, p)
  {
  }

  lemma FinishStep(c: Config, s: State, f: Fault)
    requires Inv(c, s) && Enabled(c, s, Cluster(ClearRequest(f)))
    ensures Inv(c, Next(c, s, Cluster(ClearRequest(f))))
  {
    var t := CNextStore(c, s.st, s.cc, ClearRequest(f));
    assert t == s.st.(target := t.target);
    FinishedHosts(c, s, t.target);
    ClusterKeeps(c, s, ClearRequest(f), t);
  }

  lemma FinishedHosts(c: Config, s: State, target: Option<Version>)
    requires Inv(c, s) && s.st.ann == map[]
    ensures forall i :: i in c.active ==> HostOk(c, s.st.(target := target), i) && InstOk(c, s.st.(target := target), i, s.ip[i])
  {
    forall i | i in c.active
      ensures HostOk(c, s.st.(target := target), i) && InstOk(c, s.st.(target := target), i, s.ip[i])
    {
      RetargetedHost(c, s.st, target, i, s.ip[i]);
    }
  }

  lemma ClusterStep(c: Config, s: State, a: CAction)
    requires Inv(c, s) && Enabled(c, s, Cluster(a))
    ensures Inv(c, Next(c, s, Cluster(a)))
  {
    match a
    case CBegin | CList(_) => ShapeKeeps(c, s.st, s.cc, a);
    case SetPaused(_, _) | SetUnpaused(_, _) => PauseStep(c, s, a);
    case Annotate(n, f) => AnnotateStep(c, s, n, f);
    case CheckInstance(n) => CheckKeeps(c, s.st, s.cc, n); ShapeKeeps(c, s.st, s.cc, a);
    case ClearAnnotation(n, f) => ClearStep(c, s, n, f);
    case ClearRequest(f) => FinishStep(c, s, f);
    case PatchControlPlane(_, _) | PatchSet(_, _) | PatchDeployment(_, _) => OwnerStep(c, s, a);
  }

  lemma RequestStep(c: Config, s: State, v: Version)
    requires Inv(c, s) && Enabled(c, s, Request(v))
    ensures Inv(c, Next(c, s, Request(v)))
  {
    var t := s.st.(target := Some(v));
    assert s.st.ann == map[] by {
      assert forall i :: i in s.st.ann ==> HostOk(c, s.st, i);
    }
    forall i | i in c.active ensures HostOk(c, t, i) && InstOk(c, t, i, s.ip[i]) {
      RetargetedHost(c, s.st, Some(v), i, s.ip[i]);
    }
  }

  // ---------------------------------------------------------------------------------------------
  // Theorems
  // ---------------------------------------------------------------------------------------------

  /** Every action keeps the invariant. */
  lemma StepKeeps(c: Config, s: State, a: Action)
    requires Inv(c, s) && Enabled(c, s, a)
    ensures Inv(c, Next(c, s, a))
  {
    match a
    case Inst(i, ia) => InstStep(c, s, i, ia);
    case Cluster(ca) => ClusterStep(c, s, ca);
    case Request(v) => RequestStep(c, s, v);
    case Crash =>
  }

  lemma InitInv(c: Config, s: State)
    requires Init(c, s)
    ensures Inv(c, s)
  {
  }

  lemma {:induction false} RunKeeps(c: Config, s: State, run: seq<Action>)
    requires Inv(c, s) && IsRun(c, s, run)
    ensures Inv(c, Exec(c, s, run))
    decreases |run|
  {
    if run != [] {
      StepKeeps(c, s, run[0]);
      RunKeeps(c, Next(c, s, run[0]), run[1..]);
    }
  }

  /** Order of the commands.  In every run: no kubelet restarts at version `v`, and no worker runs
      `kubeadm upgrade node`, before every control-plane machine got to `v` by an upgrade of its host or
      was there from the start; no control plane runs `kubeadm upgrade node` before some control plane
      completed `kubeadm upgrade apply` or was there from the start; and a host restarts its kubelet
      only after its own upgrade. */
  lemma {:induction false} CommandsAreOrdered(c: Config, s: State, run: seq<Action>)
    requires Init(c, s) && IsRun(c, s, run)
    ensures Ordered(c, Exec(c, s, run).st.log)
  {
    InitInv(c, s);
    RunKeeps(c, s, run);
  }

  /** An instance that reports the version it is asked for has its machine there and upgraded its host. */
  lemma {:induction false} ReportedMeansUpgraded(c: Config, s: State, run: seq<Action>, i: Name)
    requires Init(c, s) && IsRun(c, s, run) && i in c.active
    ensures var t := Exec(c, s, run).st;
            i in t.obs && i in t.mver && i in t.running &&
            (i in t.ann && t.obs[i] == t.ann[i] ==>
               t.mver[i] == t.running[i] == t.obs[i] && Succeeded(t.log, i, t.obs[i]))
  {
    InitInv(c, s);
    RunKeeps(c, s, run);
  }

  // ---------------------------------------------------------------------------------------------
  // A control plane is not upgraded again
  // ---------------------------------------------------------------------------------------------

  /** At the end, or on a way on which `kubeadm upgrade node` does not lie. */
  predicate NotJoining(p: Proc) {
    p.Run? ==>
      && p.own == p.ver
      && !p.at.JoinGet? && !p.at.JoinDelete? && !p.at.JoinNode? && !p.at.JoinPatch? && !p.at.WorkerNode? && !p.at.WorkerPatch?
  }

  predicate BeginsAgain(a: Action, i: Name) {
    a.Inst? && a.i == i && a.ia.Begin?
  }

  function NodeUpgrades(log: seq<Event>, i: Name, v: Version): nat {
    multiset(log)[NodeUpgraded(i, v)]
  }

  lemma NotJoiningStep(c: Config, st: Store, i: Name, p: Proc, a: IAction)
    requires InstEnabled(c, st, i, p, a) && i in c.cp && NotJoining(p) && !a.Begin?
    ensures NotJoining(NextProc(c, st, i, p, a)) && !a.UpgradeNode?
  {
  }

  lemma OtherLogs(c: Config, st: Store, i: Name, p: Proc, a: IAction, j: Name, v: Version)
    requires InstEnabled(c, st, i, p, a) && (i == j ==> !a.UpgradeNode?)
    ensures NodeUpgrades(NextStore(c, st, i, p, a).log, j, v) == NodeUpgrades(st.log, j, v)
  {
  }

  lemma {:induction false} NoJoin(c: Config, s: State, run: seq<Action>, i: Name, v: Version)
    requires IsRun(c, s, run) && i in c.cp && i in s.ip && NotJoining(s.ip[i])
    requires forall a :: a in run ==> !BeginsAgain(a, i)
    ensures NodeUpgrades(Exec(c, s, run).st.log, i, v) == NodeUpgrades(s.st.log, i, v)
    decreases |run|
  {
    if run != [] {
      var a := run[0];
      assert !BeginsAgain(a, i) && forall b :: b in run[1..] ==> b in run;
      if a.Inst? {
        if a.i == i {
          NotJoiningStep(c, s.st, i, s.ip[i], a.ia);
        }
        OtherLogs(c, s.st, a.i, s.ip[a.i], a.ia, i, v);
      }
      NoJoin(c, Next(c, s, a), run[1..], i, v);
    }
  }

  /** A reconcile of a control plane whose Machine is at the requested version when it begins never runs
      `kubeadm upgrade node`, whatever it sees and whatever the others do meanwhile. */
  lemma UpgradedOnce(c: Config, s: State, current: bool, run: seq<Action>, i: Name, v: Version)
    requires Enabled(c, s, Inst(i, Begin(current))) && i in c.cp && s.st.mver[i] == s.st.ann[i]
    requires IsRun(c, Next(c, s, Inst(i, Begin(current))), run) && forall a :: a in run ==> !BeginsAgain(a, i)
    ensures NodeUpgrades(Exec(c, Next(c, s, Inst(i, Begin(current))), run).st.log, i, v) == NodeUpgrades(s.st.log, i, v)
  {
    NoJoin(c, Next(c, s, Inst(i, Begin(current))), run, i, v);
  }
}

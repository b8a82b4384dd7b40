/** The in-place upgrade protocol as a transition system.

    The KKCluster controller, one KKInstance controller per host and the user who requests
    upgrades act on a shared object store.  One action is one API call or one command on a host.
    Every write and every command may be applied, rejected, or applied with its answer lost; a crash
    may stop all controllers anywhere.  A run is any finite sequence of enabled actions, so a theorem
    about runs covers every interleaving, every failed write and any number of successive upgrades.
 */
module UpgradeModel {
  import opened Common
  import Versions

  // Names and versions are compared for equality, and versions are parsed by the webhooks; numbers
  // stand for the strings.
  type Name = nat
  type Version = nat

  /** An object whose `.spec.version` the cluster controller patches at the end of an upgrade. */
  datatype Owner = Kcp | MachineSet(name: Name) | MachineDeployment(name: Name)

  /** What stays fixed during a run: machines, the KKInstances without a deletion timestamp, ownership. */
  datatype Config = Config(
    cp: set<Name>,                            // machines with the control-plane label
    workers: set<Name>,                       // the other machines
    active: set<Name>,                        // machines that have an active, owned KKInstance
    kcp: Option<set<Name>>,                   // machines owned by the referenced control plane
    machineSets: map<Name, set<Name>>,        // machines owned by each MachineSet
    deployments: map<Name, set<Name>>,      // MachineSets owned by each MachineDeployment
    machineNames: set<Name>,                  // names under which a Machine object is found
    base: map<Name, Version>,                 // Machine.spec.version at the start of the run
    parse: Version -> Option<Versions.Version>)  // major, minor and patch of a version string
  {
    ghost predicate Wf() {
      && cp !! workers
      && active <= cp + workers
    }

    function OwnerSet(): set<Owner> {
      (if kcp.Some? then {Kcp} else {})
      + (set n | n in machineSets :: MachineSet(n))
      + (set n | n in deployments :: MachineDeployment(n))
    }

    /** A deployment owns the machines of its machine sets. */
    function Owned(o: Owner): set<Name> {
      match o
      case Kcp => if kcp.Some? then kcp.value else {}
      case MachineSet(n) => if n in machineSets then machineSets[n] else {}
      case MachineDeployment(n) =>
        if n in deployments
        then set ms, m | ms in deployments[n] && ms in machineSets && m in machineSets[ms] :: m
        else {}
    }
  }

  /** A command that took effect on a host. */
  datatype Event =
    | Applied(node: Name, ver: Version)     // kubeadm upgrade apply
    | NodeUpgraded(node: Name, ver: Version) // kubeadm upgrade node
    | Restarted(node: Name, ver: Version)   // systemctl restart kubelet

  datatype Store = Store(
    paused: bool,                   // Cluster.spec.paused
    target: Option<Version>,        // in-place upgrade annotation of the KKCluster
    ann: map<Name, Version>,        // in-place upgrade annotation of the KKInstances
    mver: map<Name, Version>,       // Machine.spec.version
    running: map<Name, Version>,    // version of the kubelet that runs on the host
    obs: map<Name, Version>,        // KKInstance.status.nodeInfo.kubeletVersion
    upgraded: set<Name>,            // KKInstances whose InPlaceUpgraded condition is true
    over: map<Owner, Version>,      // spec.version of the owners
    lock: Option<Name>,             // KKInstance name in the lock ConfigMap, if it exists
    locks: set<Name>,               // every name that was in it, which a cache may still show
    log: seq<Event>)                // commands that took effect, oldest first

  // ---------------------------------------------------------------------------------------------
  // KKInstance controller
  // ---------------------------------------------------------------------------------------------

  /** The next call of a KKInstance reconcile. */
  datatype Point =
    | Binaries | Kubeadm | Decide
    | Recheck | LockGet | LockHolder(holder: Name) | LockCreate | StealGet | StealDelete
    | Apply | ApplyPatch | FreeGet | FreeDelete
    | JoinGet | JoinDelete | JoinNode | JoinPatch
    | WorkerNode | WorkerPatch
    | Drain | Restart
    | Close(mark: bool)

  /** A reconcile in flight: the annotation, the Machine version and the kubelet version it read at
      its start, and the machines it last saw at the annotated version. */
  datatype Proc =
    | Idle
    | Run(ver: Version, own: Version, seen: Version, view: set<Name>, at: Point)

  datatype IAction =
    | Observe
    | Begin(current: bool)
    | Download(f: Fault)
    | ReadMachines(seenNew: set<Name>)
    | Branch
    | Reread(seenNew: set<Name>)
    | GetLock(ok: bool, seen: Option<Name>)
    | GetHolder(ok: bool)
    | CreateLock(f: Fault)
    | GetToUnlock(ok: bool, found: bool)
    | DeleteLock(f: Fault)
    | UpgradeApply(f: Fault)
    | UpgradeNode(f: Fault)
    | PatchMachine(f: Fault)
    | DrainNode(ok: bool)
    | RestartKubelet(f: Fault)
    | CloseScope(f: Fault)

  function AtVersion(st: Store, v: Version): set<Name> {
    set m | m in st.mver && st.mver[m] == v
  }

  predicate At(p: Proc, pt: Point) {
    p.Run? && p.at == pt
  }

  /** What a cached read of the lock may show: the lock as it is, none, or one of earlier. */
  predicate Readable(st: Store, seen: Option<Name>) {
    seen == st.lock || seen.None? || seen.value in st.locks
  }

  predicate Findable(st: Store, found: bool) {
    found ==> st.lock.Some? || st.locks != {}
  }

  /** Reads may omit machines (a cache may be stale and a list is read one machine at a time) but do
      not invent versions or locks. */
  predicate InstEnabled(c: Config, st: Store, i: Name, p: Proc, a: IAction) {
    && i in c.active && i in st.mver && i in st.running && i in st.obs
    && match a
       case Observe => p.Idle?
       case Begin(_) => p.Idle? && i in st.ann
       case Download(_) => At(p, Binaries)
       case ReadMachines(w) => At(p, Kubeadm) && w <= AtVersion(st, p.ver)
       case Branch => At(p, Decide)
       case Reread(w) => At(p, Recheck) && w <= AtVersion(st, p.ver)
       case GetLock(_, seen) => At(p, LockGet) && Readable(st, seen)
       case GetHolder(_) => p.Run? && p.at.LockHolder?
       case CreateLock(_) => At(p, LockCreate)
       case GetToUnlock(_, found) => (At(p, StealGet) || At(p, FreeGet) || At(p, JoinGet)) && Findable(st, found)
       case DeleteLock(_) => At(p, StealDelete) || At(p, FreeDelete) || At(p, JoinDelete)
       case UpgradeApply(_) => At(p, Apply)
       case UpgradeNode(_) => At(p, JoinNode) || At(p, WorkerNode)
       case PatchMachine(_) => At(p, ApplyPatch) || At(p, JoinPatch) || At(p, WorkerPatch)
       case DrainNode(_) => At(p, Drain)
       case RestartKubelet(_) => At(p, Restart)
       case CloseScope(_) => p.Run? && p.at.Close?
  }

  /** kubeadmUpgrade's choice, on the machines seen at the new version. */
  function Choose(c: Config, i: Name, p: Proc): (pt: Point)
    requires p.Run?
  {
    var newCp := p.view * c.cp;
    if i in c.cp then
      if newCp == {} then Recheck
      else if newCp != c.cp then (if p.ver == p.own then Close(false) else JoinGet)
      else Drain
    else
      if newCp != c.cp then Close(false)
      else if p.view * c.workers != c.workers then WorkerNode
      else Drain
  }

  /** Where a reconcile goes on after its call to Unlock, or after half of it. */
  function AfterUnlockGet(pt: Point, found: bool): Point {
    if found then (if pt == StealGet then StealDelete else if pt == FreeGet then FreeDelete else JoinDelete)
    else if pt == JoinGet then JoinNode else Close(false)
  }

  function NextProc(c: Config, st: Store, i: Name, p: Proc, a: IAction): (q: Proc)
    requires InstEnabled(c, st, i, p, a)
  {
    match a
    case Observe => Idle
    case Begin(current) =>
      Run(st.ann[i], st.mver[i], if current then st.running[i] else st.obs[i], {}, Binaries)
    case Download(f) => p.(at := if p.ver == p.seen || f.Ok? then Kubeadm else Close(false))
    case ReadMachines(w) => if p.ver == p.seen then p.(at := Close(true)) else p.(view := w, at := Decide)
    case Branch => p.(at := Choose(c, i, p))
    case Reread(w) => p.(at := if w * c.cp == {} then LockGet else Close(false))
    case GetLock(ok, seen) =>
      p.(at := if !ok then Close(false)
               else if seen.None? then LockCreate
               else if seen.value == i then Apply
               else LockHolder(seen.value))
    case GetHolder(ok) => p.(at := if ok && p.at.holder !in c.machineNames then StealGet else Close(false))
    case CreateLock(f) => p.(at := if st.lock.None? && f.Ok? then Apply else Close(false))
    case GetToUnlock(ok, found) => p.(at := AfterUnlockGet(p.at, ok && found))
    case DeleteLock(f) => p.(at := if p.at == JoinDelete then JoinNode else Close(false))
    case UpgradeApply(f) => p.(at := if f.Ok? then ApplyPatch else FreeGet)
    case UpgradeNode(f) =>
      p.(at := if !f.Ok? then Close(false) else if p.at == JoinNode then JoinPatch else WorkerPatch)
    case PatchMachine(f) =>
      p.(at := if f.Ok? then (if p.at == WorkerPatch then Drain else Close(false))
               else if p.at == ApplyPatch then FreeGet else Close(false))
    case DrainNode(ok) => p.(at := if ok then Restart else Close(false))
    case RestartKubelet(_) => p.(at := Close(false))
    case CloseScope(_) => Idle
  }

  /** An instance touches neither the pause nor the request, the annotations or the owners. */
  function NextStore(c: Config, st: Store, i: Name, p: Proc, a: IAction): (t: Store)
    requires InstEnabled(c, st, i, p, a)
    ensures t.paused == st.paused && t.target == st.target && t.ann == st.ann && t.over == st.over
  {
    match a
    case Observe => st.(obs := st.obs[i := st.running[i]])
    case CreateLock(f) =>
      if st.lock.None? && TookEffect(f) then st.(lock := Some(i), locks := st.locks + {i}) else st
    case DeleteLock(f) => if TookEffect(f) then st.(lock := None) else st
    case UpgradeApply(f) => if TookEffect(f) then st.(log := st.log + [Applied(i, p.ver)]) else st
    case UpgradeNode(f) => if TookEffect(f) then st.(log := st.log + [NodeUpgraded(i, p.ver)]) else st
    case PatchMachine(f) => if TookEffect(f) then st.(mver := st.mver[i := p.ver]) else st
    case RestartKubelet(f) =>
      if TookEffect(f)
      then st.(running := st.running[i := p.ver], log := st.log + [Restarted(i, p.ver)])
      else st
    case CloseScope(f) =>
      if TookEffect(f)
      then st.(obs := st.obs[i := p.seen], upgraded := if p.at.mark then st.upgraded + {i} else st.upgraded)
      else st
    case _ => st
  }

  // ---------------------------------------------------------------------------------------------
  // KKCluster controller
  // ---------------------------------------------------------------------------------------------

  datatype CPoint =
    | Pause
    | AnnotateCp(todo: set<Name>)
    | AnnotateWorkers(todo: set<Name>)
    | Check(todo: set<Name>)
    | ListMachines
    | PatchKcp(view: set<Name>)
    | PatchSets(view: set<Name>, left: set<Name>, patched: set<Name>)
    | PatchDeployments(left: set<Name>, patched: set<Name>)
    | Unpause
    | Clear(todo: set<Name>)
    | Finish

  datatype CProc = CIdle | CRun(ver: Option<Version>, at: CPoint)

  datatype CAction =
    | CBegin
    | SetPaused(seen: bool, f: Fault)
    | Annotate(n: Name, f: Fault)
    | CheckInstance(n: Name)
    | CList(seenNew: set<Name>)
    | PatchControlPlane(found: bool, f: Fault)
    | PatchSet(ms: Name, f: Fault)
    | PatchDeployment(md: Name, f: Fault)
    | SetUnpaused(seen: bool, f: Fault)
    | ClearAnnotation(n: Name, f: Fault)
    | ClearRequest(f: Fault)

  predicate CEnabled(c: Config, st: Store, p: CProc, a: CAction) {
    match a
    case CBegin => p.CIdle?
    case SetPaused(_, _) => p.CRun? && p.ver.Some? && p.at.Pause?
    case Annotate(n, _) =>
      && p.CRun? && p.ver.Some? && n in c.active && n in st.obs
      && (p.at.AnnotateCp? || p.at.AnnotateWorkers?) && n in p.at.todo
    case CheckInstance(n) => p.CRun? && p.ver.Some? && p.at.Check? && n in p.at.todo && n in st.obs
    case CList(w) => p.CRun? && p.ver.Some? && p.at.ListMachines? && w <= AtVersion(st, p.ver.value)
    case PatchControlPlane(_, _) => p.CRun? && p.ver.Some? && p.at.PatchKcp?
    case PatchSet(ms, _) => p.CRun? && p.ver.Some? && p.at.PatchSets? && ms in p.at.left
    case PatchDeployment(md, _) => p.CRun? && p.ver.Some? && p.at.PatchDeployments? && md in p.at.left
    case SetUnpaused(_, _) => p.CRun? && p.ver.Some? && p.at.Unpause?
    case ClearAnnotation(n, _) => p.CRun? && p.at.Clear? && n in p.at.todo
    case ClearRequest(_) => p.CRun? && p.at.Finish?
  }

  // A phase over an empty set of instances is an error; a loop over an empty list is left at once.
  function EnterCp(c: Config, v: Option<Version>): CProc {
    if c.active * c.cp == {} then CIdle else CRun(v, AnnotateCp(c.active * c.cp))
  }
  function EnterWorkers(c: Config, v: Option<Version>): CProc {
    if c.active * c.workers == {} then CIdle else CRun(v, AnnotateWorkers(c.active * c.workers))
  }
  function LoopAnnotate(c: Config, v: Option<Version>, at: CPoint, todo: set<Name>): CProc {
    if at.AnnotateCp? then (if todo == {} then EnterWorkers(c, v) else CRun(v, AnnotateCp(todo)))
    else (if todo == {} then CRun(v, Check(c.active)) else CRun(v, AnnotateWorkers(todo)))
  }
  function LoopDeployments(v: Option<Version>, left: set<Name>, patched: set<Name>): CProc {
    CRun(v, if left == {} then Unpause else PatchDeployments(left, patched))
  }
  function LoopSets(c: Config, v: Option<Version>, view: set<Name>, left: set<Name>, patched: set<Name>): CProc {
    if left == {} then LoopDeployments(v, c.deployments.Keys, patched) else CRun(v, PatchSets(view, left, patched))
  }
  function LoopClear(v: Option<Version>, todo: set<Name>): CProc {
    CRun(v, if todo == {} then Finish else Clear(todo))
  }

  /** The gate of the KKInstance webhook, on the kubelet version that the instance reports. */
  predicate Accepts(c: Config, old_: Version, new_: Version): (r: bool)
    ensures r ==> old_ != new_
  {
    Versions.Accepts(c.parse(old_), c.parse(new_))
  }

  predicate WebhookRejects(c: Config, st: Store, n: Name, v: Version)
    requires n in st.obs
  {
    !Accepts(c, st.obs[n], v)
  }

  predicate PassesCheck(st: Store, n: Name)
    requires n in st.obs
  {
    n in st.ann && n in st.upgraded && st.obs[n] == st.ann[n]
  }

  predicate SetTouched(c: Config, ms: Name, view: set<Name>) {
    c.Owned(MachineSet(ms)) * view != {}
  }

  predicate DeploymentTouched(c: Config, md: Name, patched: set<Name>) {
    md in c.deployments && c.deployments[md] * patched != {}
  }

  // The pause flag is read from a cache: what looks done is skipped, and a write on a stale copy of the
  // Cluster is refused as a conflict.
  function CNextProc(c: Config, st: Store, p: CProc, a: CAction): (q: CProc)
    requires CEnabled(c, st, p, a)
  {
    match a
    case CBegin => if st.target.Some? then CRun(st.target, Pause) else LoopClear(None, c.active)
    case SetPaused(seen, f) => if seen || (!st.paused && f.Ok?) then EnterCp(c, p.ver) else CIdle
    case Annotate(n, f) =>
      if n in st.ann || (f.Ok? && !WebhookRejects(c, st, n, p.ver.value))
      then LoopAnnotate(c, p.ver, p.at, p.at.todo - {n}) else CIdle
    case CheckInstance(n) =>
      if !PassesCheck(st, n) then CIdle
      else if p.at.todo == {n} then CRun(p.ver, ListMachines) else CRun(p.ver, Check(p.at.todo - {n}))
    case CList(w) => CRun(p.ver, PatchKcp(w))
    case PatchControlPlane(found, f) =>
      if c.kcp.None? || (found && (c.Owned(Kcp) * p.at.view == {} || f.Ok?))
      then LoopSets(c, p.ver, p.at.view, c.machineSets.Keys, {}) else CIdle
    case PatchSet(ms, f) =>
      if !SetTouched(c, ms, p.at.view) then LoopSets(c, p.ver, p.at.view, p.at.left - {ms}, p.at.patched)
      else if f.Ok? then LoopSets(c, p.ver, p.at.view, p.at.left - {ms}, p.at.patched + {ms})
      else CIdle
    case PatchDeployment(md, f) =>
      if !DeploymentTouched(c, md, p.at.patched) || f.Ok?
      then LoopDeployments(p.ver, p.at.left - {md}, p.at.patched) else CIdle
    case SetUnpaused(seen, f) => if !seen || (st.paused && f.Ok?) then LoopClear(p.ver, c.active) else CIdle
    case ClearAnnotation(n, f) => if n !in st.ann || f.Ok? then LoopClear(p.ver, p.at.todo - {n}) else CIdle
    case ClearRequest(_) => CIdle
  }

  /** The cluster controller touches the pause, the request, the annotations and the owners, and nothing else. */
  function CNextStore(c: Config, st: Store, p: CProc, a: CAction): (t: Store)
    requires CEnabled(c, st, p, a)
    ensures t == st.(paused := t.paused, target := t.target, ann := t.ann, over := t.over)
  {
    match a
    case SetPaused(seen, f) => if !seen && !st.paused && TookEffect(f) then st.(paused := true) else st
    case Annotate(n, f) =>
      if n !in st.ann && TookEffect(f) && !WebhookRejects(c, st, n, p.ver.value)
      then st.(ann := st.ann[n := p.ver.value]) else st
    case PatchControlPlane(found, f) =>
      if c.kcp.Some? && found && c.Owned(Kcp) * p.at.view != {} && TookEffect(f)
      then st.(over := st.over[Kcp := p.ver.value]) else st
    case PatchSet(ms, f) =>
      if SetTouched(c, ms, p.at.view) && TookEffect(f)
      then st.(over := st.over[MachineSet(ms) := p.ver.value]) else st
    case PatchDeployment(md, f) =>
      if DeploymentTouched(c, md, p.at.patched) && TookEffect(f)
      then st.(over := st.over[MachineDeployment(md) := p.ver.value]) else st
    case SetUnpaused(seen, f) => if seen && st.paused && TookEffect(f) then st.(paused := false) else st
    case ClearAnnotation(n, f) => if TookEffect(f) then st.(ann := st.ann - {n}) else st
    case ClearRequest(f) => if p.ver.Some? && TookEffect(f) then st.(target := None) else st
    case _ => st
  }

  // ---------------------------------------------------------------------------------------------
  // The whole system
  // ---------------------------------------------------------------------------------------------

  datatype State = State(st: Store, cc: CProc, ip: map<Name, Proc>)

  datatype Action =
    | Inst(i: Name, ia: IAction)
    | Cluster(ca: CAction)
    | Request(v: Version)
    | Crash

  /** The KKCluster webhook accepts every version that parses. */
  predicate Enabled(c: Config, s: State, a: Action) {
    match a
    case Inst(i, ia) => i in s.ip && InstEnabled(c, s.st, i, s.ip[i], ia)
    case Cluster(ca) => CEnabled(c, s.st, s.cc, ca)
    case Request(v) => s.st.target.None? && c.parse(v).Some?
    case Crash => true
  }

  function Next(c: Config, s: State, a: Action): (t: State)
    requires Enabled(c, s, a)
  {
    match a
    case Inst(i, ia) =>
      State(NextStore(c, s.st, i, s.ip[i], ia), s.cc, s.ip[i := NextProc(c, s.st, i, s.ip[i], ia)])
    case Cluster(ca) => State(CNextStore(c, s.st, s.cc, ca), CNextProc(c, s.st, s.cc, ca), s.ip)
    case Request(v) => s.(st := s.st.(target := Some(v)))
    case Crash => State(s.st, CIdle, map i | i in s.ip :: Idle)
  }

  /** Whether the actions of `run` are enabled one after the other from `s`. */
  predicate IsRun(c: Config, s: State, run: seq<Action>)
    decreases |run|
  {
    run == [] || (Enabled(c, s, run[0]) && IsRun(c, Next(c, s, run[0]), run[1..]))
  }

  function Exec(c: Config, s: State, run: seq<Action>): (t: State)
    requires IsRun(c, s, run)
    decreases |run|
  {
    if run == [] then s else Exec(c, Next(c, s, run[0]), run[1..])
  }

  /** Every owner has the version of all its machines that have an active KKInstance. */
  ghost predicate Consistent(c: Config, st: Store) {
    forall o, m :: o in st.over && m in c.Owned(o) && m in c.active && m in st.mver ==> st.over[o] == st.mver[m]
  }

  ghost predicate Shaped(c: Config, st: Store) {
    && st.mver.Keys == c.cp + c.workers
    && st.running.Keys == c.active && st.obs.Keys == c.active
    && st.over.Keys == c.OwnerSet()
  }

  /** The hosts run, and the instances report, the versions of their Machines. */
  ghost predicate Settled(c: Config, st: Store) {
    forall i :: i in c.active && i in st.mver && i in st.running && i in st.obs ==> st.mver[i] == st.running[i] == st.obs[i]
  }

  /** A consistent cluster before any upgrade.  A lock may be left over from earlier times. */
  ghost predicate Init(c: Config, s: State) {
    && c.Wf() && Shaped(c, s.st) && Consistent(c, s.st) && Settled(c, s.st) && s.st.mver == c.base
    && s.st.locks == (if s.st.lock.Some? then {s.st.lock.value} else {})
    && !s.st.paused && s.st.target.None? && s.st.ann == map[] && s.st.log == []
    && s.cc.CIdle? && s.ip.Keys == c.active && (forall i :: i in s.ip ==> s.ip[i].Idle?)
  }
}

/** Bootstrap of a K3s cluster: which K3sConfig initialises it, and with which token the others join.

    One action is one API call.  Reconciles of different K3sConfigs interleave freely; every write may be
    applied, rejected, or applied with its answer lost; a crash may stop all of them anywhere. */
module K3sInit {
  import opened Common

  // Names and tokens are only compared for equality here, so numbers stand for the strings.
  type Name = nat
  type Token = nat

  /** cp: configs of control-plane machines, by machine name; initable: those with a server or cluster
      configuration; machines: the names that resolve to a Machine; given: the configs whose user gave
      a token or a token file. */
  datatype Config = Config(cp: set<Name>, initable: set<Name>, machines: set<Name>, given: map<Name, Option<Token>>)

  /** The bootstrap data of a config.  A join has no token when the user gave a token file. */
  datatype Data = InitData(token: Token) | JoinData(joinToken: Option<Token>)

  datatype Point =
    | LockGet | LockHolder(holder: Name) | LockCreate | StealGet | StealDelete
    | Certs | NewToken | Render(token: Token) | CloseInit
    | FailGet | FailDelete
    | JoinGet | JoinDelete | Discover | StoreJoin(tok: Option<Token>) | CloseJoin(found: Option<Token>, done: bool)

  datatype Proc = Idle | Run(at: Point)

  datatype State = State(
    lock: Option<Name>,             // machine name in the lock ConfigMap
    token: Option<Token>,           // the token secret
    data: map<Name, Data>,          // the bootstrap data secrets
    ready: set<Name>,               // configs whose status is ready
    learnt: map<Name, Token>,       // tokens that a reconcile put into a config's spec
    initialized: bool,              // the cluster's control-plane-initialized condition
    procs: map<Name, Proc>)

  datatype Call =
    | Begin(seesInit: bool)
    | GetLock(ok: bool)
    | GetHolder(ok: bool)
    | CreateLock(f: Fault)
    | GetToUnlock(ok: bool)
    | DeleteLock(f: Fault)
    | Certificates(ok: bool)
    | PutToken(t: Token, f: Fault)
    | PutInitData(f: Fault)
    | PatchInit(f: Fault)
    | ReadToken(endpoint: bool, ok: bool)
    | PutJoinData(f: Fault)
    | PatchJoin(f: Fault)

  datatype Action = Do(n: Name, call: Call) | Initialize | Crash

  ghost predicate InitReady(s: State, n: Name) {
    n in s.ready && n in s.data && s.data[n].InitData?
  }

  predicate At(s: State, n: Name, pt: Point) {
    n in s.procs && s.procs[n] == Run(pt)
  }

  /** A config that is ready is left alone.  The cluster's condition may be read stale, but is not
      invented; it becomes true only after some config was ready with init data. */
  ghost predicate Enabled(c: Config, s: State, a: Action) {
    match a
    case Initialize => exists n :: InitReady(s, n)
    case Crash => true
    case Do(n, call) =>
      n in s.procs &&
      var p := s.procs[n];
      match call
      case Begin(seesInit) => p.Idle? && n !in s.ready && (seesInit ==> s.initialized)
      case GetLock(_) => p == Run(LockGet)
      case GetHolder(_) => p.Run? && p.at.LockHolder?
      case CreateLock(_) => p == Run(LockCreate)
      case GetToUnlock(_) => p == Run(StealGet) || p == Run(FailGet) || p == Run(JoinGet)
      case DeleteLock(_) => p == Run(StealDelete) || p == Run(FailDelete) || p == Run(JoinDelete)
      case Certificates(_) => p == Run(Certs)
      case PutToken(_, _) => p == Run(NewToken)
      case PutInitData(_) => p.Run? && p.at.Render?
      case PatchInit(_) => p == Run(CloseInit)
      case ReadToken(_, _) => p == Run(Discover)
      case PutJoinData(_) => p.Run? && p.at.StoreJoin?
      case PatchJoin(_) => p.Run? && p.at.CloseJoin?
  }

  /** reconcileDiscovery: a token file or a token of the config is respected, else the secret is read. */
  function Discovered(c: Config, s: State, n: Name, endpoint: bool, ok: bool): Proc {
    if n in c.given && c.given[n].None? then Run(StoreJoin(None))
    else if !endpoint then Idle
    else if n in c.given then Run(StoreJoin(c.given[n]))
    else if n in s.learnt then Run(StoreJoin(Some(s.learnt[n])))
    else if !ok || s.token.None? then Idle
    else Run(StoreJoin(s.token))
  }

  function NextProc(c: Config, s: State, n: Name, call: Call): Proc
    requires n in s.procs
  {
    var p := s.procs[n];
    match call
    case Begin(seesInit) =>
      if seesInit then Run(JoinGet) else if n in c.cp && n in c.initable then Run(LockGet) else Idle
    case GetLock(ok) =>
      if !ok then Idle
      else if s.lock.None? then Run(LockCreate)
      else if s.lock.value == n then Run(Certs)
      else Run(LockHolder(s.lock.value))
    case GetHolder(ok) => if ok && p.Run? && p.at.LockHolder? && p.at.holder !in c.machines then Run(StealGet) else Idle
    case CreateLock(f) => if s.lock.None? && f.Ok? then Run(Certs) else Idle
    case GetToUnlock(ok) =>
      if ok && s.lock.Some?
      then Run(if p == Run(StealGet) then StealDelete else if p == Run(FailGet) then FailDelete else JoinDelete)
      else if p == Run(JoinGet) then Run(Discover) else Idle
    case DeleteLock(_) => if p == Run(JoinDelete) then Run(Discover) else Idle
    case Certificates(ok) => Run(if ok then NewToken else FailGet)
    case PutToken(t, f) => Run(if f.Ok? then Render(t) else FailGet)
    case PutInitData(f) => Run(if f.Ok? then CloseInit else FailGet)
    case PatchInit(_) => Idle
    case ReadToken(endpoint, ok) => Discovered(c, s, n, endpoint, ok)
    case PutJoinData(f) => if p.Run? && p.at.StoreJoin? then Run(CloseJoin(p.at.tok, f.Ok?)) else Idle
    case PatchJoin(_) => Idle
  }

  function Effect(c: Config, s: State, n: Name, call: Call): State
    requires n in s.procs
  {
    var p := s.procs[n];
    match call
    case CreateLock(f) => if s.lock.None? && TookEffect(f) then s.(lock := Some(n)) else s
    case DeleteLock(f) => if TookEffect(f) then s.(lock := None) else s
    case PutToken(t, f) => if TookEffect(f) then s.(token := Some(t)) else s
    case PutInitData(f) =>
      if p.Run? && p.at.Render? && TookEffect(f) then s.(data := s.data[n := InitData(p.at.token)]) else s
    case PatchInit(f) => if TookEffect(f) then s.(ready := s.ready + {n}) else s
    case PutJoinData(f) =>
      if p.Run? && p.at.StoreJoin? && TookEffect(f) then s.(data := s.data[n := JoinData(p.at.tok)]) else s
    case PatchJoin(f) =>
      if p.Run? && p.at.CloseJoin? && TookEffect(f)
      then s.(learnt := if n !in c.given && p.at.found.Some? then s.learnt[n := p.at.found.value] else s.learnt,
              ready := if p.at.done then s.ready + {n} else s.ready)
      else s
    case _ => s
  }

  ghost function Next(c: Config, s: State, a: Action): State
    requires Enabled(c, s, a)
  {
    match a
    case Do(n, call) => var t := Effect(c, s, n, call); t.(procs := s.procs[n := NextProc(c, s, n, call)])
    case Initialize => s.(initialized := true)
    case Crash => s.(procs := map n | n in s.procs :: Idle)
  }

  ghost predicate IsRun(c: Config, s: State, run: seq<Action>)
    decreases |run|
  {
    run == [] || (Enabled(c, s, run[0]) && IsRun(c, Next(c, s, run[0]), run[1..]))
  }

  ghost function Exec(c: Config, s: State, run: seq<Action>): State
    requires IsRun(c, s, run)
    decreases |run|
  {
    if run == [] then s else Exec(c, Next(c, s, run[0]), run[1..])
  }

  /** Every action of the run meets the condition in its state. */
  ghost predicate Along(c: Config, s: State, run: seq<Action>, p: (State, Action) -> bool)
    requires IsRun(c, s, run)
    decreases |run|
  {
    run == [] || (p(s, run[0]) && Along(c, Next(c, s, run[0]), run[1..], p))
  }

  lemma {:induction false} RunSnoc(c: Config, s: State, run: seq<Action>, a: Action, p: (State, Action) -> bool)
    requires IsRun(c, s, run) && Enabled(c, Exec(c, s, run), a)
    ensures IsRun(c, s, run + [a]) && Exec(c, s, run + [a]) == Next(c, Exec(c, s, run), a)
    ensures Along(c, s, run, p) && p(Exec(c, s, run), a) ==> Along(c, s, run + [a], p)
    decreases |run|
  {
    if run == [] {
      assert (run + [a])[1..] == [];
    } else {
      RunSnoc(c, Next(c, s, run[0]), run[1..], a, p);
      assert (run + [a])[1..] == run[1..] + [a];
    }
  }

  lemma {:induction false} RunConcat(c: Config, s: State, r1: seq<Action>, r2: seq<Action>, p: (State, Action) -> bool)
    requires IsRun(c, s, r1) && IsRun(c, Exec(c, s, r1), r2) && Along(c, s, r1, p) && Along(c, Exec(c, s, r1), r2, p)
    ensures IsRun(c, s, r1 + r2) && Exec(c, s, r1 + r2) == Exec(c, Exec(c, s, r1), r2) && Along(c, s, r1 + r2, p)
    decreases |r1|
  {
    if r1 == [] {
      assert r1 + r2 == r2;
    } else {
      RunConcat(c, Next(c, s, r1[0]), r1[1..], r2, p);
      assert (r1 + r2)[1..] == r1[1..] + r2;
    }
  }

  ghost predicate Init(c: Config, s: State) {
    && c.cp <= c.machines
    && s.lock.None? && s.token.None? && s.data == map[] && s.ready == {} && s.learnt == map[] && !s.initialized
    && forall n :: n in s.procs ==> s.procs[n].Idle?
  }

  // ---------------------------------------------------------------------------------------------
  // Invariant
  // ---------------------------------------------------------------------------------------------

  /** Between a successful Lock and the end of the reconcile. */
  predicate Critical(pt: Point) {
    pt.Certs? || pt.NewToken? || pt.Render? || pt.CloseInit? || pt.FailGet? || pt.FailDelete?
  }

  predicate Joining(pt: Point) {
    pt.JoinGet? || pt.JoinDelete? || pt.Discover? || pt.StoreJoin? || pt.CloseJoin?
  }

  /** What the secret holds at the point reached. */
  ghost predicate PointOk(c: Config, s: State, n: Name, pt: Point) {
    && (pt.Render? ==> s.token == Some(pt.token))
    && (pt.CloseInit? ==> n in s.data && s.data[n].InitData? && s.token == Some(s.data[n].token))
    && (pt.StoreJoin? && n !in c.given ==> pt.tok.Some? && s.token == pt.tok)
    && (pt.CloseJoin? && n !in c.given ==> pt.found.Some? && s.token == pt.found)
    && (pt.CloseJoin? && pt.done ==> n in s.data && s.data[n] == JoinData(pt.found))
    && (pt.LockHolder? ==> pt.holder in c.cp)
    && !pt.StealGet? && !pt.StealDelete?
    && (pt.LockCreate? || pt.LockGet? || Critical(pt) ==> n in c.cp && n in c.initable)
    && (Critical(pt) ==> s.lock == Some(n) && !s.initialized)
    && (Joining(pt) ==> s.initialized)
  }

  ghost predicate ProcsOk(c: Config, s: State) {
    forall n :: n in s.procs && s.procs[n].Run? ==> n !in s.ready && PointOk(c, s, n, s.procs[n].at)
  }

  ghost predicate Agreed(c: Config, s: State) {
    && (forall n, k :: InitReady(s, n) && InitReady(s, k) ==> n == k)
    && (forall n :: InitReady(s, n) ==> s.token == Some(s.data[n].token))
    && (forall n :: n in s.ready && n in s.data && s.data[n].JoinData? && n !in c.given ==>
          s.token.Some? && s.data[n].joinToken == s.token)
  }

  ghost predicate StoreOk(c: Config, s: State) {
    && c.cp <= c.machines
    && (s.lock.Some? ==> s.lock.value in c.cp)
    && (forall n: Name :: InitReady(s, n) ==> if s.initialized then s.lock.None? || s.lock == Some(n) else s.lock == Some(n))
    && (s.initialized ==> exists n :: InitReady(s, n))
    && (forall n :: n in s.ready ==> n in s.data)
    && (forall n :: n in s.ready && s.data[n].JoinData? ==> s.initialized)
    && (forall n :: n in s.learnt ==> s.initialized && s.token == Some(s.learnt[n]))
  }

  ghost predicate Inv(c: Config, s: State) {
    StoreOk(c, s) && Agreed(c, s) && ProcsOk(c, s)
  }

  /** The lock object is created although the cluster is initialised already. */
  ghost predicate LateLock(s: State, a: Action) {
    a.Do? && a.call.CreateLock? && s.lock.None? && TookEffect(a.call.f) && s.initialized
  }
}

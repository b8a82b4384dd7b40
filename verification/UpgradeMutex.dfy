/** The ConfigMap lock of the in-place upgrade, at API-call granularity. */
module UpgradeMutex {
  import opened Common
  import opened UpgradeModel
  import opened UpgradeRuns
  import opened UpgradeSafety

  /** The action is the call in which `Lock` returns true for instance `i`. */
  ghost predicate Acquires(c: Config, s: State, a: Action, i: Name) {
    && Enabled(c, s, a) && a.Inst? && a.i == i
    && (a.ia.GetLock? || a.ia.CreateLock?) && At(Next(c, s, a).ip[i], Apply)
  }

  /** The condition on reads of the lock: one that shows the own name is right.  A read that shows no lock,
      or the lock of another, may be as stale as it likes. */
  ghost predicate OwnRead(c: Config, s: State, a: Action) {
    a.Inst? && a.ia.GetLock? && a.ia.ok && a.ia.seen == Some(a.i) ==> s.st.lock == Some(a.i)
  }

  predicate Deletes(a: Action) {
    a.Inst? && a.ia.DeleteLock? && TookEffect(a.ia.f)
  }

  lemma {:induction false} LockStays(c: Config, s: State, run: seq<Action>, i: Name)
    requires IsRun(c, s, run) && s.st.lock == Some(i)
    requires forall k :: 0 <= k < |run| ==> !Deletes(run[k])
    ensures Exec(c, s, run).st.lock == Some(i)
    decreases |run|
  {
    if run != [] {
      assert !Deletes(run[0]);
      LockStays(c, Next(c, s, run[0]), run[1..], i);
    }
  }

  /** Between two successful `Lock` returns by different instances lies a delete of the ConfigMap, from
      whatever state the first one starts, if they did not take an old lock of theirs for the current. */
  lemma {:induction false} DeleteBetweenLocks(c: Config, s: State, a: Action, mid: seq<Action>, b: Action, i: Name, j: Name)
    requires Acquires(c, s, a, i) && OwnRead(c, s, a) && IsRun(c, Next(c, s, a), mid)
    requires var t := Exec(c, Next(c, s, a), mid); Acquires(c, t, b, j) && OwnRead(c, t, b) && i != j
    ensures exists k :: 0 <= k < |mid| && Deletes(mid[k])
  {
    if forall k :: 0 <= k < |mid| ==> !Deletes(mid[k]) {
      LockTaken(c, s, a, i);
      LockStays(c, Next(c, s, a), mid, i);
      LockFound(c, Exec(c, Next(c, s, a), mid), b, j);
    }
  }

  lemma LockTaken(c: Config, s: State, a: Action, i: Name)
    requires Acquires(c, s, a, i) && OwnRead(c, s, a)
    ensures Next(c, s, a).st.lock == Some(i)
  {
  }

  lemma LockFound(c: Config, s: State, a: Action, i: Name)
    requires Acquires(c, s, a, i) && OwnRead(c, s, a)
    ensures s.st.lock.None? || s.st.lock == Some(i)
  {
  }

  // ---------------------------------------------------------------------------------------------
  // Mutual exclusion before the first control-plane patch
  // ---------------------------------------------------------------------------------------------

  /** Between the return of `Lock` and the release, or the patch that ends the reconcile. */
  predicate InZone(p: Proc) {
    p.Run? && (p.at == Apply || p.at == ApplyPatch || p.at == FreeGet || p.at == FreeDelete)
  }

  /** Some control-plane machine already has version `v`. */
  ghost predicate Patched(c: Config, st: Store, v: Version) {
    exists m :: m in c.cp && m in st.mver && st.mver[m] == v
  }

  /** No two instances are between `Lock` and release, unless some control-plane machine has the
      requested version already. */
  ghost predicate Exclusive(c: Config, s: State) {
    (s.st.target.Some? ==> !Patched(c, s.st, s.st.target.value)) ==>
      forall i, j :: i in s.ip && j in s.ip && InZone(s.ip[i]) && InZone(s.ip[j]) ==> i == j
  }

  /** The names of the control-plane instances, and those in a left-over lock, are names of Machines. */
  ghost predicate HoldersResolve(c: Config, st: Store) {
    && c.active * c.cp <= c.machineNames && st.locks <= c.machineNames
    && (st.lock.Some? ==> st.lock.value in c.machineNames)
  }

  ghost predicate ProcOk(c: Config, st: Store, i: Name, p: Proc) {
    p.Run? ==>
      && (p.at.LockHolder? ==> p.at.holder in c.machineNames)
      && !p.at.StealGet? && !p.at.StealDelete?
      && (InZone(p) ==> st.lock == Some(i) || Patched(c, st, p.ver))
  }

  ghost predicate MutexOk(c: Config, s: State) {
    HoldersResolve(c, s.st) && forall i :: i in s.ip ==> ProcOk(c, s.st, i, s.ip[i])
  }

  predicate LockCall(a: IAction) {
    a.GetLock? || a.GetHolder? || a.CreateLock? || a.GetToUnlock? || a.DeleteLock?
  }

  /** What the instance that acts may count on afterwards. */
  lemma OwnLock(c: Config, st: Store, i: Name, p: Proc, a: IAction)
    requires InstEnabled(c, st, i, p, a) && LockCall(a) && ProcOk(c, st, i, p) && HoldersResolve(c, st)
    requires a.GetLock? && a.ok && a.seen == Some(i) ==> st.lock == Some(i)
    ensures ProcOk(c, NextStore(c, st, i, p, a), i, NextProc(c, st, i, p, a))
  {
    if a.GetLock? {
      OwnGet(c, st, i, p, a.ok, a.seen);
    }
  }

  lemma OwnGet(c: Config, st: Store, i: Name, p: Proc, ok: bool, seen: Option<Name>)
    requires InstEnabled(c, st, i, p, GetLock(ok, seen)) && HoldersResolve(c, st) && (ok && seen == Some(i) ==> st.lock == Some(i))
    ensures ProcOk(c, st, i, NextProc(c, st, i, p, GetLock(ok, seen)))
  {
  }

  lemma OwnWork(c: Config, st: Store, i: Name, p: Proc, a: IAction)
    requires InstEnabled(c, st, i, p, a) && !LockCall(a) && ProcOk(c, st, i, p)
    ensures ProcOk(c, NextStore(c, st, i, p, a), i, NextProc(c, st, i, p, a))
  {
    if !a.PatchMachine? {
      OwnRest(c, st, i, p, a);
    }
  }

  lemma OwnRest(c: Config, st: Store, i: Name, p: Proc, a: IAction)
    requires InstEnabled(c, st, i, p, a) && !LockCall(a) && !a.PatchMachine? && ProcOk(c, st, i, p)
    ensures ProcOk(c, NextStore(c, st, i, p, a), i, NextProc(c, st, i, p, a))
  {
    assert NextStore(c, st, i, p, a).mver == st.mver && NextStore(c, st, i, p, a).lock == st.lock;
  }

  lemma OwnKeeps(c: Config, st: Store, i: Name, p: Proc, a: IAction)
    requires InstEnabled(c, st, i, p, a) && ProcOk(c, st, i, p) && HoldersResolve(c, st)
    requires a.GetLock? && a.ok && a.seen == Some(i) ==> st.lock == Some(i)
    ensures ProcOk(c, NextStore(c, st, i, p, a), i, NextProc(c, st, i, p, a))
  {
    if LockCall(a) {
      OwnLock(c, st, i, p, a);
    } else {
      OwnWork(c, st, i, p, a);
    }
  }

  /** A reconcile past its first look works for the requested version, and what it saw is there. */
  lemma CurrentWork(c: Config, st: Store, i: Name, p: Proc)
    requires HostOk(c, st, i) && InstOk(c, st, i, p) && p.Run?
    requires !p.at.Binaries? && !p.at.Kubeadm? && !p.at.Close?
    ensures st.target == Some(p.ver) && (p.view * c.cp != {} ==> Patched(c, st, p.ver))
  {
    Working(c, st, i, p);
  }

  lemma PatchedStays(c: Config, st: Store, t: Store, i: Name, v: Version)
    requires c.Wf() && Shaped(c, st) && i in c.active && Guarantee(c, st, t, i) && HostOk(c, st, i)
    requires st.target == Some(v) && Patched(c, st, v)
    ensures Patched(c, t, v)
  {
  }

  /** Before the first patch, nobody but the holder in the zone removes the lock. */
  lemma LockKept(c: Config, st: Store, i: Name, p: Proc, a: IAction, j: Name, v: Version)
    requires HostOk(c, st, i) && InstOk(c, st, i, p) && ProcOk(c, st, i, p) && InstEnabled(c, st, i, p, a)
    requires st.lock == Some(j) && j != i && st.target == Some(v) && !Patched(c, st, v)
    ensures NextStore(c, st, i, p, a).lock == st.lock
  {
    if a.DeleteLock? {
      CurrentWork(c, st, i, p);
    }
  }

  lemma OthersKeep(c: Config, s: State, i: Name, a: IAction, j: Name)
    requires Inv(c, s) && MutexOk(c, s) && Enabled(c, s, Inst(i, a)) && j in s.ip && j != i
    ensures ProcOk(c, NextStore(c, s.st, i, s.ip[i], a), j, s.ip[j])
  {
    var t, p := NextStore(c, s.st, i, s.ip[i], a), s.ip[j];
    assert HostOk(c, s.st, i) && HostOk(c, s.st, j);
    if InZone(p) {
      CurrentWork(c, s.st, j, p);
      if Patched(c, s.st, p.ver) {
        InstGuarantee(c, s.st, i, s.ip[i], a);
        PatchedStays(c, s.st, t, i, p.ver);
      } else {
        LockKept(c, s.st, i, s.ip[i], a, j, p.ver);
      }
    }
  }

  lemma ResolveKeeps(c: Config, st: Store, i: Name, p: Proc, a: IAction)
    requires HoldersResolve(c, st) && Has(st, i) && InstOk(c, st, i, p) && InstEnabled(c, st, i, p, a)
    ensures HoldersResolve(c, NextStore(c, st, i, p, a))
  {
  }

  lemma InstMutex(c: Config, s: State, i: Name, a: IAction)
    requires Inv(c, s) && MutexOk(c, s) && Enabled(c, s, Inst(i, a)) && OwnRead(c, s, Inst(i, a))
    ensures MutexOk(c, Next(c, s, Inst(i, a)))
  {
    var t := Next(c, s, Inst(i, a));
    OwnKeeps(c, s.st, i, s.ip[i], a);
    forall j | j in s.ip && j != i ensures ProcOk(c, t.st, j, s.ip[j]) {
      OthersKeep(c, s, i, a, j);
    }
    ResolveKeeps(c, s.st, i, s.ip[i], a);
  }

  /** The cluster controller touches neither the lock nor the machines. */
  lemma OtherMutex(c: Config, s: State, a: Action)
    requires MutexOk(c, s) && Enabled(c, s, a) && !a.Inst?
    ensures MutexOk(c, Next(c, s, a))
  {
    var t := Next(c, s, a);
    assert t.st.mver == s.st.mver && t.st.lock == s.st.lock && t.st.locks == s.st.locks;
    forall j | j in t.ip ensures ProcOk(c, t.st, j, t.ip[j]) {
      assert ProcOk(c, s.st, j, s.ip[j]);
    }
  }

  lemma {:induction false} MutexRun(c: Config, s: State, run: seq<Action>)
    requires Inv(c, s) && MutexOk(c, s) && IsRun(c, s, run) && Along(c, s, run, OwnRead)
    ensures Inv(c, Exec(c, s, run)) && MutexOk(c, Exec(c, s, run))
    decreases |run|
  {
    if run != [] {
      StepKeeps(c, s, run[0]);
      if run[0].Inst? {
        InstMutex(c, s, run[0].i, run[0].ia);
      } else {
        OtherMutex(c, s, run[0]);
      }
      MutexRun(c, Next(c, s, run[0]), run[1..]);
    }
  }

  lemma ZoneAlone(c: Config, s: State)
    requires Inv(c, s) && MutexOk(c, s)
    ensures Exclusive(c, s)
  {
    forall i | i in s.ip && InZone(s.ip[i])
      ensures s.st.target == Some(s.ip[i].ver) && (s.st.lock == Some(i) || Patched(c, s.st, s.ip[i].ver))
    {
      assert HostOk(c, s.st, i) && ProcOk(c, s.st, i, s.ip[i]);
      CurrentWork(c, s.st, i, s.ip[i]);
    }
  }

  /** Mutual exclusion.  If the lock holders' names resolve to Machines, then in every run in which no
      instance takes an old lock of its own for the current, with all other reads as stale as may be,
      two different instances are never both between `Lock` and release before the first control-plane
      machine got the new version. */
  lemma OneInZone(c: Config, s: State, run: seq<Action>)
    requires Init(c, s) && HoldersResolve(c, s.st) && IsRun(c, s, run) && Along(c, s, run, OwnRead)
    ensures Exclusive(c, Exec(c, s, run))
  {
    InitInv(c, s);
    MutexRun(c, s, run);
    ZoneAlone(c, Exec(c, s, run));
  }
}

/** The two ways in which the lock fails.  It looks its holder up as a Machine, by the name of a KKInstance:
    where a name does not resolve the lock is removed from outside.  And it reads its ConfigMap from a
    cache: who still sees an old lock of its own goes in beside the holder.  Mutual exclusion is lost
    exactly there. */
module UpgradeLockTheft {
  import opened Common
  import opened UpgradeModel
  import opened UpgradeRuns
  import opened UpgradeSafety
  import opened UpgradeMutex
  import opened UpgradeProgress
  import opened UpgradeFinish

  /** A run from `s` to `t` in which no instance takes an old lock of its own for the current. */
  ghost predicate Way(c: Config, s: State, run: seq<Action>, t: State) {
    IsRun(c, s, run) && Along(c, s, run, OwnRead) && Exec(c, s, run) == t
  }

  lemma WayOn(c: Config, s: State, r1: seq<Action>, t: State, r2: seq<Action>, u: State)
    requires Way(c, s, r1, t) && Way(c, t, r2, u)
    ensures Way(c, s, r1 + r2, u)
  {
    AlongConcat(c, s, r1, r2, OwnRead);
  }

  lemma WayStep(c: Config, s: State, run: seq<Action>, t: State, a: Action)
    requires Way(c, s, run, t) && Enabled(c, t, a) && OwnRead(c, t, a)
    ensures Way(c, s, run + [a], Next(c, t, a))
  {
    AlongOne(c, t, a, OwnRead);
    WayOn(c, s, run, t, [a], Next(c, t, a));
  }

  lemma CalmWay(c: Config, s: State, run: seq<Action>)
    requires CalmRun(c, s, run)
    ensures Way(c, s, run, Exec(c, s, run))
  {
    AlongWeaker(c, s, run, CurrentReads, OwnRead);
  }

  /** Two control planes asked for `v`, when no control-plane machine is there yet. */
  ghost predicate Rivals(c: Config, s: State, v: Version, i: Name, j: Name) {
    && i != j && i in c.active * c.cp && j in c.active * c.cp && i in s.ip && j in s.ip
    && Has(s.st, i) && Has(s.st, j) && i in s.st.ann && j in s.st.ann && s.st.ann[i] == s.st.ann[j] == v
    && s.st.running[i] != v && s.st.running[j] != v
    && AtVersion(s.st, v) * c.cp == {} && s.st.target == Some(v)
  }

  /** The same rivals, with `i` moved and `j` where it was. */
  ghost predicate Moved(c: Config, s: State, t: State, v: Version, i: Name, j: Name, pt: Option<Point>) {
    && Rivals(c, t, v, i, j) && j in s.ip && t.ip[j] == s.ip[j]
    && if pt.None? then t.ip[i].Idle? else At(t.ip[i], pt.value)
  }

  /** Instance `i` alone, to a place where the machines are as before. */
  lemma Moves(c: Config, s: State, v: Version, i: Name, j: Name, st: Store, p: Proc) returns (run: seq<Action>, t: State)
    requires Rivals(c, s, v, i, j) && Leads(c, s, i, st, p)
    requires st == s.st.(lock := st.lock, locks := st.locks, obs := st.obs) && st.obs.Keys == s.st.obs.Keys
    ensures Way(c, s, run, t) && t == State(st, s.cc, s.ip[i := p])
    ensures Moved(c, s, t, v, i, j, if p.Idle? then None else Some(p.at))
  {
    run :| SoloRun(c, s, i, run, st, p);
    t := Exec(c, s, run);
    CalmWay(c, s, run);
    assert AtVersion(st, v) == AtVersion(s.st, v);
  }

  lemma TakesLock(c: Config, s: State, v: Version, i: Name, j: Name) returns (run: seq<Action>, t: State)
    requires Rivals(c, s, v, i, j) && s.ip[i].Idle? && (s.st.lock.Some? ==> s.st.lock.value == i)
    ensures Way(c, s, run, t) && Moved(c, s, t, v, i, j, Some(Apply)) && t.st.lock == Some(i)
    ensures s.st.lock.None? ==> i in t.st.locks
  {
    ToCritical(c, s, i, v);
    run, t := Moves(c, s, v, i, j, Locked(s.st, i), Look(s.st, i, v, Apply));
  }

  lemma RemovesIt(c: Config, s: State, v: Version, i: Name, j: Name) returns (run: seq<Action>, t: State)
    requires Rivals(c, s, v, i, j) && s.ip[i].Idle?
    requires s.st.lock.Some? && s.st.lock.value != i && s.st.lock.value !in c.machineNames
    ensures Way(c, s, run, t) && Moved(c, s, t, v, i, j, None) && t.st.lock.None?
  {
    RemovesLock(c, s, i, v);
    run, t := Moves(c, s, v, i, j, s.st.(lock := None, obs := s.st.obs[i := s.st.running[i]]), Idle);
  }

  lemma IsAboutToRemove(c: Config, s: State, v: Version, i: Name, j: Name) returns (run: seq<Action>, t: State)
    requires Rivals(c, s, v, i, j) && s.ip[i].Idle?
    requires s.st.lock.Some? && s.st.lock.value != i && s.st.lock.value !in c.machineNames
    ensures Way(c, s, run, t) && Moved(c, s, t, v, i, j, Some(StealDelete)) && t.st.lock == s.st.lock
  {
    RemovesLock(c, s, i, v);
    run, t := Moves(c, s, v, i, j, s.st, Look(s.st, i, v, StealDelete));
  }

  /** A reconcile that is about to delete the lock deletes whatever lock there is, and ends. */
  lemma Removes(c: Config, s: State, v: Version, i: Name, j: Name) returns (run: seq<Action>, t: State)
    requires Rivals(c, s, v, i, j) && (At(s.ip[i], StealDelete) || At(s.ip[i], FreeDelete))
    ensures Way(c, s, run, t) && Moved(c, s, t, v, i, j, None) && t.st.lock.None? && t.st.locks == s.st.locks
  {
    var p := s.ip[i];
    LeadsStart(c, s, i);
    LeadsStep(c, s, i, s.st, p, DeleteLock(Ok));
    ToIdle(c, s, i, s.st.(lock := None), p.(at := Close(false)));
    run, t := Moves(c, s, v, i, j, s.st.(lock := None, obs := s.st.obs[i := p.seen]), Idle);
  }

  /** The holder fails in its command and gives the lock back. */
  lemma Fails(c: Config, s: State, v: Version, i: Name, j: Name) returns (run: seq<Action>, t: State)
    requires Rivals(c, s, v, i, j) && At(s.ip[i], Apply) && s.st.lock == Some(i)
    ensures Way(c, s, run, t) && Moved(c, s, t, v, i, j, None) && t.st.lock.None? && t.st.locks == s.st.locks
  {
    var a := Inst(i, UpgradeApply(Rejected));
    WayStep(c, s, [], s, a);
    var s1 := Next(c, s, a);
    var p := s1.ip[i];
    LeadsStart(c, s1, i);
    LeadsStep(c, s1, i, s1.st, p, GetToUnlock(true, true));
    var r1, s2 := Moves(c, s1, v, i, j, s1.st, p.(at := FreeDelete));
    var r2;
    r2, t := Removes(c, s2, v, i, j);
    WayOn(c, s, [] + [a], s1, r1, s2);
    WayOn(c, s, [] + [a] + r1, s2, r2, t);
    run := [] + [a] + r1 + r2;
  }

  lemma GivesBack(c: Config, s: State, v: Version, i: Name, j: Name) returns (run: seq<Action>, t: State)
    requires Rivals(c, s, v, i, j) && s.ip[i].Idle? && s.st.lock == Some(i)
    ensures Way(c, s, run, t) && Moved(c, s, t, v, i, j, None) && t.st.lock.None?
  {
    var r1, s1 := TakesLock(c, s, v, i, j);
    var r2;
    r2, t := Fails(c, s1, v, i, j);
    WayOn(c, s, r1, s1, r2, t);
    run := r1 + r2;
  }

  /** The lock is free, or free to be taken from outside, or held by an active control plane. */
  lemma FreesLock(c: Config, s: State, v: Version, i: Name, j: Name) returns (run: seq<Action>, t: State)
    requires Rivals(c, s, v, i, j) && s.ip[i].Idle? && s.ip[j].Idle?
    requires s.st.lock.Some? ==> s.st.lock.value == i || s.st.lock.value == j || s.st.lock.value !in c.machineNames
    ensures Way(c, s, run, t) && Rivals(c, t, v, i, j)
    ensures t.ip[i].Idle? && t.ip[j].Idle? && t.st.lock.None?
  {
    if s.st.lock.None? {
      run, t := [], s;
    } else if s.st.lock.value == i {
      run, t := GivesBack(c, s, v, i, j);
    } else if s.st.lock.value == j {
      run, t := GivesBack(c, s, v, j, i);
    } else {
      run, t := RemovesIt(c, s, v, i, j);
    }
  }

  /** Both are in the critical section, and no machine is patched. */
  lemma BothIn(c: Config, s: State, v: Version, i: Name, j: Name)
    requires Rivals(c, s, v, i, j) && At(s.ip[i], Apply) && At(s.ip[j], Apply)
    ensures !Exclusive(c, s)
  {
    var seen := AtVersion(s.st, v) * c.cp;
    assert forall m :: m in c.cp && m in AtVersion(s.st, v) ==> m in seen;
    assert InZone(s.ip[i]) && InZone(s.ip[j]);
  }

  /** The lock of a control plane whose name is not the name of a Machine is taken from it. */
  lemma UnresolvedHolder(c: Config, s: State, v: Version, i: Name, j: Name) returns (run: seq<Action>, t: State)
    requires Rivals(c, s, v, i, j) && s.ip[i].Idle? && s.ip[j].Idle? && i !in c.machineNames
    requires s.st.lock.Some? ==> s.st.lock.value == i || s.st.lock.value == j || s.st.lock.value !in c.machineNames
    ensures Way(c, s, run, t) && !Exclusive(c, t)
  {
    var r1, s1 := FreesLock(c, s, v, i, j);
    var r2, s2 := TakesLock(c, s1, v, i, j);
    var r3, s3 := RemovesIt(c, s2, v, j, i);
    var r4, s4 := TakesLock(c, s3, v, j, i);
    BothIn(c, s4, v, i, j);
    WayOn(c, s, r1, s1, r2, s2);
    WayOn(c, s, r1 + r2, s2, r3, s3);
    WayOn(c, s, r1 + r2 + r3, s3, r4, s4);
    run, t := r1 + r2 + r3 + r4, s4;
  }

  /** A left-over lock whose holder does not resolve: while `i` is about to delete it, `j` deletes it
      and takes the lock; then `i` deletes the lock of `j`. */
  lemma UnresolvedLeftover(c: Config, s: State, v: Version, i: Name, j: Name) returns (run: seq<Action>, t: State)
    requires Rivals(c, s, v, i, j) && s.ip[i].Idle? && s.ip[j].Idle?
    requires s.st.lock.Some? && s.st.lock.value != i && s.st.lock.value != j && s.st.lock.value !in c.machineNames
    ensures Way(c, s, run, t) && !Exclusive(c, t)
  {
    var r1, s1 := IsAboutToRemove(c, s, v, i, j);
    var r2, s2 := RemovesIt(c, s1, v, j, i);
    var r3, s3 := TakesLock(c, s2, v, j, i);
    var r4, s4 := Removes(c, s3, v, i, j);
    var r5, s5 := TakesLock(c, s4, v, i, j);
    BothIn(c, s5, v, i, j);
    WayOn(c, s, r1, s1, r2, s2);
    WayOn(c, s, r1 + r2, s2, r3, s3);
    WayOn(c, s, r1 + r2 + r3, s3, r4, s4);
    WayOn(c, s, r1 + r2 + r3 + r4, s4, r5, s5);
    run, t := r1 + r2 + r3 + r4 + r5, s5;
  }

  // ---------------------------------------------------------------------------------------------
  // From the start
  // ---------------------------------------------------------------------------------------------

  /** A version that the webhooks of the control planes accept, and that none of their machines has. */
  ghost predicate Requestable(c: Config, s: State, v: Version) {
    && (forall i :: i in c.active * c.cp && i in s.st.obs ==> Accepts(c, s.st.obs[i], v))
    && AtVersion(s.st, v) * c.cp == {}
  }

  lemma Challenge(c: Config, s: State, v: Version, i: Name, j: Name) returns (run: seq<Action>, t: State)
    requires Init(c, s) && Requestable(c, s, v) && i != j && i in c.active * c.cp && j in c.active * c.cp
    ensures Way(c, s, run, t) && Rivals(c, t, v, i, j)
    ensures t.ip[i].Idle? && t.ip[j].Idle? && t.st.lock == s.st.lock
  {
    var cps := c.active * c.cp;
    assert Accepts(c, s.st.obs[i], v) && c.parse(v).Some?;
    var r1, s1 := Asks(c, s, v);
    var r2;
    r2, t := AnnotateTwo(c, s1, v, cps, i, j);
    WayOn(c, s, r1, s1, r2, t);
    run := r1 + r2;
    assert AtVersion(t.st, v) == AtVersion(s.st, v);
  }

  lemma Asks(c: Config, s: State, v: Version) returns (run: seq<Action>, t: State)
    requires s.st.target.None? && s.cc.CIdle? && !s.st.paused && c.parse(v).Some? && c.active * c.cp != {}
    ensures Way(c, s, run, t)
    ensures t == State(s.st.(target := Some(v), paused := true), CRun(Some(v), AnnotateCp(c.active * c.cp)), s.ip)
  {
    var s1 := Next(c, s, Request(v));
    var s2 := Next(c, s1, Cluster(CBegin));
    t := Next(c, s2, Cluster(SetPaused(false, Ok)));
    WayStep(c, s, [], s, Request(v));
    WayStep(c, s, [] + [Request(v)], s1, Cluster(CBegin));
    run := [] + [Request(v)] + [Cluster(CBegin)];
    WayStep(c, s, run, s2, Cluster(SetPaused(false, Ok)));
    run := run + [Cluster(SetPaused(false, Ok))];
  }

  lemma AnnotateTwo(c: Config, s: State, v: Version, todo: set<Name>, i: Name, j: Name) returns (run: seq<Action>, t: State)
    requires s.cc == CRun(Some(v), AnnotateCp(todo)) && s.st.ann == map[] && i != j && i in todo && j in todo
    requires i in c.active && j in c.active && i in s.st.obs && j in s.st.obs
    requires Accepts(c, s.st.obs[i], v) && Accepts(c, s.st.obs[j], v)
    ensures Way(c, s, run, t)
    ensures t == State(s.st.(ann := map[i := v, j := v]), t.cc, s.ip)
  {
    var s1 := Next(c, s, Cluster(Annotate(i, Ok)));
    assert j in todo - {i};
    assert s1 == State(s.st.(ann := map[i := v]), CRun(Some(v), AnnotateCp(todo - {i})), s.ip);
    t := Next(c, s1, Cluster(Annotate(j, Ok)));
    WayStep(c, s, [], s, Cluster(Annotate(i, Ok)));
    WayStep(c, s, [] + [Cluster(Annotate(i, Ok))], s1, Cluster(Annotate(j, Ok)));
    run := [] + [Cluster(Annotate(i, Ok))] + [Cluster(Annotate(j, Ok))];
    assert map[i := v][j := v] == map[i := v, j := v];
  }

  /** Any two control planes, if names do not resolve. */
  lemma BreaksMutex(c: Config, s: State, v: Version) returns (run: seq<Action>, t: State)
    requires Init(c, s) && Requestable(c, s, v) && !HoldersResolve(c, s.st) && !Dead(c, s.st)
    requires exists i, j :: i != j && i in c.active * c.cp && j in c.active * c.cp
    ensures Way(c, s, run, t) && !Exclusive(c, t)
  {
    var i, j :| i != j && i in c.active * c.cp && j in c.active * c.cp;
    var lock, r1, r2, s1 := s.st.lock, [], [], s;
    if x :| x in c.active * c.cp && x !in c.machineNames {
      var y := if x == i then j else i;
      if lock.Some? && lock.value in c.active * c.cp && lock.value != x {
        y := lock.value;
      }
      r1, s1 := Challenge(c, s, v, x, y);
      r2, t := UnresolvedHolder(c, s1, v, x, y);
    } else {
      assert lock.Some? && lock.value !in c.machineNames && lock.value != i && lock.value != j;
      r1, s1 := Challenge(c, s, v, i, j);
      r2, t := UnresolvedLeftover(c, s1, v, i, j);
    }
    WayOn(c, s, r1, s1, r2, t);
    run := r1 + r2;
  }

  /** Mutual exclusion holds in all runs in which no instance takes an old lock of its own for the current,
      if and only if the names of the active control planes, and the name in a left-over lock, are names of
      Machines; in every cluster with two active control planes that can be asked for a version none of
      them has, and a lock that lets them in at all. */
  lemma MutexIff(c: Config, s: State, v: Version)
    requires Init(c, s) && Requestable(c, s, v) && !Dead(c, s.st)
    requires exists i, j :: i != j && i in c.active * c.cp && j in c.active * c.cp
    ensures (forall run, t :: Way(c, s, run, t) ==> Exclusive(c, t)) <==> HoldersResolve(c, s.st)
  {
    if HoldersResolve(c, s.st) {
      forall run, t | Way(c, s, run, t) ensures Exclusive(c, t) {
        OneInZone(c, s, run);
      }
    } else {
      var run, t := BreaksMutex(c, s, v);
    }
  }

  // ---------------------------------------------------------------------------------------------
  // A stale read of the own lock
  // ---------------------------------------------------------------------------------------------

  /** Instance `i` up to its first look at the lock, or, if there is none, up to its creation. */
  lemma IsAboutToLock(c: Config, s: State, v: Version, i: Name, j: Name, looked: bool) returns (run: seq<Action>, t: State)
    requires Rivals(c, s, v, i, j) && s.ip[i].Idle? && s.st.lock.None?
    ensures Way(c, s, run, t) && Moved(c, s, t, v, i, j, Some(if looked then LockCreate else LockGet)) && t.st == s.st
  {
    var p := Look(s.st, i, v, Recheck);
    ToDecision(c, s, i, v);
    LeadsStep(c, s, i, s.st, p, Reread(AtVersion(s.st, v)));
    if looked {
      LeadsStep(c, s, i, s.st, p.(at := LockGet), GetLock(true, None));
    }
    run, t := Moves(c, s, v, i, j, s.st, p.(at := if looked then LockCreate else LockGet));
  }

  /** Instance `i` locked, failed and gave the lock back; both are about to lock. */
  lemma BothAboutToLock(c: Config, s: State, v: Version, i: Name, j: Name) returns (run: seq<Action>, t: State)
    requires Rivals(c, s, v, i, j) && s.ip[i].Idle? && s.ip[j].Idle? && s.st.lock.None?
    ensures Way(c, s, run, t) && Rivals(c, t, v, i, j) && At(t.ip[i], LockGet) && At(t.ip[j], LockCreate)
    ensures t.st.lock.None? && i in t.st.locks
  {
    var r1, s1 := TakesLock(c, s, v, i, j);
    var r2, s2 := Fails(c, s1, v, i, j);
    var r3, s3 := IsAboutToLock(c, s2, v, i, j, false);
    var r4;
    r4, t := IsAboutToLock(c, s3, v, j, i, true);
    WayOn(c, s, r1, s1, r2, s2);
    WayOn(c, s, r1 + r2, s2, r3, s3);
    WayOn(c, s, r1 + r2 + r3, s3, r4, t);
    run := r1 + r2 + r3 + r4;
  }

  lemma BothGoIn(c: Config, s: State, v: Version, i: Name, j: Name)
    requires Rivals(c, s, v, i, j) && At(s.ip[i], LockGet) && At(s.ip[j], LockCreate) && s.st.lock.None? && i in s.st.locks
    ensures var b, a := Inst(j, CreateLock(Ok)), Inst(i, GetLock(true, Some(i)));
            && Acquires(c, s, b, j) && Acquires(c, Next(c, s, b), a, i) && !OwnRead(c, Next(c, s, b), a)
            && !Exclusive(c, Next(c, Next(c, s, b), a))
  {
    var s1 := Next(c, s, Inst(j, CreateLock(Ok)));
    assert s1 == State(s.st.(lock := Some(j), locks := s.st.locks + {j}), s.cc, s.ip[j := s.ip[j].(at := Apply)]);
    var s2 := Next(c, s1, Inst(i, GetLock(true, Some(i))));
    assert s2 == State(s1.st, s.cc, s1.ip[i := s.ip[i].(at := Apply)]);
    assert AtVersion(s2.st, v) == AtVersion(s.st, v);
    BothIn(c, s2, v, i, j);
  }

  /** Instance `i` locks, fails and gives the lock back; `j` creates the lock, and `i` goes in right after it
      on an old read: `Lock` returns true to both with no delete between, although every name resolves. */
  lemma StaleOwnLock(c: Config, s: State, v: Version, i: Name, j: Name) returns (run: seq<Action>, t: State)
    requires Init(c, s) && Requestable(c, s, v) && s.st.lock.None?
    requires i != j && i in c.active * c.cp && j in c.active * c.cp
    ensures Way(c, s, run, t)
    ensures var b, a := Inst(j, CreateLock(Ok)), Inst(i, GetLock(true, Some(i)));
            && Acquires(c, t, b, j) && Acquires(c, Next(c, t, b), a, i) && !OwnRead(c, Next(c, t, b), a)
            && !Exclusive(c, Next(c, Next(c, t, b), a))
  {
    var r1, s1 := Challenge(c, s, v, i, j);
    var r2;
    r2, t := BothAboutToLock(c, s1, v, i, j);
    WayOn(c, s, r1, s1, r2, t);
    run := r1 + r2;
    BothGoIn(c, t, v, i, j);
  }

  ghost predicate StaysExclusive(c: Config, s: State) {
    forall more, t :: Way(c, s, more, t) ==> Exclusive(c, t)
  }

  /** The rival `j`: asked for `v`, before the first patch, and the lock is free or its own. */
  ghost predicate Chaser(c: Config, s: State, v: Version, j: Name) {
    && Inv(c, s) && s.st.target == Some(v) && !Patched(c, s.st, v)
    && j in c.active * c.cp && j in s.st.ann && (s.st.lock.Some? ==> s.st.lock.value == j)
    && HoldersResolve(c, s.st) && ProcOk(c, s.st, j, s.ip[j])
  }

  /** Outside the critical section it can only be on its way there, or at its end. */
  predicate Early(pt: Point) {
    pt.Binaries? || pt.Kubeadm? || pt.Decide? || pt.Recheck? || pt.LockGet? || pt.LockHolder? || pt.LockCreate? || pt.Close?
  }

  lemma ChaserEarly(c: Config, s: State, v: Version, j: Name)
    requires Chaser(c, s, v, j) && s.ip[j].Run? && !InZone(s.ip[j])
    ensures Early(s.ip[j].at)
  {
    var p := s.ip[j];
    assert HostOk(c, s.st, j) && InstOk(c, s.st, j, p);
    if !Early(p.at) {
      CurrentWork(c, s.st, j, p);
    }
  }

  lemma EarlyCall(c: Config, st: Store, j: Name, p: Proc)
    requires j in c.active && Has(st, j) && p.Run? && Early(p.at) && (st.lock.Some? ==> st.lock.value == j)
    requires InstEnabled(c, st, j, p, NextCall(st, p))
    ensures var t := NextStore(c, st, j, p, NextCall(st, p));
            t.mver == st.mver && (t.lock.Some? ==> t.lock.value == j)
  {
  }

  lemma ChaserStep(c: Config, s: State, v: Version, j: Name) returns (t: State)
    requires Chaser(c, s, v, j) && s.ip[j].Run? && !InZone(s.ip[j])
    ensures var a := Inst(j, NextCall(s.st, s.ip[j]));
            Enabled(c, s, a) && Calm(c, a) && CurrentReads(c, s, a) && t == Next(c, s, a)
    ensures Chaser(c, t, v, j) && t.ip == s.ip[j := t.ip[j]] && Rank(t.ip[j]) < Rank(s.ip[j])
  {
    var p := s.ip[j];
    var a := NextCall(s.st, p);
    assert HostOk(c, s.st, j);
    NextCallWorks(c, s.st, j, p);
    ChaserEarly(c, s, v, j);
    EarlyCall(c, s.st, j, p);
    t := Next(c, s, Inst(j, a));
    StepKeeps(c, s, Inst(j, a));
    OwnKeeps(c, s.st, j, p, a);
    ResolveKeeps(c, s.st, j, p, a);
  }

  /** Instance `j` went into the critical section, and nothing is patched. */
  ghost predicate WentIn(c: Config, s: State, t: State, v: Version, j: Name) {
    && t.st.target == Some(v) && !Patched(c, t.st, v) && j in t.ip && InZone(t.ip[j])
    && forall i :: i in s.ip && i != j ==> i in t.ip && t.ip[i] == s.ip[i]
  }

  /** The rival gets in by its own calls, whatever the others do. */
  lemma {:induction false} ToZone(c: Config, s: State, v: Version, j: Name) returns (run: seq<Action>, t: State)
    requires Chaser(c, s, v, j)
    ensures CalmRun(c, s, run) && Exec(c, s, run) == t && WentIn(c, s, t, v, j)
    decreases Rank(s.ip[j])
  {
    if InZone(s.ip[j]) {
      run, t := [], s;
    } else if s.ip[j].Idle? {
      ChaserReady(c, s, v, j);
      run, t := ToZoneIdle(c, s, v, j);
    } else {
      var s1 := ChaserStep(c, s, v, j);
      run, t := ToZone(c, s1, v, j);
      var a := Inst(j, NextCall(s.st, s.ip[j]));
      CalmThen(c, s, a, run);
      run := [a] + run;
    }
  }

  lemma ChaserReady(c: Config, s: State, v: Version, j: Name)
    requires Chaser(c, s, v, j) && s.ip[j].Idle?
    ensures Ready(c, s, j, v) && s.st.running[j] != v && j in c.cp && AtVersion(s.st, v) * c.cp == {}
  {
    assert HostOk(c, s.st, j);
  }

  lemma ToZoneIdle(c: Config, s: State, v: Version, j: Name) returns (run: seq<Action>, t: State)
    requires Ready(c, s, j, v) && s.st.running[j] != v && j in c.cp && AtVersion(s.st, v) * c.cp == {}
    requires s.st.target == Some(v) && !Patched(c, s.st, v) && (s.st.lock.Some? ==> s.st.lock.value == j)
    ensures CalmRun(c, s, run) && Exec(c, s, run) == t && WentIn(c, s, t, v, j)
  {
    ToCritical(c, s, j, v);
    run :| SoloRun(c, s, j, run, Locked(s.st, j), Look(s.st, j, v, Apply));
    t := Exec(c, s, run);
    assert t.st.mver == s.st.mver;
  }

  lemma BecomesChaser(c: Config, s: State, t: State, v: Version, j: Name)
    requires Inv(c, t) && s.st.target == Some(v) && !Patched(c, s.st, v) && HoldersResolve(c, s.st)
    requires j in s.ip && j in c.active * c.cp && ProcOk(c, s.st, j, s.ip[j]) && (s.st.lock.Some? ==> s.st.lock.value == j)
    requires t.st == s.st.(paused := t.st.paused, ann := t.st.ann) && t.ip == s.ip && t.st.ann.Keys == c.active
    ensures Chaser(c, t, v, j)
  {
  }

  /** Instance `i` is in the critical section without the lock: a rival comes in beside it. */
  lemma RivalComesIn(c: Config, s: State, v: Version, i: Name, j: Name) returns (run: seq<Action>, t: State)
    requires Inv(c, s) && s.st.target == Some(v) && !Patched(c, s.st, v) && CanGoOn(c, s, v) && HoldersResolve(c, s.st)
    requires i in c.active && InZone(s.ip[i]) && i != j && j in c.active * c.cp && ProcOk(c, s.st, j, s.ip[j])
    requires s.st.lock.Some? ==> s.st.lock.value == j
    ensures Way(c, s, run, t) && !Exclusive(c, t)
  {
    NotClosing(c, s, v, j);
    var r1, s1 := ToCheck(c, s, v);
    RunKeeps(c, s, r1);
    BecomesChaser(c, s, s1, v, j);
    var r2;
    r2, t := ToZone(c, s1, v, j);
    CalmConcat(c, s, r1, r2);
    run := r1 + r2;
    CalmWay(c, s, run);
    TwoIn(c, s1, t, v, i, j);
  }

  lemma TwoIn(c: Config, s: State, t: State, v: Version, i: Name, j: Name)
    requires WentIn(c, s, t, v, j) && i in s.ip && InZone(s.ip[i]) && i != j
    ensures !Exclusive(c, t)
  {
    assert i in t.ip && InZone(t.ip[i]);
  }

  lemma NotClosing(c: Config, s: State, v: Version, j: Name)
    requires Inv(c, s) && j in c.active * c.cp && !Patched(c, s.st, v)
    ensures !Closing(s.cc, v)
  {
    assert j in s.st.mver && s.st.mver[j] != v;
  }

  /** The condition on reads of the own lock is exact.  After any run that met it, from a cluster whose
      holders resolve, for an upgrade that can go on with no control plane patched yet and another active
      control plane: a read that shows the own lock is right, if and only if no continuation that meets
      the condition puts two instances into the critical section. */
  lemma OwnReadIff(c: Config, s: State, run: seq<Action>, t: State, i: Name, other: Name)
    requires Init(c, s) && HoldersResolve(c, s.st) && Way(c, s, run, t)
    requires Enabled(c, t, Inst(i, GetLock(true, Some(i)))) && other != i && other in c.active * c.cp
    requires var v := t.ip[i].ver; !Patched(c, t.st, v) && CanGoOn(c, t, v)
    ensures var a := Inst(i, GetLock(true, Some(i))); OwnRead(c, t, a) <==> StaysExclusive(c, Next(c, t, a))
  {
    InitInv(c, s);
    MutexRun(c, s, run);
    if OwnRead(c, t, Inst(i, GetLock(true, Some(i)))) {
      InstMutex(c, t, i, GetLock(true, Some(i)));
      StepKeeps(c, t, Inst(i, GetLock(true, Some(i))));
      MutexStays(c, Next(c, t, Inst(i, GetLock(true, Some(i)))));
    } else {
      NotAlone(c, t, i, other);
    }
  }

  lemma MutexStays(c: Config, s: State)
    requires Inv(c, s) && MutexOk(c, s)
    ensures StaysExclusive(c, s)
  {
    forall more, t | Way(c, s, more, t) ensures Exclusive(c, t) {
      MutexRun(c, s, more);
      ZoneAlone(c, t);
    }
  }

  lemma NotAlone(c: Config, s: State, i: Name, other: Name)
    requires i in s.ip && At(s.ip[i], LockGet) && !Patched(c, s.st, s.ip[i].ver) && CanGoOn(c, s, s.ip[i].ver)
    requires Enabled(c, s, Inst(i, GetLock(true, Some(i)))) && s.st.lock != Some(i)
    requires other != i && other in c.active * c.cp && Inv(c, s) && MutexOk(c, s)
    ensures !StaysExclusive(c, Next(c, s, Inst(i, GetLock(true, Some(i)))))
  {
    var q := s.ip[i].(at := Apply);
    StepKeeps(c, s, Inst(i, GetLock(true, Some(i))));
    assert Next(c, s, Inst(i, GetLock(true, Some(i)))) == State(s.st, s.cc, s.ip[i := q]);
    assert HostOk(c, s.st, i);
    CurrentWork(c, s.st, i, s.ip[i]);
    GoesInBeside(c, s, i, q, other);
  }

  /** Who takes an old lock of its own for the current is soon not alone. */
  lemma GoesInBeside(c: Config, s: State, i: Name, q: Proc, other: Name)
    requires Inv(c, s) && MutexOk(c, s) && s.st.lock != Some(i) && InZone(q) && Inv(c, State(s.st, s.cc, s.ip[i := q]))
    requires i in c.active && other != i && other in c.active * c.cp
    requires s.st.target == Some(q.ver) && !Patched(c, s.st, q.ver) && CanGoOn(c, s, q.ver)
    ensures !StaysExclusive(c, State(s.st, s.cc, s.ip[i := q]))
  {
    var j := SomeRival(c, s, q.ver, i, other);
    var more, w := RivalComesIn(c, State(s.st, s.cc, s.ip[i := q]), q.ver, i, j);
  }

  /** The holder of the lock, or anyone if there is none. */
  lemma SomeRival(c: Config, s: State, v: Version, i: Name, other: Name) returns (j: Name)
    requires Inv(c, s) && HoldersResolve(c, s.st) && s.st.lock != Some(i) && other != i && other in c.active * c.cp
    requires !Patched(c, s.st, v) && CanGoOn(c, s, v)
    ensures j != i && j in c.active * c.cp && (s.st.lock.Some? ==> s.st.lock.value == j)
  {
    NotClosing(c, s, v, other);
    assert AtVersion(s.st, v) * c.cp == {};
    j := if s.st.lock.Some? then s.st.lock.value else other;
  }
}

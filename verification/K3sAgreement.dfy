/** At most one K3sConfig initialises the cluster, and everybody joins with its token. */
module K3sAgreement {
  import opened Common
  import opened K3sInit

  /** A config that is ready keeps its data: what it was bootstrapped with never changes. */
  lemma ReadyStays(c: Config, s: State, a: Action)
    requires Enabled(c, s, a) && ProcsOk(c, s)
    ensures var t := Next(c, s, a);
            && s.ready <= t.ready
            && (forall n: Name :: n in s.ready && n in s.data ==> n in t.data && t.data[n] == s.data[n])
            && (forall n: Name :: InitReady(s, n) ==> InitReady(t, n))
            && (s.initialized ==> t.initialized)
  {
  }

  /** The only call after which a config is newly ready with init data. */
  ghost predicate Completes(a: Action) {
    a.Do? && a.call.PatchInit? && TookEffect(a.call.f)
  }

  lemma NewlyReady(c: Config, s: State, a: Action, n: Name)
    requires Enabled(c, s, a) && ProcsOk(c, s) && StoreOk(c, s) && InitReady(Next(c, s, a), n)
    ensures InitReady(s, n) || (Completes(a) && a.n == n && At(s, n, CloseInit))
  {
  }

  /** While some reconcile is critical, nobody has initialised the cluster. */
  lemma CriticalAlone(c: Config, s: State, n: Name, k: Name)
    requires Inv(c, s) && n in s.procs && s.procs[n].Run? && Critical(s.procs[n].at)
    ensures !InitReady(s, k)
    ensures k in s.procs && s.procs[k].Run? && Critical(s.procs[k].at) ==> k == n
  {
  }

  lemma StoreKeeps(c: Config, s: State, a: Action)
    requires Enabled(c, s, a) && Inv(c, s) && !LateLock(s, a)
    ensures StoreOk(c, Next(c, s, a))
  {
    var t := Next(c, s, a);
    ReadyStays(c, s, a);
    if a.Do? && s.procs[a.n].Run? && Critical(s.procs[a.n].at) {
      forall k: Name ensures !InitReady(s, k) {
        CriticalAlone(c, s, a.n, k);
      }
    }
    forall n: Name | InitReady(t, n)
      ensures if t.initialized then t.lock.None? || t.lock == Some(n) else t.lock == Some(n)
    {
      NewlyReady(c, s, a, n);
    }
  }

  lemma AgreedKeeps(c: Config, s: State, a: Action)
    requires Enabled(c, s, a) && Inv(c, s) && !LateLock(s, a)
    ensures Agreed(c, Next(c, s, a))
  {
    var t := Next(c, s, a);
    ReadyStays(c, s, a);
    if a.Do? && s.procs[a.n].Run? && Critical(s.procs[a.n].at) {
      forall k: Name ensures !InitReady(s, k) {
        CriticalAlone(c, s, a.n, k);
      }
    }
    forall n: Name | InitReady(t, n)
      ensures t.token == Some(t.data[n].token) && (InitReady(s, n) || (Completes(a) && a.n == n))
    {
      NewlyReady(c, s, a, n);
    }
  }

  predicate JoinCall(call: Call) {
    call.ReadToken? || call.PutJoinData? || call.PatchJoin? || call.GetToUnlock? || call.DeleteLock?
  }

  /** The reconcile that makes the call. */
  lemma OwnInit(c: Config, s: State, n: Name, call: Call)
    requires Enabled(c, s, Do(n, call)) && Inv(c, s) && !LateLock(s, Do(n, call)) && !JoinCall(call)
    ensures var t := Next(c, s, Do(n, call));
            t.procs[n].Run? ==> n !in t.ready && PointOk(c, t, n, t.procs[n].at)
  {
  }

  lemma OwnJoin(c: Config, s: State, n: Name, call: Call)
    requires Enabled(c, s, Do(n, call)) && Inv(c, s) && JoinCall(call)
    ensures var t := Next(c, s, Do(n, call));
            t.procs[n].Run? ==> n !in t.ready && PointOk(c, t, n, t.procs[n].at)
  {
  }

  /** The others meanwhile. */
  lemma OtherKeeps(c: Config, s: State, n: Name, call: Call, k: Name)
    requires Enabled(c, s, Do(n, call)) && Inv(c, s) && k != n && k in s.procs && s.procs[k].Run?
    ensures var t := Next(c, s, Do(n, call)); k !in t.ready && PointOk(c, t, k, s.procs[k].at)
  {
  }

  lemma ProcsKeep(c: Config, s: State, a: Action)
    requires Enabled(c, s, a) && Inv(c, s) && !LateLock(s, a)
    ensures ProcsOk(c, Next(c, s, a))
  {
    var t := Next(c, s, a);
    forall k | k in t.procs && t.procs[k].Run? ensures k !in t.ready && PointOk(c, t, k, t.procs[k].at) {
      if a.Do? {
        if k == a.n {
          if JoinCall(a.call) {
            OwnJoin(c, s, k, a.call);
          } else {
            OwnInit(c, s, k, a.call);
          }
        } else {
          OtherKeeps(c, s, a.n, a.call, k);
        }
      }
    }
  }

  lemma StepKeeps(c: Config, s: State, a: Action)
    requires Enabled(c, s, a) && Inv(c, s) && !LateLock(s, a)
    ensures Inv(c, Next(c, s, a))
  {
    StoreKeeps(c, s, a);
    AgreedKeeps(c, s, a);
    ProcsKeep(c, s, a);
  }

  // ---------------------------------------------------------------------------------------------
  // Runs
  // ---------------------------------------------------------------------------------------------

  ghost predicate InTime(s: State, a: Action) {
    !LateLock(s, a)
  }

  /** No lock is created after the cluster was initialised. */
  ghost predicate NoLateLock(c: Config, s: State, run: seq<Action>)
    requires IsRun(c, s, run)
  {
    Along(c, s, run, InTime)
  }

  lemma {:induction false} RunKeeps(c: Config, s: State, run: seq<Action>)
    requires IsRun(c, s, run) && NoLateLock(c, s, run) && Inv(c, s)
    ensures Inv(c, Exec(c, s, run))
    ensures s.ready <= Exec(c, s, run).ready
    ensures forall n: Name :: n in s.ready ==> n in Exec(c, s, run).data && Exec(c, s, run).data[n] == s.data[n]
    decreases |run|
  {
    if run != [] {
      StepKeeps(c, s, run[0]);
      ReadyStays(c, s, run[0]);
      RunKeeps(c, Next(c, s, run[0]), run[1..]);
    }
  }

  /** In every run in which no lock is created after initialisation, with any interleaving, failed write,
      lost answer or crash: at most one config is ever ready with init data, the token secret is the
      token in that data, and every config that joined without a token of its user's joined with it. */
  lemma OneInitOneToken(c: Config, s: State, run: seq<Action>)
    requires Init(c, s) && IsRun(c, s, run) && NoLateLock(c, s, run)
    ensures Agreed(c, Exec(c, s, run))
    ensures var t := Exec(c, s, run);
            forall n: Name, k: Name :: InitReady(t, n) && k in t.ready && k !in c.given && k != n
              ==> k in t.data && t.data[k] == JoinData(Some(t.data[n].token))
  {
    RunKeeps(c, s, run);
    var t := Exec(c, s, run);
    forall n: Name, k: Name | InitReady(t, n) && k in t.ready && k !in c.given && k != n
      ensures k in t.data && t.data[k] == JoinData(Some(t.data[n].token))
    {
      assert !InitReady(t, k);
    }
  }

  /** From the moment the first config is ready with init data, its token is the token, for good. */
  lemma TokenStays(c: Config, s: State, before: seq<Action>, after: seq<Action>, n: Name)
    requires Init(c, s) && IsRun(c, s, before) && NoLateLock(c, s, before)
    requires var t := Exec(c, s, before); InitReady(t, n) && IsRun(c, t, after) && NoLateLock(c, t, after)
    ensures var t := Exec(c, s, before); var u := Exec(c, t, after);
            InitReady(u, n) && u.token == t.token == Some(t.data[n].token)
  {
    RunKeeps(c, s, before);
    RunKeeps(c, Exec(c, s, before), after);
  }

  // ---------------------------------------------------------------------------------------------
  // One reconcile at a time
  // ---------------------------------------------------------------------------------------------

  ghost predicate AllIdle(s: State) {
    forall n :: n in s.procs ==> s.procs[n].Idle?
  }

  /** A reconcile starts when no other is under way, and reads the cluster as it is. */
  ghost predicate Serial(s: State, a: Action) {
    && (a.Initialize? ==> AllIdle(s))
    && (a.Do? && a.call.Begin? ==> AllIdle(s) && a.call.seesInit == s.initialized)
  }

  ghost predicate SerialRun(c: Config, s: State, run: seq<Action>)
    requires IsRun(c, s, run)
  {
    Along(c, s, run, Serial)
  }

  ghost predicate LockersEarly(s: State) {
    forall n :: n in s.procs && s.procs[n].Run? && (s.procs[n].at.LockGet? || s.procs[n].at.LockCreate?) ==> !s.initialized
  }

  /** With one reconcile at a time the condition of OneInitOneToken always holds. */
  lemma {:induction false} SerialNeverLate(c: Config, s: State, run: seq<Action>)
    requires IsRun(c, s, run) && SerialRun(c, s, run) && LockersEarly(s)
    ensures NoLateLock(c, s, run)
    decreases |run|
  {
    if run != [] {
      assert LockersEarly(Next(c, s, run[0]));
      SerialNeverLate(c, Next(c, s, run[0]), run[1..]);
    }
  }

  // ---------------------------------------------------------------------------------------------
  // Everybody can join
  // ---------------------------------------------------------------------------------------------

  /** The token that a join of `n` ends up with. */
  ghost predicate JoinsWith(c: Config, s: State, n: Name, tok: Option<Token>) {
    if n in c.given then tok == c.given[n] else tok == s.token
  }

  /** Up to the token: a config without one of its user's finds that of the secret. */
  lemma FindsToken(c: Config, s: State, n: Name) returns (run: seq<Action>, tok: Option<Token>)
    requires Inv(c, s) && s.initialized && n in s.procs && s.procs[n].Idle? && n !in s.ready
    ensures IsRun(c, s, run) && NoLateLock(c, s, run) && JoinsWith(c, s, n, tok)
    ensures Exec(c, s, run) == s.(lock := None, procs := s.procs[n := Run(StoreJoin(tok))])
  {
    var k :| InitReady(s, k);
    tok := if n in c.given then c.given[n] else s.token;
    run := [];
    RunSnoc(c, s, run, Do(n, Begin(true)), InTime);
    run := run + [Do(n, Begin(true))];
    RunSnoc(c, s, run, Do(n, GetToUnlock(true)), InTime);
    run := run + [Do(n, GetToUnlock(true))];
    if s.lock.Some? {
      RunSnoc(c, s, run, Do(n, DeleteLock(Ok)), InTime);
      run := run + [Do(n, DeleteLock(Ok))];
    }
    RunSnoc(c, s, run, Do(n, ReadToken(true, true)), InTime);
    run := run + [Do(n, ReadToken(true, true))];
    assert Exec(c, s, run).procs == s.procs[n := Run(StoreJoin(tok))];
  }

  /** Once the cluster is initialised every config can join: from every state of the invariant some run
      without a failure makes any config that waits ready, with its user's token or that of the secret, and
      leaves what the others have as it is. */
  lemma CanJoin(c: Config, s: State, n: Name) returns (run: seq<Action>)
    requires Inv(c, s) && s.initialized && n in s.procs && s.procs[n].Idle? && n !in s.ready
    ensures IsRun(c, s, run) && NoLateLock(c, s, run)
    ensures var t := Exec(c, s, run);
            && n in t.ready && n in t.data && t.data[n].JoinData? && JoinsWith(c, s, n, t.data[n].joinToken)
            && t.token == s.token && t.ready == s.ready + {n} && t.data == s.data[n := t.data[n]] && Agreed(c, t)
  {
    var tok;
    run, tok := FindsToken(c, s, n);
    RunSnoc(c, s, run, Do(n, PutJoinData(Ok)), InTime);
    run := run + [Do(n, PutJoinData(Ok))];
    RunSnoc(c, s, run, Do(n, PatchJoin(Ok)), InTime);
    run := run + [Do(n, PatchJoin(Ok))];
    RunKeeps(c, s, run);
  }

  /** And before that some control plane can initialise it, if one is free to: nobody holds the lock but itself. */
  lemma CanInit(c: Config, s: State, n: Name, t: Token) returns (run: seq<Action>)
    requires Inv(c, s) && !s.initialized && n in s.procs && s.procs[n].Idle? && n !in s.ready && n in c.cp * c.initable
    requires s.lock.Some? ==> s.lock.value == n
    ensures IsRun(c, s, run) && NoLateLock(c, s, run)
    ensures var u := Exec(c, s, run);
            InitReady(u, n) && u.token == Some(t) == Some(u.data[n].token) && u.initialized && Agreed(c, u)
  {
    run := [];
    RunSnoc(c, s, run, Do(n, Begin(false)), InTime);
    run := run + [Do(n, Begin(false))];
    RunSnoc(c, s, run, Do(n, GetLock(true)), InTime);
    run := run + [Do(n, GetLock(true))];
    if s.lock.None? {
      RunSnoc(c, s, run, Do(n, CreateLock(Ok)), InTime);
      run := run + [Do(n, CreateLock(Ok))];
    }
    var more := FinishInit(c, Exec(c, s, run), n, t);
    RunConcat(c, s, run, more, InTime);
    run := run + more;
    assert InitReady(Exec(c, s, run), n);
    RunSnoc(c, s, run, Initialize, InTime);
    run := run + [Initialize];
    RunKeeps(c, s, run);
  }

  // ---------------------------------------------------------------------------------------------
  // A late lock breaks it
  // ---------------------------------------------------------------------------------------------

  /** A reconcile that holds the lock and meets no failure makes its config ready with a new token. */
  lemma FinishInit(c: Config, s: State, n: Name, t: Token) returns (run: seq<Action>)
    requires At(s, n, Certs)
    ensures IsRun(c, s, run) && NoLateLock(c, s, run)
    ensures Exec(c, s, run) == s.(token := Some(t), data := s.data[n := InitData(t)], ready := s.ready + {n}, procs := s.procs[n := Idle])
  {
    run := [];
    RunSnoc(c, s, run, Do(n, Certificates(true)), InTime);
    run := run + [Do(n, Certificates(true))];
    RunSnoc(c, s, run, Do(n, PutToken(t, Ok)), InTime);
    run := run + [Do(n, PutToken(t, Ok))];
    RunSnoc(c, s, run, Do(n, PutInitData(Ok)), InTime);
    run := run + [Do(n, PutInitData(Ok))];
    RunSnoc(c, s, run, Do(n, PatchInit(Ok)), InTime);
    run := run + [Do(n, PatchInit(Ok))];
    assert Exec(c, s, run).procs == s.procs[n := Idle];
  }

  lemma LateLockBreaks(c: Config, s: State, a: Action) returns (run: seq<Action>)
    requires Inv(c, s) && Enabled(c, s, a) && LateLock(s, a)
    ensures IsRun(c, Next(c, s, a), run) && NoLateLock(c, Next(c, s, a), run)
    ensures !Agreed(c, Exec(c, Next(c, s, a), run))
  {
    var t, n := Next(c, s, a), a.n;
    run := [];
    if !a.call.f.Ok? {
      RunSnoc(c, t, run, Do(n, Begin(false)), InTime);
      run := run + [Do(n, Begin(false))];
      RunSnoc(c, t, run, Do(n, GetLock(true)), InTime);
      run := run + [Do(n, GetLock(true))];
    }
    var u := Exec(c, t, run);
    var k: Name :| InitReady(s, k);
    var more := FinishInit(c, u, n, s.data[k].token + 1);
    RunConcat(c, t, run, more, InTime);
    run := run + more;
    assert InitReady(Exec(c, t, run), k);
  }

  /** The condition is exact: after any run that met it, the next call breaks it if and only if some
      continuation that meets it again ends with two initialised configs or with the wrong token. */
  lemma AgreementIff(c: Config, s: State, run: seq<Action>, a: Action)
    requires Init(c, s) && IsRun(c, s, run) && NoLateLock(c, s, run) && Enabled(c, Exec(c, s, run), a)
    ensures var t := Exec(c, s, run);
            LateLock(t, a) <==>
            exists more :: IsRun(c, Next(c, t, a), more) && NoLateLock(c, Next(c, t, a), more)
                           && !Agreed(c, Exec(c, Next(c, t, a), more))
  {
    RunKeeps(c, s, run);
    var t := Exec(c, s, run);
    if LateLock(t, a) {
      var more := LateLockBreaks(c, t, a);
    } else {
      StepKeeps(c, t, a);
      forall more | IsRun(c, Next(c, t, a), more) && NoLateLock(c, Next(c, t, a), more)
        ensures Agreed(c, Exec(c, Next(c, t, a), more))
      {
        RunKeeps(c, Next(c, t, a), more);
      }
    }
  }

  /** And such a call can happen, without any stale read or failure: `b` reads that the cluster is not
      initialised and that there is no lock; `a` initialises it; `j` joins and removes the lock of `a`;
      `b` goes on and creates its own. */
  lemma LateLockHappens(c: Config, s: State, a: Name, b: Name, j: Name) returns (run: seq<Action>)
    requires Init(c, s) && a != b && j != a && j != b && {a, b, j} <= s.procs.Keys
    requires {a, b} <= c.cp * c.initable
    ensures IsRun(c, s, run) && NoLateLock(c, s, run)
    ensures var t := Exec(c, s, run); Enabled(c, t, Do(b, CreateLock(Ok))) && LateLock(t, Do(b, CreateLock(Ok)))
  {
    run := Starts(c, s, a, b);
    var t := Exec(c, s, run);
    var more := FinishInit(c, t, a, 0);
    RunConcat(c, s, run, more, InTime);
    run := run + more;
    assert InitReady(Exec(c, s, run), a);
    RunSnoc(c, s, run, Initialize, InTime);
    run := run + [Initialize];
    RunSnoc(c, s, run, Do(j, Begin(true)), InTime);
    run := run + [Do(j, Begin(true))];
    RunSnoc(c, s, run, Do(j, GetToUnlock(true)), InTime);
    run := run + [Do(j, GetToUnlock(true))];
    RunSnoc(c, s, run, Do(j, DeleteLock(Ok)), InTime);
    run := run + [Do(j, DeleteLock(Ok))];
  }

  /** `b` is about to create the lock, `a` has it. */
  lemma Starts(c: Config, s: State, a: Name, b: Name) returns (run: seq<Action>)
    requires Init(c, s) && a != b && {a, b} <= s.procs.Keys && {a, b} <= c.cp * c.initable
    ensures IsRun(c, s, run) && NoLateLock(c, s, run)
    ensures Exec(c, s, run) == s.(lock := Some(a), procs := s.procs[b := Run(LockCreate)][a := Run(Certs)])
  {
    run := [];
    RunSnoc(c, s, run, Do(b, Begin(false)), InTime);
    run := run + [Do(b, Begin(false))];
    RunSnoc(c, s, run, Do(b, GetLock(true)), InTime);
    run := run + [Do(b, GetLock(true))];
    RunSnoc(c, s, run, Do(a, Begin(false)), InTime);
    run := run + [Do(a, Begin(false))];
    RunSnoc(c, s, run, Do(a, GetLock(true)), InTime);
    run := run + [Do(a, GetLock(true))];
    RunSnoc(c, s, run, Do(a, CreateLock(Ok)), InTime);
    run := run + [Do(a, CreateLock(Ok))];
    assert Exec(c, s, run).procs == s.procs[b := Run(LockCreate)][a := Run(Certs)];
  }
}

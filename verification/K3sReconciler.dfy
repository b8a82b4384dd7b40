/** The K3sConfig reconciler as it is coded, on top of the calls of K3sInit: every reconcile is a run of
    that model, so the agreement theorems are about this code. */
module K3sReconciler {
  import opened Common
  import opened K3sInit
  import opened K3sAgreement

  /** How the calls of one reconcile end. */
  datatype Env = Env(
    getLock: bool, getHolder: bool, create: Fault,      // Lock
    getToUnlock: bool, delete: Fault,                   // Unlock
    certs: bool, t: Token, putToken: Fault, putData: Fault,
    endpoint: bool, readToken: bool, patch: Fault)

  class Reconciler {
    const c: Config
    var s: State
    ghost const start: State
    ghost var run: seq<Action>      // the calls made so far
    ghost var serial: bool          // no reconcile started beside another

    ghost predicate Valid()
      reads this
    {
      IsRun(c, start, run) && Exec(c, start, run) == s && (serial ==> SerialRun(c, start, run))
    }

    constructor (c: Config, s: State)
      ensures Valid() && this.c == c && this.s == s && start == s && run == [] && serial
    {
      this.c, this.s, start, run, serial := c, s, s, [], true;
    }

    method Make(n: Name, call: Call)
      requires Valid() && Enabled(c, s, Do(n, call))
      modifies this`s, this`run, this`serial
      ensures Valid() && s == Next(c, old(s), Do(n, call))
      ensures serial == (old(serial) && Serial(old(s), Do(n, call)))
    {
      RunSnoc(c, start, run, Do(n, call), Serial);
      run, serial := run + [Do(n, call)], serial && Serial(s, Do(n, call));
      s := Effect(c, s, n, call).(procs := s.procs[n := NextProc(c, s, n, call)]);
    }

    /** Removes the lock whoever holds it. */
    method Unlock(n: Name, e: Env) returns (ok: bool)
      requires Valid() && (At(s, n, StealGet) || At(s, n, FailGet) || At(s, n, JoinGet))
      modifies this`s, this`run, this`serial
      ensures Valid() && serial == old(serial)
      ensures ok == (e.getToUnlock && (old(s).lock.None? || e.delete.Ok?))
      ensures s == old(s).(
                lock := if e.getToUnlock && TookEffect(e.delete) then None else old(s).lock,
                procs := old(s).procs[n := if At(old(s), n, JoinGet) then Run(Discover) else Idle])
    {
      var found := s.lock.Some?;
      Make(n, GetToUnlock(e.getToUnlock));
      if !e.getToUnlock || !found {
        return e.getToUnlock;
      }
      Make(n, DeleteLock(e.delete));
      ok := e.delete.Ok?;
    }

    /** The lock is acquired when it is free, or held by the same machine; a lock whose machine is gone
        is removed. */
    method Lock(n: Name, e: Env) returns (ok: bool)
      requires Valid() && At(s, n, LockGet)
      modifies this`s, this`run, this`serial
      ensures Valid() && serial == old(serial)
      ensures ok == (e.getLock && (old(s).lock == Some(n) || (old(s).lock.None? && e.create.Ok?)))
      ensures s.procs == old(s).procs[n := if ok then Run(Certs) else Idle]
      ensures var was := old(s).lock;
              var stolen := e.getLock && was.Some? && was.value != n && e.getHolder && was.value !in c.machines
                            && e.getToUnlock && TookEffect(e.delete);
              s == old(s).(procs := s.procs,
                           lock := if e.getLock && was.None? && TookEffect(e.create) then Some(n)
                                   else if stolen then None else was)
    {
      var holder := s.lock;
      Make(n, GetLock(e.getLock));
      if !e.getLock {
        return false;
      }
      if holder.Some? {
        if holder.value == n {
          return true;
        }
        Make(n, GetHolder(e.getHolder));
        if e.getHolder && holder.value !in c.machines {
          var _ := Unlock(n, e);
        }
        return false;
      }
      Make(n, CreateLock(e.create));
      ok := e.create.Ok?;
    }

    /** The steps of an init behind the lock: certificates, token, data; on an error the lock is released. */
    method InitBehindLock(n: Name, e: Env) returns (ok: bool)
      requires Valid() && At(s, n, Certs)
      modifies this`s, this`run, this`serial
      ensures Valid() && serial == old(serial)
      ensures ok == (e.certs && e.putToken.Ok? && e.putData.Ok?)
      ensures s.procs == old(s).procs[n := if ok then Run(CloseInit) else Idle]
      ensures s == old(s).(
                procs := s.procs,
                token := if e.certs && TookEffect(e.putToken) then Some(e.t) else old(s).token,
                data := if e.certs && e.putToken.Ok? && TookEffect(e.putData) then old(s).data[n := InitData(e.t)] else old(s).data,
                lock := if !ok && e.getToUnlock && TookEffect(e.delete) then None else old(s).lock)
    {
      Make(n, Certificates(e.certs));
      if e.certs {
        Make(n, PutToken(e.t, e.putToken));
        if e.putToken.Ok? {
          Make(n, PutInitData(e.putData));
          if e.putData.Ok? {
            return true;
          }
        }
      }
      var _ := Unlock(n, e);
      return false;
    }

    /** A control plane that may initialise gets the lock, and nothing fails behind it. */
    predicate CanInit(s: State, n: Name, e: Env) {
      && n in c.cp && n in c.initable
      && e.getLock && (s.lock == Some(n) || (s.lock.None? && e.create.Ok?))
      && e.certs && e.putToken.Ok? && e.putData.Ok? && TookEffect(e.patch)
    }

    /** Without failures the first control plane ends ready, with the token in its data and the secret,
        and still holds the lock; without the lock nothing but the lock can change. */
    method HandleClusterNotInitialized(n: Name, e: Env)
      requires Valid() && n in s.procs && s.procs[n].Idle? && n !in s.ready
      modifies this`s, this`run, this`serial
      ensures Valid() && s.procs == old(s).procs
      ensures serial == (old(serial) && Serial(old(s), Do(n, Begin(false))))
      ensures n in s.ready <==> CanInit(old(s), n, e)
      ensures n in s.ready ==> s == old(s).(lock := Some(n), token := Some(e.t), data := old(s).data[n := InitData(e.t)],
                                            ready := old(s).ready + {n})
      ensures old(s).lock.Some? && old(s).lock.value != n ==> s == old(s).(lock := s.lock)
    {
      Make(n, Begin(false));
      if n !in c.cp || n !in c.initable {
        return;
      }
      var ok := Lock(n, e);
      if !ok {
        return;
      }
      ok := InitBehindLock(n, e);
      if ok {
        Make(n, PatchInit(e.patch));
      }
    }

    /** The token a config joins with. */
    function JoinToken(n: Name): Option<Token>
      reads this
    {
      if n in c.given then c.given[n] else if n in s.learnt then Some(s.learnt[n]) else s.token
    }

    method StoreBootstrapData(n: Name, e: Env)
      requires Valid() && n in s.procs && s.procs[n].Run? && s.procs[n].at.StoreJoin?
      modifies this`s, this`run, this`serial
      ensures Valid() && serial == old(serial)
      ensures s == old(s).(
                procs := old(s).procs[n := Idle],
                data := if TookEffect(e.putData) then old(s).data[n := JoinData(old(s).procs[n].at.tok)] else old(s).data,
                ready := if e.putData.Ok? && TookEffect(e.patch) then old(s).ready + {n} else old(s).ready,
                learnt := if TookEffect(e.patch) && n !in c.given && old(s).procs[n].at.tok.Some?
                          then old(s).learnt[n := old(s).procs[n].at.tok.value] else old(s).learnt)
    {
      Make(n, PutJoinData(e.putData));
      Make(n, PatchJoin(e.patch));
    }

    /** The writes of a join work, and there is a token. */
    predicate CanJoin(s: State, n: Name, e: Env) {
      && e.putData.Ok? && TookEffect(e.patch)
      && (|| (n in c.given && c.given[n].None?)
          || (e.endpoint && (n in c.given || n in s.learnt || (e.readToken && s.token.Some?))))
    }

    /** A join releases the lock, finds its token and stores its data.  It gets ready exactly when the writes work
        and there is a token: a file or token of the user's, one learnt before, or that of the secret. */
    method Join(n: Name, e: Env)
      requires Valid() && n in s.procs && s.procs[n].Idle? && n !in s.ready && s.initialized
      modifies this`s, this`run, this`serial
      ensures Valid() && s.procs == old(s).procs && s.token == old(s).token && s.initialized
      ensures serial == (old(serial) && Serial(old(s), Do(n, Begin(true))))
      ensures s.lock == if e.getToUnlock && TookEffect(e.delete) then None else old(s).lock
      ensures n in s.ready <==> CanJoin(old(s), n, e)
      ensures n in s.ready ==> && s.ready == old(s).ready + {n}
                               && s.data == old(s).data[n := JoinData(if n in c.given then c.given[n]
                                                                      else if n in old(s).learnt then Some(old(s).learnt[n])
                                                                      else old(s).token)]
      ensures n !in s.ready ==> s.ready == old(s).ready
    {
      Make(n, Begin(true));
      var _ := Unlock(n, e);
      Make(n, ReadToken(e.endpoint, e.readToken));
      if s.procs[n].Run? {
        assert s.procs[n] == Run(StoreJoin(JoinToken(n)));
        StoreBootstrapData(n, e);
      }
    }

    /** One reconcile, which reads at its start whether the cluster is initialised.  With one reconcile
        at a time, at most one config ever initialises the cluster and all share its token. */
    method Reconcile(n: Name, e: Env)
      requires Valid() && n in s.procs && s.procs[n].Idle?
      modifies this`s, this`run, this`serial
      ensures Valid() && s.procs == old(s).procs
      ensures n in old(s).ready ==> s == old(s)
      ensures n !in old(s).ready ==> (n in s.ready <==> if old(s).initialized then CanJoin(old(s), n, e) else CanInit(old(s), n, e))
      ensures n !in old(s).ready && n in s.ready ==> n in s.data && (s.data[n].JoinData? <==> old(s).initialized)
      ensures serial <==> old(serial) && (n in old(s).ready || AllIdle(old(s)))
      ensures Init(c, start) && serial ==> Agreed(c, s)
    {
      if n !in s.ready {
        if s.initialized {
          Join(n, e);
        } else {
          HandleClusterNotInitialized(n, e);
        }
      }
      if Init(c, start) && serial {
        SerialNeverLate(c, start, run);
        OneInitOneToken(c, start, run);
      }
    }
  }
}

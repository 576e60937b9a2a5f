/** Resubmitted requests. A resubmission reuses the number of a failed run and can fill its gap, so
    the gaps that failed first-phase runs leave no longer shield what lies above them. What matters
    then is which locks a failed commit or abort run lets go. */
module Resubmission {
  import opened Transfers
  import opened Ledger
  import opened Cluster
  import opened Replay
  import opened Solvency
  import TwoPhase

  /***** Gaps that stay *****/

  /** A dead number that no resubmission can fill. */
  ghost predicate Permanent(cfg: Config, s: State, d: nat)
    requires |s.jobs| == |cfg.txs|
  {
    d in s.dead && forall u | 0 <= u < |s.jobs| && !cfg.txs[u].Cross() :: s.jobs[u].first != d
  }

  /** The executor never gets to `k`. */
  ghost predicate Blocked(cfg: Config, s: State, k: nat)
    requires |s.jobs| == |cfg.txs|
  {
    exists d: nat :: d < k && Permanent(cfg, s, d)
  }

  /** The number at which this request moves its money, or would if it got a number now. */
  function Target(s: State, sd: Side): nat {
    if sd.first != 0 then sd.first else s.next
  }

  /** Which numbers are dead. */
  ghost predicate DeadOk(tx: Transfer, s: State, sd: Side) {
    && (sd.saved ==> sd.first !in s.dead)
    && (sd.pc.Running? && tx.Cross() ==> sd.pc.n !in s.dead)
    && (!tx.Cross() && sd.first != 0 && !sd.saved && !sd.pc.Running? ==> sd.first in s.dead)
    && (tx.Cross() && sd.pc.Done? && !sd.pc.ok ==> sd.pc.n in s.dead)
  }

  /***** Who holds the locks *****/

  /** The first run is committed and waits for the executor. */
  predicate Waiting(sd: Side, exec: nat) {
    sd.saved && exec <= sd.first
  }

  /** The locks are held. A participant that aborts has let them go, and so has one that tries to
      commit again; a failed try leaves a gap below all later ones. A decision above such a gap is
      never executed, and its locks matter only to a prepare that is still to be executed. */
  ghost predicate Keeps(cfg: Config, c: nat, s: State, t: nat)
    requires t < |s.jobs| == |cfg.txs|
  {
    var tx, sd := cfg.txs[t], s.jobs[t];
    match sd.pc
    case Idle => Waiting(sd, s.exec)
    case Rejected => false
    case Locked => true
    case Checked => true
    case Running(st, n) =>
      if st == Plain || st == P then true
      else if tx.clusterFrom == c then s.exec <= sd.first || !Blocked(cfg, s, n)
      else st == C && !Blocked(cfg, s, n)
    case Done(st, n, ok) =>
      && ok
      && if st == P then true
         else if st == Plain then s.exec <= n
         else if tx.clusterFrom == c then s.exec <= n && (s.exec <= sd.first || !Blocked(cfg, s, n))
         else st == C && s.exec <= n && !Blocked(cfg, s, n)
  }

  /** The coordinator's decision run has failed and released the locks of a debit still to come. */
  predicate Loose(tx: Transfer, c: nat, s: State, sd: Side) {
    tx.Cross() && tx.clusterFrom == c && Waiting(sd, s.exec) && sd.pc.Done? && !sd.pc.ok
  }

  /** A run of this request may still move its money. */
  predicate Due(sd: Side, exec: nat) {
    Waiting(sd, exec) || (sd.pc.Running? && sd.pc.n == sd.first && exec <= sd.first)
  }

  /** The debit has been checked, or will be at a number the executor can reach. */
  ghost predicate Prospective(cfg: Config, c: nat, s: State, t: nat)
    requires t < |s.jobs| == |cfg.txs|
  {
    && cfg.txs[t].clusterFrom == c
    && (Due(s.jobs[t], s.exec) || s.jobs[t].pc.Locked? || s.jobs[t].pc.Checked?)
    && s.exec <= Target(s, s.jobs[t])
    && !Blocked(cfg, s, Target(s, s.jobs[t]))
  }

  /** This request will not debit its account any more. */
  ghost predicate Out(cfg: Config, s: State, v: nat)
    requires v < |s.jobs| == |cfg.txs|
  {
    var sd := s.jobs[v];
    || (sd.first != 0 && sd.first < s.exec)
    || (cfg.txs[v].Cross() && sd.first != 0 && !sd.saved && !sd.pc.Running?)
    || Blocked(cfg, s, Target(s, sd))
  }

  ghost predicate Rivals(cfg: Config, c: nat, t: nat, v: nat)
    requires t < |cfg.txs| && v < |cfg.txs|
  {
    t != v && cfg.txs[v].clusterFrom == c && cfg.txs[v].from == cfg.txs[t].from
  }

  /***** What every harmless step keeps *****/

  ghost predicate KeepsLocked(cfg: Config, c: nat, s: State, t: nat)
    requires t < |s.jobs| == |cfg.txs|
  {
    Keeps(cfg, c, s, t) ==> cfg.txs[t].from in s.db.locks && cfg.txs[t].to in s.db.locks
  }

  ghost predicate NotShared(cfg: Config, c: nat, s: State, t: nat, u: nat)
    requires t < |s.jobs| == |cfg.txs| && u < |s.jobs|
  {
    t != u && Keeps(cfg, c, s, t) && Keeps(cfg, c, s, u) ==> cfg.txs[t].DisjointFrom(cfg.txs[u])
  }

  predicate PastLocks(pc: Pc, first: nat) {
    pc.Locked? || pc.Checked? || pc.Rejected? || (pc.Running? && pc.n == first) ||
        (pc.Done? && pc.st == Plain && !pc.ok)
  }

  /** A handler that is past the locks again has got them after its first run was executed. */
  predicate Orderly(sd: Side, exec: nat) {
    sd.saved && PastLocks(sd.pc, sd.first) ==> sd.first < exec
  }

  /** Nobody else can come in between a loose debit and its check. */
  ghost predicate NoRival(cfg: Config, c: nat, s: State, t: nat, v: nat)
    requires t < |s.jobs| == |cfg.txs| && v < |s.jobs|
  {
    Loose(cfg.txs[t], c, s, s.jobs[t]) && !Blocked(cfg, s, s.jobs[t].first) && Rivals(cfg, c, t, v) ==> Out(cfg, s, v)
  }

  /** While a debit is due under its locks, no other debit of the account gets a number. */
  ghost predicate Younger(cfg: Config, c: nat, s: State, t: nat, v: nat)
    requires t < |s.jobs| == |cfg.txs| && v < |s.jobs|
  {
    cfg.txs[t].Cross() && cfg.txs[t].clusterFrom == c && Due(s.jobs[t], s.exec) && !Loose(cfg.txs[t], c, s, s.jobs[t])
    && Rivals(cfg, c, t, v) && !cfg.txs[v].Cross() ==>
      s.jobs[v].first < s.jobs[t].first
  }

  ghost predicate ProspectCovered(cfg: Config, c: nat, s: State, t: nat)
    requires t < |s.jobs| == |cfg.txs|
  {
    Prospective(cfg, c, s, t) && !s.jobs[t].pc.Locked? ==> Covered(cfg, s, t)
  }

  ghost predicate LocksSound(cfg: Config, c: nat, s: State)
    requires |s.jobs| == |cfg.txs|
  {
    && (forall t | 0 <= t < |s.jobs| :: KeepsLocked(cfg, c, s, t))
    && (forall t, u | 0 <= t < |s.jobs| && 0 <= u < |s.jobs| :: NotShared(cfg, c, s, t, u))
  }

  ghost predicate RivalsSound(cfg: Config, c: nat, s: State)
    requires |s.jobs| == |cfg.txs|
  {
    && (forall t, v | 0 <= t < |s.jobs| && 0 <= v < |s.jobs| :: NoRival(cfg, c, s, t, v))
    && (forall t, v | 0 <= t < |s.jobs| && 0 <= v < |s.jobs| :: Younger(cfg, c, s, t, v))
  }

  ghost predicate Sound(cfg: Config, c: nat, s: State) {
    && |s.jobs| == |cfg.txs|
    && NonNegative(s.db.bal)
    && (forall n | n in s.log :: n !in s.dead)
    && SidesSound(cfg, c, s) && LocksSound(cfg, c, s) && RivalsSound(cfg, c, s)
  }

  /** What must hold of each request by itself. */
  ghost predicate SidesSound(cfg: Config, c: nat, s: State)
    requires |s.jobs| == |cfg.txs|
  {
    && (forall t | 0 <= t < |s.jobs| :: DeadOk(cfg.txs[t], s, s.jobs[t]))
    && (forall t | 0 <= t < |s.jobs| :: Orderly(s.jobs[t], s.exec))
    && (forall t | 0 <= t < |s.jobs| :: ProspectCovered(cfg, c, s, t))
  }

  /** The failure of a commit or abort run is harmless here if it releases no lock that another
      request holds, and if no resubmission can still debit, below its own prepare, the account its
      unexecuted prepare debits. */
  ghost predicate Harmless(cfg: Config, c: nat, s: State, a: Action)
  {
    |s.jobs| == |cfg.txs| && a.Fail? && a.t < |s.jobs| && s.jobs[a.t].pc.Running?
    && (s.jobs[a.t].pc.st == C || s.jobs[a.t].pc.st == A) ==>
      && (forall u | 0 <= u < |s.jobs| && u != a.t && Keeps(cfg, c, s, u) :: cfg.txs[a.t].DisjointFrom(cfg.txs[u]))
      && (cfg.txs[a.t].clusterFrom == c && Waiting(s.jobs[a.t], s.exec) ==>
            forall v | 0 <= v < |s.jobs| :: !Exposes(cfg, c, s, a.t, v))
  }

  /** Resubmitting `v` would fill a gap below the unexecuted prepare of `t`, which debits the same account. */
  ghost predicate Exposes(cfg: Config, c: nat, s: State, t: nat, v: nat)
    requires t < |s.jobs| == |cfg.txs| && v < |s.jobs|
  {
    && Rivals(cfg, c, t, v) && !cfg.txs[v].Cross() && s.jobs[v].first in s.dead
    && s.exec <= s.jobs[v].first < s.jobs[t].first && !Blocked(cfg, s, s.jobs[t].first)
  }

  lemma InitSound(cfg: Config, c: nat)
    requires cfg.Valid() && c < |cfg.shards|
    ensures Sound(cfg, c, Init(cfg, c))
  {
  }

  /***** Gaps *****/

  lemma PermanentStays(cfg: Config, c: nat, s: State, a: Action, d: nat)
    requires cfg.Valid() && Basic(cfg, c, s) && Sound(cfg, c, s) && Enabled(cfg, c, s, a) && Permanent(cfg, s, d)
    ensures Permanent(cfg, Do(cfg, s, a), d)
  {
    if !a.Exec? {
      assert SideOk(cfg.txs[a.t], c, s, a.t) && DeadOk(cfg.txs[a.t], s, s.jobs[a.t]);
      OwnPermanent(cfg, c, s, a, d);
    }
  }

  lemma OwnPermanent(cfg: Config, c: nat, s: State, a: Action, d: nat)
    requires Enabled(cfg, c, s, a) && !a.Exec? && |s.jobs| == |cfg.txs| && d < s.next && Permanent(cfg, s, d)
    requires SideOk(cfg.txs[a.t], c, s, a.t) && DeadOk(cfg.txs[a.t], s, s.jobs[a.t])
    ensures |Do(cfg, s, a).jobs| == |s.jobs| && Permanent(cfg, Do(cfg, s, a), d)
  {
  }

  lemma BlockedStays(cfg: Config, c: nat, s: State, a: Action, k: nat, k': nat)
    requires cfg.Valid() && Basic(cfg, c, s) && Sound(cfg, c, s) && Enabled(cfg, c, s, a) && Blocked(cfg, s, k)
             && k <= k'
    ensures Blocked(cfg, Do(cfg, s, a), k')
  {
    var d: nat :| d < k && Permanent(cfg, s, d);
    PermanentStays(cfg, c, s, a, d);
  }

  /** The number of a cross-shard run that has failed is never filled. */
  lemma FailedBlocks(cfg: Config, c: nat, s: State, t: nat, k: nat)
    requires Basic(cfg, c, s) && t < |s.jobs| && cfg.txs[t].Cross() && s.jobs[t].pc.Done? && s.jobs[t].pc.n in s.dead
    requires s.jobs[t].pc.n < k
    ensures Blocked(cfg, s, k)
  {
    var n := s.jobs[t].pc.n;
    assert SideOk(cfg.txs[t], c, s, t);
    forall u | 0 <= u < |s.jobs| && !cfg.txs[u].Cross() ensures s.jobs[u].first != n {
      assert Apart(s.jobs[t], s.jobs[u], n);
    }
    assert Permanent(cfg, s, n);
  }

  /** What the executor has reached is not blocked. */
  lemma ReachedNotBlocked(cfg: Config, c: nat, s: State, k: nat)
    requires Basic(cfg, c, s) && Sound(cfg, c, s) && s.exec in s.log && k <= s.exec + 1
    ensures !Blocked(cfg, s, k)
  {
    forall d: nat | d < k ensures !Permanent(cfg, s, d) {
      assert d in s.log || d == 0;
    }
  }

  /***** No two debits of one account *****/

  /** A debit that is due is under its locks, or loose. */
  lemma DueKeeps(cfg: Config, c: nat, s: State, t: nat)
    requires Basic(cfg, c, s) && Sound(cfg, c, s) && t < |s.jobs| && cfg.txs[t].clusterFrom == c
    requires Due(s.jobs[t], s.exec) || s.jobs[t].pc.Locked? || s.jobs[t].pc.Checked?
    ensures Keeps(cfg, c, s, t) || Loose(cfg.txs[t], c, s, s.jobs[t])
  {
    assert SideOk(cfg.txs[t], c, s, t) && Orderly(s.jobs[t], s.exec);
  }

  lemma NoPair(cfg: Config, c: nat, s: State, t: nat, u: nat)
    requires Basic(cfg, c, s) && Sound(cfg, c, s) && t < |s.jobs| && u < |s.jobs| && t != u
    requires Prospective(cfg, c, s, t) && Prospective(cfg, c, s, u)
    ensures cfg.txs[t].from != cfg.txs[u].from
  {
    DueKeeps(cfg, c, s, t);
    DueKeeps(cfg, c, s, u);
    assert NotShared(cfg, c, s, t, u) && NoRival(cfg, c, s, t, u) && NoRival(cfg, c, s, u, t);
    assert SideOk(cfg.txs[t], c, s, t) && SideOk(cfg.txs[u], c, s, u);
  }

  /***** The steps of a request *****/

  /** What a step does to the side of its own request: which numbers are dead, */
  lemma OwnDead(cfg: Config, c: nat, s: State, a: Action)
    requires cfg.Valid() && Basic(cfg, c, s) && Sound(cfg, c, s) && Enabled(cfg, c, s, a) && !a.Exec?
    ensures DeadOk(cfg.txs[a.t], Do(cfg, s, a), Do(cfg, s, a).jobs[a.t])
  {
    assert SideOk(cfg.txs[a.t], c, s, a.t) && DeadOk(cfg.txs[a.t], s, s.jobs[a.t]);
  }

  /** that the locks are taken again only after its first run, */
  lemma OwnOrderly(cfg: Config, c: nat, s: State, a: Action)
    requires cfg.Valid() && Basic(cfg, c, s) && Sound(cfg, c, s) && Enabled(cfg, c, s, a) && !a.Exec?
    ensures Orderly(Do(cfg, s, a).jobs[a.t], s.exec)
  {
    assert SideOk(cfg.txs[a.t], c, s, a.t) && Orderly(s.jobs[a.t], s.exec) && KeepsLocked(cfg, c, s, a.t);
  }

  /** its number, */
  lemma OwnTarget(cfg: Config, c: nat, s: State, a: Action)
    requires Enabled(cfg, c, s, a) && !a.Exec? && |s.jobs| == |cfg.txs| && SideOk(cfg.txs[a.t], c, s, a.t)
    ensures var s' := Do(cfg, s, a);
            && (s.jobs[a.t].first != 0 ==> s'.jobs[a.t].first == s.jobs[a.t].first)
            && Target(s', s'.jobs[a.t]) >= Target(s, s.jobs[a.t])
  {
  }

  /** and who has locks. */
  lemma OwnKeeps(cfg: Config, c: nat, s: State, a: Action)
    requires cfg.Valid() && Basic(cfg, c, s) && Sound(cfg, c, s) && Enabled(cfg, c, s, a) && !a.Exec?
    ensures Keeps(cfg, c, Do(cfg, s, a), a.t) && !a.Acquire? ==> Keeps(cfg, c, s, a.t)
  {
    var t := a.t;
    assert SideOk(cfg.txs[t], c, s, t) && DeadOk(cfg.txs[t], s, s.jobs[t]) && Orderly(s.jobs[t], s.exec);
    if a.Start? && s.jobs[t].pc.st == C {
      FailedBlocks(cfg, c, s, t, s.next);
      BlockedStays(cfg, c, s, a, s.next, s.next);
    } else if s.jobs[t].pc.Running? || s.jobs[t].pc.Done? {
      if Blocked(cfg, s, s.jobs[t].pc.n) {
        BlockedStays(cfg, c, s, a, s.jobs[t].pc.n, s.jobs[t].pc.n);
      }
    }
    OwnFrame(cfg, c, s, a);
  }

  lemma OwnFrame(cfg: Config, c: nat, s: State, a: Action)
    requires Enabled(cfg, c, s, a) && !a.Exec? && |s.jobs| == |cfg.txs|
    requires SideOk(cfg.txs[a.t], c, s, a.t) && DeadOk(cfg.txs[a.t], s, s.jobs[a.t]) && Orderly(s.jobs[a.t], s.exec)
    requires a.Start? && s.jobs[a.t].pc.st == C ==> Blocked(cfg, Do(cfg, s, a), s.next)
    requires !(a.Start? && s.jobs[a.t].pc.st == C) && (s.jobs[a.t].pc.Running? || s.jobs[a.t].pc.Done?) ==>
               Blocked(cfg, s, s.jobs[a.t].pc.n) ==> Blocked(cfg, Do(cfg, s, a), s.jobs[a.t].pc.n)
    ensures Keeps(cfg, c, Do(cfg, s, a), a.t) && !a.Acquire? ==> Keeps(cfg, c, s, a.t)
  {
  }

  /** Another request can only lose its hold. */
  lemma OthersKeep(cfg: Config, c: nat, s: State, a: Action, u: nat)
    requires cfg.Valid() && Basic(cfg, c, s) && Sound(cfg, c, s) && Enabled(cfg, c, s, a) && !a.Exec?
    requires u < |s.jobs| && u != a.t
    ensures Keeps(cfg, c, Do(cfg, s, a), u) ==> Keeps(cfg, c, s, u)
  {
    OtherJobs(cfg, c, s, a, u);
    if s.jobs[u].pc.Running? || s.jobs[u].pc.Done? {
      if Blocked(cfg, s, s.jobs[u].pc.n) {
        BlockedStays(cfg, c, s, a, s.jobs[u].pc.n, s.jobs[u].pc.n);
      }
    }
    KeepsFrame(cfg, c, s, Do(cfg, s, a), u);
  }

  lemma KeepsFrame(cfg: Config, c: nat, s: State, s': State, u: nat)
    requires u < |s.jobs| == |s'.jobs| == |cfg.txs| && s'.jobs[u] == s.jobs[u] && s'.exec == s.exec
    requires s.jobs[u].pc.Running? || s.jobs[u].pc.Done? ==>
               Blocked(cfg, s, s.jobs[u].pc.n) ==> Blocked(cfg, s', s.jobs[u].pc.n)
    ensures Keeps(cfg, c, s', u) ==> Keeps(cfg, c, s, u)
  {
  }

  /** A step lets go only locks that nobody else holds. */
  lemma LocksReleased(cfg: Config, c: nat, s: State, a: Action)
    requires cfg.Valid() && Basic(cfg, c, s) && Sound(cfg, c, s) && Enabled(cfg, c, s, a) && !a.Exec?
             && Harmless(cfg, c, s, a)
    ensures var locks, locks' := s.db.locks, Do(cfg, s, a).db.locks;
            || (locks' == locks && !a.Acquire?)
            || (a.Acquire? && locks' == locks + cfg.txs[a.t].Accounts() && Free(s.db, cfg.txs[a.t]))
            || (locks' == locks - cfg.txs[a.t].Accounts() && !Keeps(cfg, c, Do(cfg, s, a), a.t)
                && forall u | 0 <= u < |s.jobs| && u != a.t && Keeps(cfg, c, s, u) ::
                   cfg.txs[a.t].DisjointFrom(cfg.txs[u]))
  {
    if a.Fail? {
      FailReleases(cfg, c, s, a.t);
    } else if a.Reject? {
      OthersApart(cfg, c, s, a.t);
    }
  }

  lemma FailReleases(cfg: Config, c: nat, s: State, t: nat)
    requires |s.jobs| == |cfg.txs| && LocksSound(cfg, c, s) && Enabled(cfg, c, s, Fail(t))
             && Harmless(cfg, c, s, Fail(t))
    ensures Do(cfg, s, Fail(t)).db.locks == s.db.locks - cfg.txs[t].Accounts()
    ensures !Keeps(cfg, c, Do(cfg, s, Fail(t)), t)
    ensures forall u | 0 <= u < |s.jobs| && u != t && Keeps(cfg, c, s, u) :: cfg.txs[t].DisjointFrom(cfg.txs[u])
  {
    if s.jobs[t].pc.st == Plain || s.jobs[t].pc.st == P {
      OthersApart(cfg, c, s, t);
    }
  }

  lemma OthersApart(cfg: Config, c: nat, s: State, t: nat)
    requires |s.jobs| == |cfg.txs| && LocksSound(cfg, c, s) && t < |s.jobs| && Keeps(cfg, c, s, t)
    ensures forall u | 0 <= u < |s.jobs| && u != t && Keeps(cfg, c, s, u) :: cfg.txs[t].DisjointFrom(cfg.txs[u])
  {
    forall u | 0 <= u < |s.jobs| && u != t && Keeps(cfg, c, s, u) ensures cfg.txs[t].DisjointFrom(cfg.txs[u]) {
      assert NotShared(cfg, c, s, t, u);
    }
  }

  lemma RequestLocksSound(cfg: Config, c: nat, s: State, a: Action)
    requires cfg.Valid() && Basic(cfg, c, s) && Sound(cfg, c, s) && Enabled(cfg, c, s, a) && !a.Exec?
             && Harmless(cfg, c, s, a)
    ensures LocksSound(cfg, c, Do(cfg, s, a))
  {
    var t, s' := a.t, Do(cfg, s, a);
    OwnKeeps(cfg, c, s, a);
    LocksReleased(cfg, c, s, a);
    forall u | 0 <= u < |s.jobs| && u != t ensures Keeps(cfg, c, s', u) ==> Keeps(cfg, c, s, u) {
      OthersKeep(cfg, c, s, a, u);
    }
    LocksFrame(cfg, c, s, s', t, a.Acquire?);
  }

  /** Locks stay sound if nobody gains a hold but, with free locks, the request that acquires them, and
      if only locks are released that nobody else holds. */
  lemma LocksFrame(cfg: Config, c: nat, s: State, s': State, t: nat, acquired: bool)
    requires |s'.jobs| == |s.jobs| == |cfg.txs| && t < |s.jobs| && LocksSound(cfg, c, s)
    requires forall u | 0 <= u < |s.jobs| && u != t && Keeps(cfg, c, s', u) :: Keeps(cfg, c, s, u)
    requires !acquired && Keeps(cfg, c, s', t) ==> Keeps(cfg, c, s, t)
    requires
      || (s'.db.locks == s.db.locks && !acquired)
      || (acquired && s'.db.locks == s.db.locks + cfg.txs[t].Accounts() && Free(s.db, cfg.txs[t]))
      || (s'.db.locks == s.db.locks - cfg.txs[t].Accounts() && !Keeps(cfg, c, s', t)
          && forall u | 0 <= u < |s.jobs| && u != t && Keeps(cfg, c, s, u) :: cfg.txs[t].DisjointFrom(cfg.txs[u]))
    ensures LocksSound(cfg, c, s')
  {
    forall u | 0 <= u < |s.jobs| ensures KeepsLocked(cfg, c, s', u) {
      assert KeepsLocked(cfg, c, s, u);
    }
    forall u, v | 0 <= u < |s.jobs| && 0 <= v < |s.jobs| ensures NotShared(cfg, c, s', u, v) {
      assert NotShared(cfg, c, s, u, v) && KeepsLocked(cfg, c, s, u) && KeepsLocked(cfg, c, s, v);
    }
  }

  /** A request that is out stays out. */
  lemma OutStays(cfg: Config, c: nat, s: State, a: Action, v: nat)
    requires cfg.Valid() && Basic(cfg, c, s) && Sound(cfg, c, s) && Enabled(cfg, c, s, a) && !a.Exec?
    requires v < |s.jobs| && cfg.txs[v].clusterFrom == c && Out(cfg, s, v)
    ensures Out(cfg, Do(cfg, s, a), v)
  {
    var s' := Do(cfg, s, a);
    assert SideOk(cfg.txs[v], c, s, v);
    if v == a.t {
      OwnTarget(cfg, c, s, a);
    }
    if Blocked(cfg, s, Target(s, s.jobs[v])) {
      BlockedStays(cfg, c, s, a, Target(s, s.jobs[v]), Target(s', s'.jobs[v]));
    }
  }

  /** When a coordinator's decision run fails harmlessly, its debit has no rivals left. */
  lemma BecomesLoose(cfg: Config, c: nat, s: State, t: nat, v: nat)
    requires cfg.Valid() && Basic(cfg, c, s) && Sound(cfg, c, s) && Enabled(cfg, c, s, Fail(t))
             && Harmless(cfg, c, s, Fail(t))
    requires (s.jobs[t].pc.st == C || s.jobs[t].pc.st == A) && v < |s.jobs|
    ensures NoRival(cfg, c, Do(cfg, s, Fail(t)), t, v)
  {
    var s' := Do(cfg, s, Fail(t));
    assert SideOk(cfg.txs[t], c, s, t);
    if Loose(cfg.txs[t], c, s', s'.jobs[t]) && !Blocked(cfg, s', s'.jobs[t].first) && Rivals(cfg, c, t, v) {
      if Blocked(cfg, s, s.jobs[t].first) {
        BlockedStays(cfg, c, s, Fail(t), s.jobs[t].first, s.jobs[t].first);
      }
      StepBasic(cfg, c, s, Fail(t));
      OwnTarget(cfg, c, s, Fail(t));
      var n := s.jobs[t].pc.n;
      if n < Target(s, s.jobs[v]) {
        FailedBlocks(cfg, c, s', t, Target(s', s'.jobs[v]));
      } else {
        RivalIsOut(cfg, c, s, t, v);
        OutStays(cfg, c, s, Fail(t), v);
      }
    }
  }

  /** Before the failure, a rival with a number below the failing run's is out already. */
  lemma RivalIsOut(cfg: Config, c: nat, s: State, t: nat, v: nat)
    requires cfg.Valid() && Basic(cfg, c, s) && Sound(cfg, c, s) && Enabled(cfg, c, s, Fail(t))
             && Harmless(cfg, c, s, Fail(t))
    requires (s.jobs[t].pc.st == C || s.jobs[t].pc.st == A) && v < |s.jobs| && Rivals(cfg, c, t, v)
    requires cfg.txs[t].Cross() && cfg.txs[t].clusterFrom == c && Waiting(s.jobs[t], s.exec)
             && !Blocked(cfg, s, s.jobs[t].first)
    requires Target(s, s.jobs[v]) <= s.jobs[t].pc.n
    ensures Out(cfg, s, v)
  {
    assert SideOk(cfg.txs[t], c, s, t) && SideOk(cfg.txs[v], c, s, v);
    assert s.jobs[v].first != 0;
    assert !Exposes(cfg, c, s, t, v) && Younger(cfg, c, s, t, v) && NotShared(cfg, c, s, t, v);
    assert DeadOk(cfg.txs[v], s, s.jobs[v]) && NoRival(cfg, c, s, v, t);
    if s.exec <= s.jobs[v].first && Due(s.jobs[v], s.exec) {
      DueKeeps(cfg, c, s, v);
    }
  }

  lemma RequestNoRival(cfg: Config, c: nat, s: State, a: Action, t: nat, v: nat)
    requires cfg.Valid() && Basic(cfg, c, s) && Sound(cfg, c, s) && Enabled(cfg, c, s, a) && !a.Exec?
             && Harmless(cfg, c, s, a)
    requires t < |s.jobs| && v < |s.jobs|
    ensures NoRival(cfg, c, Do(cfg, s, a), t, v)
  {
    var s' := Do(cfg, s, a);
    if a == Fail(t) && (s.jobs[t].pc.st == C || s.jobs[t].pc.st == A) {
      BecomesLoose(cfg, c, s, t, v);
    } else if Loose(cfg.txs[t], c, s', s'.jobs[t]) && !Blocked(cfg, s', s'.jobs[t].first) && Rivals(cfg, c, t, v) {
      WasLoose(cfg, c, s, a, t);
      assert NoRival(cfg, c, s, t, v);
      if Blocked(cfg, s, s.jobs[t].first) {
        BlockedStays(cfg, c, s, a, s.jobs[t].first, s.jobs[t].first);
      }
      OutStays(cfg, c, s, a, v);
    }
  }

  lemma WasLoose(cfg: Config, c: nat, s: State, a: Action, t: nat)
    requires cfg.Valid() && Basic(cfg, c, s) && Enabled(cfg, c, s, a) && !a.Exec? && t < |s.jobs|
    requires Loose(cfg.txs[t], c, Do(cfg, s, a), Do(cfg, s, a).jobs[t])
    requires a == Fail(t) ==> s.jobs[t].pc.st == Plain || s.jobs[t].pc.st == P
    ensures Loose(cfg.txs[t], c, s, s.jobs[t]) && Do(cfg, s, a).jobs[t].first == s.jobs[t].first
  {
    assert SideOk(cfg.txs[t], c, s, t);
  }

  lemma RequestYounger(cfg: Config, c: nat, s: State, a: Action, t: nat, v: nat)
    requires cfg.Valid() && Basic(cfg, c, s) && Sound(cfg, c, s) && Enabled(cfg, c, s, a) && !a.Exec?
    requires t < |s.jobs| && v < |s.jobs|
    ensures Younger(cfg, c, Do(cfg, s, a), t, v)
  {
    assert Younger(cfg, c, s, t, v);
    OtherJobs(cfg, c, s, a, t);
    OtherJobs(cfg, c, s, a, v);
    if t == a.t {
      AgesOwn(cfg, c, s, a, v);
    } else if v == a.t && a.Assign? {
      AgesOther(cfg, c, s, a, t);
    }
  }

  /** A request that gets a number is younger than all others. */
  lemma AgesOwn(cfg: Config, c: nat, s: State, a: Action, v: nat)
    requires cfg.Valid() && Basic(cfg, c, s) && Sound(cfg, c, s) && Enabled(cfg, c, s, a) && !a.Exec? && v < |s.jobs|
    ensures Younger(cfg, c, Do(cfg, s, a), a.t, v)
  {
    assert SideOk(cfg.txs[a.t], c, s, a.t) && SideOk(cfg.txs[v], c, s, v) && Younger(cfg, c, s, a.t, v);
    AgesSide(cfg, c, s, a, v);
  }

  lemma AgesSide(cfg: Config, c: nat, s: State, a: Action, v: nat)
    requires Enabled(cfg, c, s, a) && !a.Exec? && v < |s.jobs| == |cfg.txs|
    requires SideOk(cfg.txs[a.t], c, s, a.t) && s.jobs[v].first < s.next && Younger(cfg, c, s, a.t, v)
    ensures |Do(cfg, s, a).jobs| == |s.jobs| && Younger(cfg, c, Do(cfg, s, a), a.t, v)
  {
  }

  /** While a debit is due under its locks, its rivals do not get past theirs. */
  lemma AgesOther(cfg: Config, c: nat, s: State, a: Action, t: nat)
    requires cfg.Valid() && Basic(cfg, c, s) && Sound(cfg, c, s) && Enabled(cfg, c, s, a) && a.Assign? && t < |s.jobs|
             && t != a.t
    ensures Younger(cfg, c, Do(cfg, s, a), t, a.t)
  {
    assert SideOk(cfg.txs[t], c, s, t) && Younger(cfg, c, s, t, a.t) && NotShared(cfg, c, s, t, a.t);
    if Due(s.jobs[t], s.exec) && cfg.txs[t].clusterFrom == c {
      DueKeeps(cfg, c, s, t);
    }
  }

  lemma RequestCovered(cfg: Config, c: nat, s: State, a: Action, u: nat)
    requires cfg.Valid() && Basic(cfg, c, s) && Sound(cfg, c, s) && Enabled(cfg, c, s, a) && !a.Exec? && u < |s.jobs|
    ensures ProspectCovered(cfg, c, Do(cfg, s, a), u)
  {
    var s' := Do(cfg, s, a);
    OnlyExecMoves(cfg, c, s, a);
    OtherJobs(cfg, c, s, a, u);
    assert ProspectCovered(cfg, c, s, u);
    if u == a.t {
      assert SideOk(cfg.txs[u], c, s, u);
      OwnTarget(cfg, c, s, a);
      if !a.Check? {
        OwnProspect(cfg, c, s, a);
      }
    }
    if Blocked(cfg, s, Target(s, s.jobs[u])) {
      BlockedStays(cfg, c, s, a, Target(s, s.jobs[u]), Target(s', s'.jobs[u]));
    }
  }

  /** Apart from its check, no step of a request opens the prospect of a debit. */
  lemma OwnProspect(cfg: Config, c: nat, s: State, a: Action)
    requires cfg.Valid() && Basic(cfg, c, s) && Sound(cfg, c, s) && Enabled(cfg, c, s, a) && !a.Exec? && !a.Check?
    ensures var s' := Do(cfg, s, a);
            && (Due(s'.jobs[a.t], s.exec) || s'.jobs[a.t].pc.Checked? ==>
                  Due(s.jobs[a.t], s.exec) || s.jobs[a.t].pc.Checked?)
            && (a.Assign? ==> Target(s', s'.jobs[a.t]) == Target(s, s.jobs[a.t]))
  {
    assert SideOk(cfg.txs[a.t], c, s, a.t) && Orderly(s.jobs[a.t], s.exec);
  }

  lemma RequestDead(cfg: Config, c: nat, s: State, a: Action, u: nat)
    requires cfg.Valid() && Basic(cfg, c, s) && Sound(cfg, c, s) && Enabled(cfg, c, s, a) && !a.Exec? && u < |s.jobs|
    ensures DeadOk(cfg.txs[u], Do(cfg, s, a), Do(cfg, s, a).jobs[u])
  {
    if u == a.t {
      OwnDead(cfg, c, s, a);
    } else {
      assert DeadOk(cfg.txs[u], s, s.jobs[u]) && SideOk(cfg.txs[u], c, s, u);
      if a.Commit? || a.Fail? {
        assert Apart(s.jobs[a.t], s.jobs[u], s.jobs[a.t].pc.n);
      }
    }
  }

  lemma RequestSound(cfg: Config, c: nat, s: State, a: Action)
    requires cfg.Valid() && Basic(cfg, c, s) && Sound(cfg, c, s) && Enabled(cfg, c, s, a) && !a.Exec?
             && Harmless(cfg, c, s, a)
    ensures Sound(cfg, c, Do(cfg, s, a))
  {
    OnlyExecMoves(cfg, c, s, a);
    OtherJobs(cfg, c, s, a, a.t);
    RequestSides(cfg, c, s, a);
    RequestLocksSound(cfg, c, s, a);
    RequestRivals(cfg, c, s, a);
    LogApart(cfg, c, s, a);
  }

  lemma RequestSides(cfg: Config, c: nat, s: State, a: Action)
    requires cfg.Valid() && Basic(cfg, c, s) && Sound(cfg, c, s) && Enabled(cfg, c, s, a) && !a.Exec?
    ensures |Do(cfg, s, a).jobs| == |s.jobs| && SidesSound(cfg, c, Do(cfg, s, a))
  {
    var s' := Do(cfg, s, a);
    OtherJobs(cfg, c, s, a, a.t);
    forall u | 0 <= u < |s.jobs| ensures DeadOk(cfg.txs[u], s', s'.jobs[u]) {
      RequestDead(cfg, c, s, a, u);
    }
    forall u | 0 <= u < |s.jobs| ensures ProspectCovered(cfg, c, s', u) {
      RequestCovered(cfg, c, s, a, u);
    }
    forall u | 0 <= u < |s.jobs| ensures Orderly(s'.jobs[u], s'.exec) {
      RequestOrderly(cfg, c, s, a, u);
    }
  }

  lemma RequestOrderly(cfg: Config, c: nat, s: State, a: Action, u: nat)
    requires cfg.Valid() && Basic(cfg, c, s) && Sound(cfg, c, s) && Enabled(cfg, c, s, a) && !a.Exec? && u < |s.jobs|
    ensures |Do(cfg, s, a).jobs| == |s.jobs| && Orderly(Do(cfg, s, a).jobs[u], Do(cfg, s, a).exec)
  {
    OtherJobs(cfg, c, s, a, u);
    assert Orderly(s.jobs[u], s.exec);
    if u == a.t {
      OwnOrderly(cfg, c, s, a);
    }
  }

  lemma RequestRivals(cfg: Config, c: nat, s: State, a: Action)
    requires cfg.Valid() && Basic(cfg, c, s) && Sound(cfg, c, s) && Enabled(cfg, c, s, a) && !a.Exec?
             && Harmless(cfg, c, s, a)
    ensures |Do(cfg, s, a).jobs| == |s.jobs| && RivalsSound(cfg, c, Do(cfg, s, a))
  {
    var s' := Do(cfg, s, a);
    OtherJobs(cfg, c, s, a, a.t);
    forall t, v | 0 <= t < |s.jobs| && 0 <= v < |s.jobs| ensures NoRival(cfg, c, s', t, v) {
      RequestNoRival(cfg, c, s, a, t, v);
    }
    forall t, v | 0 <= t < |s.jobs| && 0 <= v < |s.jobs| ensures Younger(cfg, c, s', t, v) {
      RequestYounger(cfg, c, s, a, t, v);
    }
  }

  lemma LogApart(cfg: Config, c: nat, s: State, a: Action)
    requires cfg.Valid() && Basic(cfg, c, s) && Sound(cfg, c, s) && Enabled(cfg, c, s, a) && !a.Exec?
    ensures forall n | n in Do(cfg, s, a).log :: n !in Do(cfg, s, a).dead
  {
  }

  /***** The executor *****/

  /** What the executor's next entry means for its own request, and for the others. */
  lemma ExecSide(cfg: Config, c: nat, s: State, u: nat)
    requires cfg.Valid() && Basic(cfg, c, s) && Sound(cfg, c, s) && Enabled(cfg, c, s, Exec) && u < |s.jobs|
    ensures var s', e := Do(cfg, s, Exec), s.log[s.exec];
            && (Keeps(cfg, c, s', u) ==> Keeps(cfg, c, s, u))
            && (forall k :: Blocked(cfg, s', k) <==> Blocked(cfg, s, k))
            && (u == e.t && e.st != P ==> Keeps(cfg, c, s, u) && !Keeps(cfg, c, s', u))
            && (Prospective(cfg, c, s', u) ==> Prospective(cfg, c, s, u) && (u == e.t ==> e.st != Plain && e.st != P))
            && (u == e.t && cfg.txs[u].clusterFrom == c && (e.st == Plain || e.st == P) ==>
                  Prospective(cfg, c, s, u) && !s.jobs[u].pc.Locked?)
  {
    EntryOwned(cfg, c, s, s.exec);
    ExecMoves(cfg, c, s);
    ReachedNotBlocked(cfg, c, s, s.exec);
    assert SideOk(cfg.txs[u], c, s, u) && Orderly(s.jobs[u], s.exec);
    forall k ensures Blocked(cfg, Do(cfg, s, Exec), k) <==> Blocked(cfg, s, k) {
      forall d ensures Permanent(cfg, Do(cfg, s, Exec), d) <==> Permanent(cfg, s, d) {
      }
    }
  }

  lemma ExecLocksSound(cfg: Config, c: nat, s: State)
    requires cfg.Valid() && Basic(cfg, c, s) && Sound(cfg, c, s) && Enabled(cfg, c, s, Exec)
    ensures LocksSound(cfg, c, Do(cfg, s, Exec))
  {
    var s', t, st := Do(cfg, s, Exec), s.log[s.exec].t, s.log[s.exec].st;
    EntryOwned(cfg, c, s, s.exec);
    ExecSide(cfg, c, s, t);
    forall u | 0 <= u < |s.jobs| ensures Keeps(cfg, c, s', u) ==> Keeps(cfg, c, s, u) {
      ExecSide(cfg, c, s, u);
    }
    forall u | 0 <= u < |s.jobs| && u != t && st != P && Keeps(cfg, c, s, u)
      ensures cfg.txs[t].DisjointFrom(cfg.txs[u])
    {
      assert NotShared(cfg, c, s, t, u);
    }
    LocksFrame(cfg, c, s, s', t, false);
  }

  lemma ExecRivals(cfg: Config, c: nat, s: State, t: nat, v: nat)
    requires cfg.Valid() && Basic(cfg, c, s) && Sound(cfg, c, s) && Enabled(cfg, c, s, Exec) && t < |s.jobs|
             && v < |s.jobs|
    ensures NoRival(cfg, c, Do(cfg, s, Exec), t, v) && Younger(cfg, c, Do(cfg, s, Exec), t, v)
  {
    assert NoRival(cfg, c, s, t, v) && Younger(cfg, c, s, t, v);
    ExecSide(cfg, c, s, t);
  }

  /** The executor takes money only from a covered account, and leaves the accounts of the other
      prospective debits covered. */
  lemma ExecCredits(cfg: Config, c: nat, s: State)
    requires cfg.Valid() && Basic(cfg, c, s) && BalancesOk(cfg, c, s) && Sound(cfg, c, s) && Enabled(cfg, c, s, Exec)
    ensures var s', e := Do(cfg, s, Exec), s.log[s.exec];
            && NonNegative(s'.db.bal)
            && (forall x :: x in s'.db.bal <==> x in s.db.bal)
            && (forall x | x in s.db.bal && !(x == cfg.txs[e.t].from && (e.st == Plain || e.st == P)) ::
                s'.db.bal[x] >= s.db.bal[x])
  {
    var t, st := s.log[s.exec].t, s.log[s.exec].st;
    var tx := cfg.txs[t];
    EntryOwned(cfg, c, s, s.exec);
    ExecMoves(cfg, c, s);
    ExecEffect(cfg, c, s);
    ExecSide(cfg, c, s, t);
    assert cfg.ValidTransfer(tx) && SideOk(tx, c, s, t) && ProspectCovered(cfg, c, s, t);
    if st == A {
      ReverseCredits(cfg, c, s.db.bal, tx);
    }
  }

  lemma ExecCovered(cfg: Config, c: nat, s: State, u: nat)
    requires cfg.Valid() && Basic(cfg, c, s) && BalancesOk(cfg, c, s) && Sound(cfg, c, s) && Enabled(cfg, c, s, Exec)
    requires u < |s.jobs|
    ensures ProspectCovered(cfg, c, Do(cfg, s, Exec), u)
  {
    var t := s.log[s.exec].t;
    EntryOwned(cfg, c, s, s.exec);
    ExecSide(cfg, c, s, u);
    ExecSide(cfg, c, s, t);
    ExecCredits(cfg, c, s);
    assert ProspectCovered(cfg, c, s, u) && cfg.ValidTransfer(cfg.txs[t]) && cfg.ValidTransfer(cfg.txs[u]);
    if Prospective(cfg, c, s, u) && u != t && Prospective(cfg, c, s, t) {
      NoPair(cfg, c, s, t, u);
    }
  }

  lemma ExecSound(cfg: Config, c: nat, s: State)
    requires cfg.Valid() && Basic(cfg, c, s) && BalancesOk(cfg, c, s) && Sound(cfg, c, s) && Enabled(cfg, c, s, Exec)
    ensures Sound(cfg, c, Do(cfg, s, Exec))
  {
    var s' := Do(cfg, s, Exec);
    ExecCredits(cfg, c, s);
    ExecLocksSound(cfg, c, s);
    forall u | 0 <= u < |s.jobs|
      ensures DeadOk(cfg.txs[u], s', s'.jobs[u]) && ProspectCovered(cfg, c, s', u) && Orderly(s'.jobs[u], s'.exec)
    {
      ExecCovered(cfg, c, s, u);
      assert DeadOk(cfg.txs[u], s, s.jobs[u]) && Orderly(s.jobs[u], s.exec);
    }
    forall t, v | 0 <= t < |s.jobs| && 0 <= v < |s.jobs|
      ensures NoRival(cfg, c, s', t, v) && Younger(cfg, c, s', t, v)
    {
      ExecRivals(cfg, c, s, t, v);
    }
  }

  /** Here, too, no other step changes the outcome of a check between locking and numbering, as long as
      every committed first run that waits for the executor still has its locks. After harmless failures
      a waiting credit may come in besides, but a check that was passed stays passed. */
  lemma CheckStays(cfg: Config, c: nat, s: State, t: nat, a: Action)
    requires cfg.Valid() && Basic(cfg, c, s) && BalancesOk(cfg, c, s) && Sound(cfg, c, s)
    requires t < |s.jobs| && (s.jobs[t].pc.Locked? || s.jobs[t].pc.Checked?) && cfg.txs[t].clusterFrom == c
    requires Enabled(cfg, c, s, a) && (!a.Exec? ==> a.t != t)
    ensures WaitingKeep(cfg, c, s) ==> (Covered(cfg, Do(cfg, s, a), t) <==> Covered(cfg, s, t))
    ensures s.jobs[t].pc.Checked? && Prospective(cfg, c, s, t) ==> Covered(cfg, Do(cfg, s, a), t)
  {
    if a.Exec? {
      ExecCheckStays(cfg, c, s, t);
      ExecCheckLasts(cfg, c, s, t);
    } else {
      RequestMovesNothing(cfg, c, s, a, t);
      PassedCovered(cfg, c, s, t);
    }
  }

  /** Every committed first run that waits for the executor still has its locks. */
  ghost predicate WaitingKeep(cfg: Config, c: nat, s: State)
    requires |s.jobs| == |cfg.txs|
  {
    forall u | 0 <= u < |s.jobs| && Waiting(s.jobs[u], s.exec) :: Keeps(cfg, c, s, u)
  }

  lemma PassedCovered(cfg: Config, c: nat, s: State, t: nat)
    requires Sound(cfg, c, s) && t < |s.jobs|
    ensures s.jobs[t].pc.Checked? && Prospective(cfg, c, s, t) ==> Covered(cfg, s, t)
  {
    assert ProspectCovered(cfg, c, s, t);
  }

  lemma RequestMovesNothing(cfg: Config, c: nat, s: State, a: Action, t: nat)
    requires Enabled(cfg, c, s, a) && !a.Exec? && t < |cfg.txs|
    ensures Covered(cfg, Do(cfg, s, a), t) <==> Covered(cfg, s, t)
  {
  }

  lemma ExecCheckStays(cfg: Config, c: nat, s: State, t: nat)
    requires cfg.Valid() && Basic(cfg, c, s) && BalancesOk(cfg, c, s) && Sound(cfg, c, s) && Enabled(cfg, c, s, Exec)
    requires t < |s.jobs| && (s.jobs[t].pc.Locked? || s.jobs[t].pc.Checked?)
    ensures WaitingKeep(cfg, c, s) ==> (Covered(cfg, Do(cfg, s, Exec), t) <==> Covered(cfg, s, t))
  {
    if WaitingKeep(cfg, c, s) {
      var u := s.log[s.exec].t;
      EntryOwned(cfg, c, s, s.exec);
      ExecSide(cfg, c, s, u);
      assert NotShared(cfg, c, s, u, t) && SideOk(cfg.txs[t], c, s, t) && Orderly(s.jobs[t], s.exec);
      ExecEffect(cfg, c, s);
    }
  }

  lemma ExecCheckLasts(cfg: Config, c: nat, s: State, t: nat)
    requires cfg.Valid() && Basic(cfg, c, s) && BalancesOk(cfg, c, s) && Sound(cfg, c, s) && Enabled(cfg, c, s, Exec)
    requires t < |s.jobs|
    ensures s.jobs[t].pc.Checked? && Prospective(cfg, c, s, t) ==> Covered(cfg, Do(cfg, s, Exec), t)
  {
    ExecCovered(cfg, c, s, t);
    if s.jobs[t].pc.Checked? && Prospective(cfg, c, s, t) {
      ExecStillAhead(cfg, c, s, t);
      ExecSide(cfg, c, s, t);
    }
  }

  /** The executor has not passed the number of a request that has just been checked. */
  lemma ExecStillAhead(cfg: Config, c: nat, s: State, t: nat)
    requires Basic(cfg, c, s) && Enabled(cfg, c, s, Exec) && t < |s.jobs| == |cfg.txs| && s.jobs[t].pc.Checked?
    requires Orderly(s.jobs[t], s.exec) && s.exec <= Target(s, s.jobs[t])
    ensures s.exec < Target(s, s.jobs[t])
  {
    EntryOwned(cfg, c, s, s.exec);
    assert SideOk(cfg.txs[t], c, s, t);
    assert s.log[s.exec].t != t ==> Apart(s.jobs[s.log[s.exec].t], s.jobs[t], s.exec);
  }

  /***** All runs *****/

  /** Sound, and no entry that has been executed has overdrawn an account. */
  ghost predicate SoundSoFar(cfg: Config, c: nat, s: State) {
    Sound(cfg, c, s) && c < |cfg.shards| && forall k | 1 <= k <= s.exec :: Covers(cfg, c, s, k)
  }

  ghost predicate AllSound(cfg: Config, s: TwoPhase.State) {
    |s.cl| == |cfg.shards| && forall c | 0 <= c < |s.cl| :: SoundSoFar(cfg, c, s.cl[c])
  }

  lemma PrefixCovers(cfg: Config, c: nat, s: State, a: Action, k: nat)
    requires cfg.Valid() && Basic(cfg, c, s) && Enabled(cfg, c, s, a) && k <= s.exec && Covers(cfg, c, s, k)
    ensures Covers(cfg, c, Do(cfg, s, a), k)
  {
    TwoPhase.LogStays(cfg, c, s, a);
    AfterFrame(cfg.txs, Initial(cfg.shards[c]), s.log, Do(cfg, s, a).log, k);
  }

  lemma ClusterSound(cfg: Config, c: nat, s: State, a: Action)
    requires cfg.Valid() && Basic(cfg, c, s) && BalancesOk(cfg, c, s) && Sound(cfg, c, s)
    requires Enabled(cfg, c, s, a) && Harmless(cfg, c, s, a)
    ensures Sound(cfg, c, Do(cfg, s, a))
  {
    if a.Exec? {
      ExecSound(cfg, c, s);
    } else {
      RequestSound(cfg, c, s, a);
    }
  }

  lemma StepCovers(cfg: Config, c: nat, s: State, a: Action, k: nat)
    requires cfg.Valid() && Basic(cfg, c, s) && Replayed(cfg, c, s) && Enabled(cfg, c, s, a)
    requires NonNegative(Do(cfg, s, a).db.bal) && 1 <= k <= Do(cfg, s, a).exec && (k <= s.exec ==> Covers(cfg, c, s, k))
    ensures Covers(cfg, c, Do(cfg, s, a), k)
  {
    if k <= s.exec {
      PrefixCovers(cfg, c, s, a, k);
    } else if a.Exec? {
      ExecReplayed(cfg, c, s);
    } else {
      OtherJobs(cfg, c, s, a, a.t);
    }
  }

  lemma StepSoundSoFar(cfg: Config, c: nat, s: State, a: Action)
    requires cfg.Valid() && Basic(cfg, c, s) && BalancesOk(cfg, c, s) && Replayed(cfg, c, s) && SoundSoFar(cfg, c, s)
    requires Enabled(cfg, c, s, a) && Harmless(cfg, c, s, a)
    ensures SoundSoFar(cfg, c, Do(cfg, s, a))
  {
    var s' := Do(cfg, s, a);
    ClusterSound(cfg, c, s, a);
    forall k | 1 <= k <= s'.exec ensures Covers(cfg, c, s', k) {
      assert k <= s.exec ==> Covers(cfg, c, s, k);
      StepCovers(cfg, c, s, a, k);
    }
  }

  ghost predicate HarmlessStep(cfg: Config, s: TwoPhase.State, c: nat, a: Action) {
    c < |s.cl| ==> Harmless(cfg, c, s.cl[c], a)
  }

  /** Every failure of a commit or abort run in this run is harmless. */
  ghost predicate HarmlessRun(cfg: Config, r: TwoPhase.Run) {
    |r.states| > |r.moves| && forall i | 0 <= i < |r.moves| ::
        HarmlessStep(cfg, r.states[i], r.moves[i].c, r.moves[i].a)
  }

  lemma InitAllSound(cfg: Config)
    requires cfg.Valid()
    ensures TwoPhase.Core(cfg, TwoPhase.Init(cfg)) && AllSound(cfg, TwoPhase.Init(cfg))
  {
    TwoPhase.InitCore(cfg);
    forall c | 0 <= c < |cfg.shards| ensures SoundSoFar(cfg, c, TwoPhase.Init(cfg).cl[c]) {
      InitSound(cfg, c);
    }
  }

  lemma StepSound(cfg: Config, s: TwoPhase.State, c: nat, a: Action, s': TwoPhase.State)
    requires cfg.Valid() && TwoPhase.Core(cfg, s) && AllSound(cfg, s) && TwoPhase.Step(cfg, s, c, a, s')
             && HarmlessStep(cfg, s, c, a)
    ensures AllSound(cfg, s')
  {
    assert SoundSoFar(cfg, c, s.cl[c]);
    StepSoundSoFar(cfg, c, s.cl[c], a);
  }

  lemma RunSound(cfg: Config, r: TwoPhase.Run, i: nat)
    requires cfg.Valid() && r.Of(cfg) && HarmlessRun(cfg, r) && i < |r.states|
    ensures TwoPhase.Core(cfg, r.states[i]) && AllSound(cfg, r.states[i])
  {
    InitAllSound(cfg);
    forall s: TwoPhase.State, c: nat, a: Action, s': TwoPhase.State
      | TwoPhase.Core(cfg, s) && AllSound(cfg, s) && HarmlessStep(cfg, s, c, a) && TwoPhase.Step(cfg, s, c, a, s')
      ensures TwoPhase.Core(cfg, s') && AllSound(cfg, s')
    {
      TwoPhase.StepCore(cfg, s, c, a, s');
      StepSound(cfg, s, c, a, s');
    }
    TwoPhase.Throughout(cfg, r, (s: TwoPhase.State, c: nat, a: Action) => HarmlessStep(cfg, s, c, a),
                        (s: TwoPhase.State) => TwoPhase.Core(cfg, s) && AllSound(cfg, s), i);
  }

  /** From a sound state on, executing further entries of the log overdraws no account. */
  lemma PrefixesSound(cfg: Config, c: nat, s: State, k: nat)
    requires cfg.Valid() && Basic(cfg, c, s) && BalancesOk(cfg, c, s) && Sound(cfg, c, s) && Replayed(cfg, c, s)
    requires s.exec <= k && forall n | 1 <= n < k :: n in s.log
    ensures NonNegative(BalancesAt(cfg, c, s, k))
  {
    forall x: State | ExecutesSoundly(cfg, c, x) && Enabled(cfg, c, x, Exec)
      ensures ExecutesSoundly(cfg, c, Do(cfg, x, Exec))
    {
      ExecReplayed(cfg, c, x);
      StepBasic(cfg, c, x, Exec);
      StepBalances(cfg, c, x, Exec);
      ExecSound(cfg, c, x);
    }
    WhileExecuting(cfg, c, s, k, x => ExecutesSoundly(cfg, c, x));
    forall n | s.exec <= n < k ensures s.log[n].t < |cfg.txs| {
      EntryOwned(cfg, c, s, n);
    }
    ExecToReaches(cfg, s, k);
  }

  ghost predicate ExecutesSoundly(cfg: Config, c: nat, s: State) {
    Basic(cfg, c, s) && BalancesOk(cfg, c, s) && Sound(cfg, c, s) && Replayed(cfg, c, s)
  }

  /** No prefix of the log overdraws an account, executed or not. */
  lemma AnyPrefix(cfg: Config, c: nat, s: State, k: nat)
    requires cfg.Valid() && Basic(cfg, c, s) && BalancesOk(cfg, c, s) && Replayed(cfg, c, s) && SoundSoFar(cfg, c, s)
    requires 1 <= k && forall n | 1 <= n < k :: n in s.log
    ensures NonNegative(BalancesAt(cfg, c, s, k))
  {
    if k <= s.exec {
      assert Covers(cfg, c, s, k);
    } else {
      PrefixesSound(cfg, c, s, k);
    }
  }

  /** With resubmissions and failures of any runs, no balance is ever negative, at the leader and after
      any gap-free prefix of the log, as long as the failures of commit and abort runs are harmless. */
  lemma NeverNegativeResubmitted(cfg: Config, r: TwoPhase.Run, i: nat, c: nat, k: nat)
    requires cfg.Valid() && r.Of(cfg) && HarmlessRun(cfg, r) && i < |r.states| && c < |cfg.shards|
    requires 1 <= k && forall n | 1 <= n < k :: c < |r.states[i].cl| && n in r.states[i].cl[c].log
    ensures c < |r.states[i].cl| && NonNegative(r.states[i].cl[c].db.bal)
    ensures NonNegative(BalancesAt(cfg, c, r.states[i].cl[c], k))
  {
    RunSound(cfg, r, i);
    assert SoundSoFar(cfg, c, r.states[i].cl[c]);
    AnyPrefix(cfg, c, r.states[i].cl[c], k);
  }
}

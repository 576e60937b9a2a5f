/** Money and locks of one cluster: what its balances are in terms of the requests executed, who
    holds its locks, and why no balance ever goes below zero. */
module Solvency {
  import opened Transfers
  import opened Ledger
  import opened Cluster
  import opened Replay

  /***** Balances *****/

  /** The money of this request has moved in this cluster and has not been moved back. */
  predicate Moved(sd: Side, exec: nat) {
    sd.saved && 1 <= sd.first < exec && !(sd.pc.Done? && sd.pc.st == A && sd.pc.ok && sd.pc.n < exec)
  }

  function MovedSet(s: State): set<nat> {
    set t | 0 <= t < |s.jobs| && Moved(s.jobs[t], s.exec)
  }

  /** Each account holds its initial balance plus the transfers that have moved. */
  ghost predicate BalancesOk(cfg: Config, c: nat, s: State) {
    && c < |cfg.shards|
    && (forall x :: x in s.db.bal <==> cfg.shards[c].Owns(x))
    && (forall x | x in s.db.bal :: s.db.bal[x] == INITIAL_BALANCE + SumOver(cfg.txs, MovedSet(s), x, |cfg.txs|))
  }

  lemma InitBalances(cfg: Config, c: nat)
    requires c < |cfg.shards|
    ensures BalancesOk(cfg, c, Init(cfg, c))
  {
    forall x {
      SumOverEmpty(cfg.txs, x, |cfg.txs|);
    }
    assert MovedSet(Init(cfg, c)) == {};
  }

  /** Only the executor moves money. */
  lemma OnlyExecMoves(cfg: Config, c: nat, s: State, a: Action)
    requires cfg.Valid() && Basic(cfg, c, s) && Enabled(cfg, c, s, a) && !a.Exec?
    ensures MovedSet(Do(cfg, s, a)) == MovedSet(s) && Do(cfg, s, a).db.bal == s.db.bal
  {
    OwnMoved(cfg, c, s, a);
    OtherJobs(cfg, c, s, a, a.t);
    forall u | 0 <= u < |s.jobs| ensures Moved(Do(cfg, s, a).jobs[u], s.exec) <==> Moved(s.jobs[u], s.exec) {
      OtherJobs(cfg, c, s, a, u);
    }
  }

  lemma OwnMoved(cfg: Config, c: nat, s: State, a: Action)
    requires Basic(cfg, c, s) && Enabled(cfg, c, s, a) && !a.Exec?
    ensures Moved(Do(cfg, s, a).jobs[a.t], s.exec) <==> Moved(s.jobs[a.t], s.exec)
    ensures Do(cfg, s, a).db.bal == s.db.bal
  {
    assert SideOk(cfg.txs[a.t], c, s, a.t);
  }

  /** What the executor's next entry is, and what it does to the set of moved transfers. */
  lemma ExecMoves(cfg: Config, c: nat, s: State)
    requires cfg.Valid() && Basic(cfg, c, s) && Enabled(cfg, c, s, Exec)
    ensures var t, st, s' := s.log[s.exec].t, s.log[s.exec].st, Do(cfg, s, Exec);
            && (st == Plain || st == P ==> t !in MovedSet(s) && MovedSet(s') == MovedSet(s) + {t})
            && (st == A ==> t in MovedSet(s) && MovedSet(s') == MovedSet(s) - {t} && cfg.txs[t].clusterFrom == c)
            && (st == C ==> MovedSet(s') == MovedSet(s))
  {
    var n := s.exec;
    EntryOwned(cfg, c, s, n);
    var t := s.log[n].t;
    assert SideOk(cfg.txs[t], c, s, t);
    forall u | 0 <= u < |s.jobs| && u != t
      ensures Moved(s.jobs[u], n) <==> Moved(s.jobs[u], n + 1)
    {
      assert Apart(s.jobs[t], s.jobs[u], n);
      assert SideOk(cfg.txs[u], c, s, u);
    }
  }

  lemma UndoOne(bal: map<int, int>, tx: Transfer)
    ensures Undo(bal, [tx]) == Apply(bal, tx.Reverse())
  {
    assert [tx][1..] == [];
  }

  lemma ExecEffect(cfg: Config, c: nat, s: State)
    requires cfg.Valid() && Basic(cfg, c, s) && Enabled(cfg, c, s, Exec)
    ensures Do(cfg, s, Exec).db.bal == Effect(cfg.txs, s.log, s.exec, s.db.bal)
    ensures s.log[s.exec].st == A ==> Do(cfg, s, Exec).db.bal == Apply(s.db.bal, cfg.txs[s.log[s.exec].t].Reverse())
  {
    var t := s.log[s.exec].t;
    EntryOwned(cfg, c, s, s.exec);
    assert SideOk(cfg.txs[t], c, s, t) && WalOk(cfg.txs[t], s, t);
    if s.log[s.exec].st == A {
      assert PreparedBelow(s.log, t, s.exec);
      assert WalOf(s.db, cfg.txs[t].clientSeq) == [cfg.txs[t]];
      UndoOne(s.db.bal, cfg.txs[t]);
    }
  }

  lemma ExecBalances(cfg: Config, c: nat, s: State)
    requires cfg.Valid() && Basic(cfg, c, s) && BalancesOk(cfg, c, s) && Enabled(cfg, c, s, Exec)
    ensures BalancesOk(cfg, c, Do(cfg, s, Exec))
    ensures Do(cfg, s, Exec).db.bal == Effect(cfg.txs, s.log, s.exec, s.db.bal)
  {
    var n, s' := s.exec, Do(cfg, s, Exec);
    EntryOwned(cfg, c, s, n);
    ExecMoves(cfg, c, s);
    var t := s.log[n].t;
    var moved := MovedSet(s);
    ExecEffect(cfg, c, s);
    if s.log[n].st == A {
      assert moved == (moved - {t}) + {t};
      forall x | x in s.db.bal {
        SumOverInsert(cfg.txs, moved - {t}, t, x, |cfg.txs|);
      }
    } else if s.log[n].st != C {
      forall x | x in s.db.bal {
        SumOverInsert(cfg.txs, moved, t, x, |cfg.txs|);
      }
    }
  }

  lemma StepBalances(cfg: Config, c: nat, s: State, a: Action)
    requires cfg.Valid() && Basic(cfg, c, s) && BalancesOk(cfg, c, s) && Enabled(cfg, c, s, a)
    ensures BalancesOk(cfg, c, Do(cfg, s, a))
  {
    if a.Exec? {
      ExecBalances(cfg, c, s);
    } else {
      OnlyExecMoves(cfg, c, s, a);
    }
  }

  /***** Locks *****/

  /** A request holds its locks from acquiring them until the executor has passed its last entry. */
  predicate Holds(sd: Side, exec: nat) {
    match sd.pc
    case Idle => false
    case Rejected => false
    case Locked => true
    case Checked => true
    case Running(_, _) => true
    case Done(st, n, ok) => ok && (st == P || exec <= n)
  }

  /** Without resubmission a request gets one first run, and a number is dead only if its run failed. */
  ghost predicate SingleOk(tx: Transfer, s: State, t: nat)
    requires t < |s.jobs|
  {
    var sd := s.jobs[t];
    match sd.pc
    case Running(st, n) => n !in s.dead && (!tx.Cross() ==> !sd.saved) && (st == A && !sd.saved ==> sd.first in s.dead)
    case Done(st, n, ok) => (ok <==> n !in s.dead) && (!tx.Cross() ==> sd.saved == ok)
        && (st == A && !sd.saved ==> sd.first in s.dead)
    case _ => sd.first == 0
  }

  ghost predicate Single(cfg: Config, s: State) {
    && |s.jobs| == |cfg.txs|
    && (forall t | 0 <= t < |s.jobs| :: SingleOk(cfg.txs[t], s, t))
    && (forall n | n in s.log :: n !in s.dead)
  }

  lemma StepSingleOk(cfg: Config, c: nat, s: State, a: Action, u: nat)
    requires cfg.Valid() && Basic(cfg, c, s) && Single(cfg, s) && Enabled(cfg, c, s, a) && !a.Resend? && u < |s.jobs|
    ensures SingleOk(cfg.txs[u], Do(cfg, s, a), u)
  {
    assert SingleOk(cfg.txs[u], s, u) && SideOk(cfg.txs[u], c, s, u);
    if !a.Exec? && u == a.t {
      forall n | n in s.log ensures n >= 1 {
        EntryOwned(cfg, c, s, n);
      }
      OwnSingleOk(cfg, c, s, a);
    } else {
      if a.Commit? || a.Fail? {
        assert Apart(s.jobs[a.t], s.jobs[u], s.jobs[a.t].pc.n) && SideOk(cfg.txs[a.t], c, s, a.t);
      }
      OtherSingleOk(cfg, c, s, a, u);
    }
  }

  lemma OtherSingleOk(cfg: Config, c: nat, s: State, a: Action, u: nat)
    requires Enabled(cfg, c, s, a) && !a.Resend? && u < |s.jobs| == |cfg.txs| && (!a.Exec? ==> u != a.t)
    requires SingleOk(cfg.txs[u], s, u) && SideOk(cfg.txs[u], c, s, u)
    requires a.Commit? || a.Fail? ==> Apart(s.jobs[a.t], s.jobs[u], s.jobs[a.t].pc.n) && s.jobs[a.t].pc.n >= 1
    ensures |Do(cfg, s, a).jobs| == |s.jobs| && SingleOk(cfg.txs[u], Do(cfg, s, a), u)
  {
  }

  lemma OwnSingleOk(cfg: Config, c: nat, s: State, a: Action)
    requires Enabled(cfg, c, s, a) && !a.Exec? && !a.Resend? && |s.jobs| == |cfg.txs|
    requires SingleOk(cfg.txs[a.t], s, a.t) && SideOk(cfg.txs[a.t], c, s, a.t)
    requires 0 !in s.log && forall d | d in s.dead :: d < s.next
    ensures SingleOk(cfg.txs[a.t], Do(cfg, s, a), a.t)
  {
  }

  lemma StepSingle(cfg: Config, c: nat, s: State, a: Action)
    requires cfg.Valid() && Basic(cfg, c, s) && Single(cfg, s) && Enabled(cfg, c, s, a) && !a.Resend?
    ensures Single(cfg, Do(cfg, s, a))
  {
    var s' := Do(cfg, s, a);
    forall u | 0 <= u < |s'.jobs| ensures SingleOk(cfg.txs[u], s', u) {
      StepSingleOk(cfg, c, s, a, u);
    }
    if a.Fail? {
      assert SideOk(cfg.txs[a.t], c, s, a.t) && SingleOk(cfg.txs[a.t], s, a.t);
    }
  }

  ghost predicate HeldLocked(cfg: Config, s: State, t: nat)
    requires t < |s.jobs| == |cfg.txs|
  {
    Holds(s.jobs[t], s.exec) ==> cfg.txs[t].from in s.db.locks && cfg.txs[t].to in s.db.locks
  }

  ghost predicate Unshared(cfg: Config, s: State, t: nat, u: nat)
    requires t < |s.jobs| == |cfg.txs| && u < |s.jobs|
  {
    t != u && Holds(s.jobs[t], s.exec) && Holds(s.jobs[u], s.exec) ==> cfg.txs[t].DisjointFrom(cfg.txs[u])
  }

  ghost predicate HasHolder(cfg: Config, s: State, x: int)
    requires |s.jobs| == |cfg.txs|
  {
    exists t | 0 <= t < |s.jobs| :: Holds(s.jobs[t], s.exec) && cfg.txs[t].Touches(x)
  }

  ghost predicate LocksOk(cfg: Config, s: State) {
    && |s.jobs| == |cfg.txs|
    && (forall t | 0 <= t < |s.jobs| :: HeldLocked(cfg, s, t))
    && (forall t, u | 0 <= t < |s.jobs| && 0 <= u < |s.jobs| :: Unshared(cfg, s, t, u))
    && (forall x | x in s.db.locks :: HasHolder(cfg, s, x))
  }

  lemma HolderStays(cfg: Config, s: State, s': State, t: nat, x: int)
    requires |s'.jobs| == |s.jobs| == |cfg.txs| && t < |s.jobs| && HasHolder(cfg, s, x) && !cfg.txs[t].Touches(x)
    requires forall u | 0 <= u < |s.jobs| && u != t && Holds(s.jobs[u], s.exec) :: Holds(s'.jobs[u], s'.exec)
    ensures HasHolder(cfg, s', x)
  {
    var u :| 0 <= u < |s.jobs| && Holds(s.jobs[u], s.exec) && cfg.txs[u].Touches(x);
    assert Holds(s'.jobs[u], s'.exec);
  }

  /** One request lets its locks go, or keeps them, while all others stay as they are. */
  lemma LocksFrame(cfg: Config, s: State, s': State, t: nat)
    requires LocksOk(cfg, s) && |s'.jobs| == |s.jobs| && t < |s.jobs|
    requires forall u | 0 <= u < |s.jobs| && u != t :: Holds(s'.jobs[u], s'.exec) <==> Holds(s.jobs[u], s.exec)
    requires Holds(s.jobs[t], s.exec)
    requires if Holds(s'.jobs[t], s'.exec) then s'.db.locks == s.db.locks
             else s'.db.locks == s.db.locks - cfg.txs[t].Accounts()
    ensures LocksOk(cfg, s')
  {
    forall u | 0 <= u < |s.jobs| ensures HeldLocked(cfg, s', u) {
      assert HeldLocked(cfg, s, u) && Unshared(cfg, s, t, u);
    }
    forall u, v | 0 <= u < |s.jobs| && 0 <= v < |s.jobs| ensures Unshared(cfg, s', u, v) {
      assert Unshared(cfg, s, u, v);
    }
    forall x | x in s'.db.locks ensures HasHolder(cfg, s', x) {
      assert HasHolder(cfg, s, x);
      if cfg.txs[t].Touches(x) {
        assert Holds(s'.jobs[t], s'.exec);
      } else {
        HolderStays(cfg, s, s', t, x);
      }
    }
  }

  lemma ExecLocks(cfg: Config, c: nat, s: State)
    requires cfg.Valid() && Basic(cfg, c, s) && Single(cfg, s) && s.dead == {}
    requires LocksOk(cfg, s) && Enabled(cfg, c, s, Exec)
    ensures LocksOk(cfg, Do(cfg, s, Exec))
  {
    var n, s' := s.exec, Do(cfg, s, Exec);
    EntryOwned(cfg, c, s, n);
    var t, st := s.log[n].t, s.log[n].st;
    assert SideOk(cfg.txs[t], c, s, t);
    assert Holds(s.jobs[t], n);
    forall u | 0 <= u < |s.jobs| && u != t
      ensures Holds(s.jobs[u], n) <==> Holds(s.jobs[u], n + 1)
    {
      assert Apart(s.jobs[t], s.jobs[u], n);
      assert SideOk(cfg.txs[u], c, s, u);
    }
    LocksFrame(cfg, s, s', t);
  }

  lemma RequestLocks(cfg: Config, c: nat, s: State, a: Action)
    requires cfg.Valid() && Basic(cfg, c, s) && Single(cfg, s) && s.dead == {}
    requires LocksOk(cfg, s) && Enabled(cfg, c, s, a) && !a.Exec? && !a.Fail? && !a.Resend?
    ensures LocksOk(cfg, Do(cfg, s, a))
  {
    var t, s' := a.t, Do(cfg, s, a);
    assert SideOk(cfg.txs[t], c, s, t) && SingleOk(cfg.txs[t], s, t);
    if a.Acquire? {
      AcquireLocks(cfg, s, s', t);
    } else if a.EraseWal? {
      SameLocks(cfg, s, s');
    } else {
      LocksFrame(cfg, s, s', t);
    }
  }

  lemma SameLocks(cfg: Config, s: State, s': State)
    requires LocksOk(cfg, s) && s'.jobs == s.jobs && s'.exec == s.exec && s'.db.locks == s.db.locks
    ensures LocksOk(cfg, s')
  {
    forall u | 0 <= u < |s.jobs| ensures HeldLocked(cfg, s', u) {
      assert HeldLocked(cfg, s, u);
    }
    forall u, v | 0 <= u < |s.jobs| && 0 <= v < |s.jobs| ensures Unshared(cfg, s', u, v) {
      assert Unshared(cfg, s, u, v);
    }
    forall x | x in s'.db.locks ensures HasHolder(cfg, s', x) {
      assert HasHolder(cfg, s, x);
    }
  }

  lemma AcquireLocks(cfg: Config, s: State, s': State, t: nat)
    requires LocksOk(cfg, s) && |s'.jobs| == |s.jobs| && t < |s.jobs| && s'.exec == s.exec
    requires forall u | 0 <= u < |s.jobs| && u != t :: s'.jobs[u] == s.jobs[u]
    requires !Holds(s.jobs[t], s.exec) && Holds(s'.jobs[t], s.exec)
    requires Free(s.db, cfg.txs[t]) && s'.db.locks == s.db.locks + cfg.txs[t].Accounts()
    ensures LocksOk(cfg, s')
  {
    forall u | 0 <= u < |s.jobs| ensures HeldLocked(cfg, s', u) {
      assert HeldLocked(cfg, s, u);
    }
    forall u, v | 0 <= u < |s.jobs| && 0 <= v < |s.jobs| ensures Unshared(cfg, s', u, v) {
      assert Unshared(cfg, s, u, v) && HeldLocked(cfg, s, u) && HeldLocked(cfg, s, v);
    }
    forall x | x in s'.db.locks ensures HasHolder(cfg, s', x) {
      if cfg.txs[t].Touches(x) {
        assert Holds(s'.jobs[t], s.exec);
      } else {
        assert HasHolder(cfg, s, x);
        HolderStays(cfg, s, s', t, x);
      }
    }
  }

  /** As long as no run of the cluster has failed, the locks are exactly the accounts of the
      requests under way, and no account belongs to two of them. */
  lemma StepLocks(cfg: Config, c: nat, s: State, a: Action)
    requires cfg.Valid() && Basic(cfg, c, s) && Single(cfg, s) && (s.dead == {} ==> LocksOk(cfg, s))
    requires Enabled(cfg, c, s, a) && !a.Resend?
    ensures var s' := Do(cfg, s, a); s'.dead == {} ==> LocksOk(cfg, s')
  {
    if s.dead == {} {
      if a.Exec? {
        ExecLocks(cfg, c, s);
      } else if !a.Fail? {
        RequestLocks(cfg, c, s, a);
      } else {
        assert SideOk(cfg.txs[a.t], c, s, a.t) && SingleOk(cfg.txs[a.t], s, a.t);
      }
    } else {
      var d :| d in s.dead;
      if a.Commit? {
        assert SingleOk(cfg.txs[a.t], s, a.t);
      }
      assert d in Do(cfg, s, a).dead;
    }
  }

  /** While a request holds its locks and is checked, nobody else moves its account, as long as no run
      has failed; so it makes no difference when between locking and numbering the check is made. */
  lemma CheckStays(cfg: Config, c: nat, s: State, t: nat, a: Action)
    requires cfg.Valid() && Basic(cfg, c, s) && Single(cfg, s) && s.dead == {} && LocksOk(cfg, s)
    requires t < |s.jobs| && (s.jobs[t].pc == Locked || s.jobs[t].pc == Checked)
    requires Enabled(cfg, c, s, a) && (!a.Exec? ==> a.t != t)
    ensures Covered(cfg, Do(cfg, s, a), t) <==> Covered(cfg, s, t)
  {
    if a.Exec? {
      var u := s.log[s.exec].t;
      EntryOwned(cfg, c, s, s.exec);
      assert SideOk(cfg.txs[u], c, s, u) && SingleOk(cfg.txs[t], s, t);
      assert Unshared(cfg, s, u, t);
      ExecEffect(cfg, c, s);
    } else {
      assert SideOk(cfg.txs[a.t], c, s, a.t);
    }
  }

  /***** No balance goes below zero *****/

  /** The first run of this request is still to be executed and lies below every gap of the log. */
  ghost predicate Pending(s: State, t: nat)
    requires t < |s.jobs|
  {
    1 <= s.jobs[t].first && s.exec <= s.jobs[t].first && forall d | d in s.dead :: s.jobs[t].first < d
  }

  /** A check that has succeeded still holds, unless a run has failed since. */
  ghost predicate CheckHolds(cfg: Config, c: nat, s: State, t: nat)
    requires t < |s.jobs| == |cfg.txs|
  {
    s.dead == {} && s.jobs[t].pc == Checked && cfg.txs[t].clusterFrom == c ==> Covered(cfg, s, t)
  }

  /** The executor can reach only pending runs; no two of them touch the same account, and each
      debit of this cluster is covered. Runs above a gap may break both, but are never reached. */
  ghost predicate Solvent(cfg: Config, c: nat, s: State) {
    && |s.jobs| == |cfg.txs|
    && NonNegative(s.db.bal)
    && (forall t | 0 <= t < |s.jobs| && cfg.txs[t].clusterFrom == c && Pending(s, t) :: Covered(cfg, s, t))
    && (forall t, u | 0 <= t < |s.jobs| && 0 <= u < |s.jobs| && t != u && Pending(s, t) && Pending(s, u) ::
          cfg.txs[t].DisjointFrom(cfg.txs[u]))
    && (forall t | 0 <= t < |s.jobs| :: CheckHolds(cfg, c, s, t))
  }

  lemma PendingHolds(cfg: Config, c: nat, s: State, t: nat)
    requires cfg.Valid() && Basic(cfg, c, s) && Single(cfg, s) && s.dead == {} && t < |s.jobs| && Pending(s, t)
    ensures Holds(s.jobs[t], s.exec)
  {
    assert SideOk(cfg.txs[t], c, s, t) && SingleOk(cfg.txs[t], s, t);
  }

  /** While no run has failed, a run that gets its number shares no account with a pending one. */
  lemma AssignApart(cfg: Config, c: nat, s: State, t: nat, u: nat)
    requires cfg.Valid() && Basic(cfg, c, s) && Single(cfg, s) && s.dead == {} && LocksOk(cfg, s)
    requires t < |s.jobs| && s.jobs[t].pc == Checked && u < |s.jobs| && u != t && Pending(s, u)
    ensures cfg.txs[t].DisjointFrom(cfg.txs[u]) && cfg.txs[u].DisjointFrom(cfg.txs[t])
  {
    PendingHolds(cfg, c, s, u);
    assert Unshared(cfg, s, t, u);
  }

  /** A run that gets its number while the log has a gap lies above the gap for good. */
  lemma AssignPending(cfg: Config, c: nat, s: State, t: nat)
    requires cfg.Valid() && Basic(cfg, c, s) && Single(cfg, s) && Enabled(cfg, c, s, Assign(t))
    ensures var s' := Do(cfg, s, Assign(t));
            && (forall u | 0 <= u < |s.jobs| && u != t ::
                  s'.jobs[u] == s.jobs[u] && (Pending(s', u) <==> Pending(s, u)))
            && (s.dead != {} ==> !Pending(s', t))
  {
    assert SideOk(cfg.txs[t], c, s, t) && SingleOk(cfg.txs[t], s, t);
    if s.dead != {} {
      var d :| d in s.dead;
      assert d < s.next;
    }
  }

  lemma AssignSolvent(cfg: Config, c: nat, s: State, t: nat)
    requires cfg.Valid() && Basic(cfg, c, s) && BalancesOk(cfg, c, s) && Single(cfg, s)
             && (s.dead == {} ==> LocksOk(cfg, s))
    requires Solvent(cfg, c, s) && Enabled(cfg, c, s, Assign(t))
    ensures Solvent(cfg, c, Do(cfg, s, Assign(t)))
  {
    var s' := Do(cfg, s, Assign(t));
    AssignPending(cfg, c, s, t);
    assert CheckHolds(cfg, c, s, t);
    forall u | 0 <= u < |s.jobs| ensures CheckHolds(cfg, c, s', u) {
      assert CheckHolds(cfg, c, s, u);
    }
    forall u | 0 <= u < |s.jobs| && u != t && Pending(s, u) && s.dead == {}
      ensures cfg.txs[t].DisjointFrom(cfg.txs[u]) && cfg.txs[u].DisjointFrom(cfg.txs[t])
    {
      AssignApart(cfg, c, s, t, u);
    }
  }

  /** A first run that the executor reaches was pending, and its debit is covered. */
  lemma NextPending(cfg: Config, c: nat, s: State)
    requires cfg.Valid() && Basic(cfg, c, s) && Single(cfg, s) && Solvent(cfg, c, s) && Enabled(cfg, c, s, Exec)
    requires s.log[s.exec].st == Plain || s.log[s.exec].st == P
    ensures var t := s.log[s.exec].t;
            && t < |s.jobs| && Pending(s, t) && !Pending(Do(cfg, s, Exec), t) && cfg.ValidTransfer(cfg.txs[t])
            && (cfg.txs[t].clusterFrom == c ==> Covered(cfg, s, t)) && cfg.txs[t].Involves(c)
  {
    var t := s.log[s.exec].t;
    EntryOwned(cfg, c, s, s.exec);
    assert SideOk(cfg.txs[t], c, s, t);
    forall d | d in s.dead ensures s.exec < d {
      assert d !in s.log;
    }
  }

  lemma ExecChecks(cfg: Config, c: nat, s: State)
    requires cfg.Valid() && Basic(cfg, c, s) && Single(cfg, s) && (s.dead == {} ==> LocksOk(cfg, s))
    requires Solvent(cfg, c, s) && Enabled(cfg, c, s, Exec)
    ensures forall u | 0 <= u < |s.jobs| :: CheckHolds(cfg, c, Do(cfg, s, Exec), u)
  {
    forall u | 0 <= u < |s.jobs| ensures CheckHolds(cfg, c, Do(cfg, s, Exec), u) {
      assert CheckHolds(cfg, c, s, u);
      if s.dead == {} && s.jobs[u].pc == Checked {
        CheckStays(cfg, c, s, u, Exec);
      }
    }
  }

  lemma ExecSolvent(cfg: Config, c: nat, s: State)
    requires cfg.Valid() && Basic(cfg, c, s) && BalancesOk(cfg, c, s) && Single(cfg, s)
             && (s.dead == {} ==> LocksOk(cfg, s))
    requires Solvent(cfg, c, s) && Enabled(cfg, c, s, Exec)
    ensures Solvent(cfg, c, Do(cfg, s, Exec))
  {
    var s' := Do(cfg, s, Exec);
    ExecChecks(cfg, c, s);
    assert forall u | 0 <= u < |s.jobs| && Pending(s', u) :: Pending(s, u);
    if s.log[s.exec].st == Plain || s.log[s.exec].st == P {
      MovingSolvent(cfg, c, s);
    } else {
      NoLess(cfg, c, s);
    }
  }

  /** An entry that moves money takes it only from a covered account that no other pending run touches. */
  lemma MovingSolvent(cfg: Config, c: nat, s: State)
    requires cfg.Valid() && Basic(cfg, c, s) && BalancesOk(cfg, c, s) && Single(cfg, s) && Solvent(cfg, c, s)
    requires Enabled(cfg, c, s, Exec) && (s.log[s.exec].st == Plain || s.log[s.exec].st == P)
    ensures NonNegative(Do(cfg, s, Exec).db.bal)
    ensures forall u | 0 <= u < |s.jobs| && cfg.txs[u].clusterFrom == c && Pending(Do(cfg, s, Exec), u) ::
              Covered(cfg, Do(cfg, s, Exec), u)
  {
    var t, s' := s.log[s.exec].t, Do(cfg, s, Exec);
    NextPending(cfg, c, s);
    forall x | x in s'.db.bal ensures s'.db.bal[x] >= 0 {
      assert x in s.db.bal && s'.db.bal[x] == s.db.bal[x] + Delta(cfg.txs[t], x);
      assert x == cfg.txs[t].from ==> cfg.txs[t].clusterFrom == c;
    }
    forall u | 0 <= u < |s.jobs| && cfg.txs[u].clusterFrom == c && Pending(s', u) ensures Covered(cfg, s', u) {
      assert cfg.txs[t].DisjointFrom(cfg.txs[u]) && Covered(cfg, s, u);
    }
  }

  /** The others take none. */
  lemma NoLess(cfg: Config, c: nat, s: State)
    requires cfg.Valid() && Basic(cfg, c, s) && BalancesOk(cfg, c, s) && Enabled(cfg, c, s, Exec)
    requires s.log[s.exec].st == A || s.log[s.exec].st == C
    ensures forall x :: x in Do(cfg, s, Exec).db.bal <==> x in s.db.bal
    ensures forall x | x in s.db.bal :: Do(cfg, s, Exec).db.bal[x] >= s.db.bal[x]
  {
    EntryOwned(cfg, c, s, s.exec);
    ExecMoves(cfg, c, s);
    ExecEffect(cfg, c, s);
    if s.log[s.exec].st == A {
      assert cfg.ValidTransfer(cfg.txs[s.log[s.exec].t]) && SideOk(cfg.txs[s.log[s.exec].t], c, s, s.log[s.exec].t);
      ReverseCredits(cfg, c, s.db.bal, cfg.txs[s.log[s.exec].t]);
    }
  }

  /** Undoing a debit of this cluster only adds money to it. */
  lemma ReverseCredits(cfg: Config, c: nat, bal: map<int, int>, tx: Transfer)
    requires cfg.Valid() && c < |cfg.shards| && cfg.ValidTransfer(tx) && tx.clusterFrom == c && tx.Cross()
    requires forall x :: x in bal <==> cfg.shards[c].Owns(x)
    ensures forall x | x in bal :: Apply(bal, tx.Reverse())[x] >= bal[x]
  {
    assert tx.to !in bal;
  }

  lemma StepSolvent(cfg: Config, c: nat, s: State, a: Action)
    requires cfg.Valid() && Basic(cfg, c, s) && BalancesOk(cfg, c, s) && Single(cfg, s)
             && (s.dead == {} ==> LocksOk(cfg, s))
    requires Solvent(cfg, c, s) && Enabled(cfg, c, s, a) && !a.Resend?
    ensures Solvent(cfg, c, Do(cfg, s, a))
  {
    if a.Exec? {
      ExecSolvent(cfg, c, s);
    } else if a.Assign? {
      AssignSolvent(cfg, c, s, a.t);
    } else {
      QuietSolvent(cfg, c, s, a);
    }
  }

  /** The other steps give out no first number and move no money. */
  lemma QuietSolvent(cfg: Config, c: nat, s: State, a: Action)
    requires cfg.Valid() && Basic(cfg, c, s) && Single(cfg, s) && Solvent(cfg, c, s)
    requires Enabled(cfg, c, s, a) && !a.Exec? && !a.Assign? && !a.Resend?
    ensures Solvent(cfg, c, Do(cfg, s, a))
  {
    var s' := Do(cfg, s, a);
    OnlyExecMoves(cfg, c, s, a);
    QuietPending(cfg, c, s, a);
    QuietChecks(cfg, c, s, a);
  }

  lemma QuietPending(cfg: Config, c: nat, s: State, a: Action)
    requires Single(cfg, s) && Enabled(cfg, c, s, a) && !a.Exec? && !a.Assign? && !a.Resend?
    ensures var s' := Do(cfg, s, a);
            && |s'.jobs| == |s.jobs| && (forall d | d in s.dead :: d in s'.dead)
            && forall u | 0 <= u < |s.jobs| :: Pending(s', u) ==> Pending(s, u)
  {
    assert SingleOk(cfg.txs[a.t], s, a.t);
    assert forall d | d in s.dead :: d in Do(cfg, s, a).dead;
    assert forall u | 0 <= u < |s.jobs| :: Do(cfg, s, a).jobs[u].first == s.jobs[u].first;
  }

  lemma QuietChecks(cfg: Config, c: nat, s: State, a: Action)
    requires Single(cfg, s) && Solvent(cfg, c, s) && Enabled(cfg, c, s, a) && !a.Exec? && !a.Assign? && !a.Resend?
    requires Do(cfg, s, a).db.bal == s.db.bal
    ensures forall u | 0 <= u < |s.jobs| :: CheckHolds(cfg, c, Do(cfg, s, a), u)
  {
    QuietPending(cfg, c, s, a);
    forall u | 0 <= u < |s.jobs| ensures CheckHolds(cfg, c, Do(cfg, s, a), u) {
      assert CheckHolds(cfg, c, s, u);
    }
  }

  /***** Every replica, wherever its executor stands *****/

  ghost function BalancesAt(cfg: Config, c: nat, s: State, k: nat): map<int, int>
    requires c < |cfg.shards|
  {
    After(cfg.txs, Initial(cfg.shards[c]), s.log, k)
  }

  /** The leader's balances are those of the entries it has executed. */
  ghost predicate Replayed(cfg: Config, c: nat, s: State)
    requires c < |cfg.shards|
  {
    s.db.bal == BalancesAt(cfg, c, s, s.exec)
  }

  lemma ExecReplayed(cfg: Config, c: nat, s: State)
    requires cfg.Valid() && Basic(cfg, c, s) && Replayed(cfg, c, s) && Enabled(cfg, c, s, Exec)
    ensures Replayed(cfg, c, Do(cfg, s, Exec))
  {
    ExecEffect(cfg, c, s);
  }

  /** The leader's balances are those of the executed prefix, and no prefix overdraws an account. */
  ghost predicate Audited(cfg: Config, c: nat, s: State) {
    && c < |cfg.shards|
    && s.db.bal == BalancesAt(cfg, c, s, s.exec)
    && (forall k | 1 <= k <= s.exec :: Covers(cfg, c, s, k))
  }

  /** The entries below `k` overdraw no account. */
  ghost predicate Covers(cfg: Config, c: nat, s: State, k: nat)
    requires c < |cfg.shards|
  {
    NonNegative(BalancesAt(cfg, c, s, k))
  }

  lemma PrefixStays(cfg: Config, c: nat, s: State, a: Action, k: nat)
    requires cfg.Valid() && Basic(cfg, c, s) && Single(cfg, s) && Enabled(cfg, c, s, a) && !a.Resend? && k <= s.exec
    ensures BalancesAt(cfg, c, Do(cfg, s, a), k) == BalancesAt(cfg, c, s, k)
    ensures Covers(cfg, c, s, k) ==> Covers(cfg, c, Do(cfg, s, a), k)
  {
    var s' := Do(cfg, s, a);
    forall n | 1 <= n < k ensures n in s.log && n in s'.log && s'.log[n] == s.log[n] {
      EntryOwned(cfg, c, s, n);
      if a.Commit? {
        assert SideOk(cfg.txs[a.t], c, s, a.t) && SingleOk(cfg.txs[a.t], s, a.t);
      }
    }
    AfterFrame(cfg.txs, Initial(cfg.shards[c]), s.log, s'.log, k);
  }

  lemma ExecAudited(cfg: Config, c: nat, s: State)
    requires cfg.Valid() && Basic(cfg, c, s) && BalancesOk(cfg, c, s) && Single(cfg, s)
             && (s.dead == {} ==> LocksOk(cfg, s))
    requires Solvent(cfg, c, s) && Audited(cfg, c, s) && Enabled(cfg, c, s, Exec)
    ensures var s' := Do(cfg, s, Exec); s'.db.bal == BalancesAt(cfg, c, s', s'.exec) && Covers(cfg, c, s', s'.exec)
  {
    ExecEffect(cfg, c, s);
    ExecSolvent(cfg, c, s);
  }

  /** The balances after the executed entries do not change with the other steps. */
  lemma QuietAudited(cfg: Config, c: nat, s: State, a: Action)
    requires cfg.Valid() && Basic(cfg, c, s) && Single(cfg, s) && Audited(cfg, c, s)
    requires Enabled(cfg, c, s, a) && !a.Exec? && !a.Resend?
    ensures var s' := Do(cfg, s, a); s'.exec == s.exec && s'.db.bal == BalancesAt(cfg, c, s', s.exec)
  {
    OnlyExecMoves(cfg, c, s, a);
    PrefixStays(cfg, c, s, a, s.exec);
  }

  lemma PrefixesStay(cfg: Config, c: nat, s: State, a: Action)
    requires cfg.Valid() && Basic(cfg, c, s) && Single(cfg, s) && Audited(cfg, c, s) && Enabled(cfg, c, s, a)
             && !a.Resend?
    ensures forall k | 1 <= k <= s.exec :: Covers(cfg, c, Do(cfg, s, a), k)
  {
    var s' := Do(cfg, s, a);
    forall k | 1 <= k <= s.exec ensures Covers(cfg, c, s', k) {
      assert Covers(cfg, c, s, k);
      PrefixStays(cfg, c, s, a, k);
    }
  }

  lemma StepAudited(cfg: Config, c: nat, s: State, a: Action)
    requires cfg.Valid() && Basic(cfg, c, s) && BalancesOk(cfg, c, s) && Single(cfg, s)
             && (s.dead == {} ==> LocksOk(cfg, s))
    requires Solvent(cfg, c, s) && Audited(cfg, c, s) && Enabled(cfg, c, s, a) && !a.Resend?
    ensures Audited(cfg, c, Do(cfg, s, a))
  {
    PrefixesStay(cfg, c, s, a);
    if a.Exec? {
      ExecAudited(cfg, c, s);
    } else {
      QuietAudited(cfg, c, s, a);
    }
    AuditedIf(cfg, c, s.exec, Do(cfg, s, a));
  }

  lemma AuditedIf(cfg: Config, c: nat, exec: nat, s: State)
    requires c < |cfg.shards| && s.exec <= exec + 1 && s.db.bal == BalancesAt(cfg, c, s, s.exec)
    requires (forall k | 1 <= k <= exec :: Covers(cfg, c, s, k)) && (s.exec == exec + 1 ==> Covers(cfg, c, s, s.exec))
    ensures Audited(cfg, c, s)
  {
  }

  /** No prefix of the committed log overdraws an account, even beyond the leader's own executor:
      a replica that has all entries below `k` and executes them is never below zero. */
  lemma {:induction false} PrefixesSolvent(cfg: Config, c: nat, s: State, k: nat)
    requires cfg.Valid() && Basic(cfg, c, s) && BalancesOk(cfg, c, s) && Single(cfg, s)
             && (s.dead == {} ==> LocksOk(cfg, s))
    requires Solvent(cfg, c, s) && Audited(cfg, c, s)
    requires 1 <= k && forall n | 1 <= n < k :: n in s.log
    ensures NonNegative(BalancesAt(cfg, c, s, k))
    decreases k - s.exec
  {
    if s.exec < k {
      EntryOwned(cfg, c, s, s.exec);
      var s' := Do(cfg, s, Exec);
      StepBasic(cfg, c, s, Exec);
      StepBalances(cfg, c, s, Exec);
      StepSingle(cfg, c, s, Exec);
      StepLocks(cfg, c, s, Exec);
      ExecSolvent(cfg, c, s);
      StepAudited(cfg, c, s, Exec);
      PrefixesSolvent(cfg, c, s', k);
    } else {
      assert Covers(cfg, c, s, k);
    }
  }
}

/** One cluster as its leader sees it in one view: the requests it handles, the sequence numbers
    it gives out, the entries its consensus runs commit, and the executor behind them.

    A consensus run is one `Running` period that ends in `Commit` or `Fail`; timers and lost
    messages are the free choice between the two. */
module Cluster {
  import opened Transfers
  import opened Ledger

  /** Where the handler of one request stands: waiting for locks, holding them before its balance
      check, turned down by the check, past it, in the run numbered `n`, or after that run. */
  datatype Pc = Idle | Locked | Rejected | Checked | Running(st: Status, n: nat) | Done(st: Status, n: nat, ok: bool)

  /** `first` is the sequence number of the run that moves the money (0 before it has one) and
      `saved` says whether that run has committed. */
  datatype Side = Side(pc: Pc, first: nat, saved: bool)

  /** `dead` holds the numbers whose run ended without committing: the gaps of the log. */
  datatype State = State(db: Db, next: nat, log: map<nat, Entry>, exec: nat, dead: set<nat>, jobs: seq<Side>)

  datatype Action =
    | Acquire(t: nat)
    | Reject(t: nat)
    | Check(t: nat)
    | Assign(t: nat)
    | Start(t: nat, st: Status)
    | Commit(t: nat)
    | Fail(t: nat)
    | Exec
    | EraseWal(t: nat)
    | Resend(t: nat)

  function Init(cfg: Config, c: nat): State
    requires c < |cfg.shards|
  {
    State(Db(Initial(cfg.shards[c]), {}, map[]), 1, map[], 1, {}, seq(|cfg.txs|, _ => Side(Idle, 0, false)))
  }

  ghost predicate Enabled(cfg: Config, c: nat, s: State, a: Action) {
    match a
    case Exec =>
      s.exec in s.log && s.log[s.exec].t < |cfg.txs|
    case Acquire(t) =>
      t < |cfg.txs| && t < |s.jobs| && cfg.txs[t].Involves(c) && s.jobs[t].pc == Idle && Free(s.db, cfg.txs[t])
    case Reject(t) =>
      t < |cfg.txs| && t < |s.jobs| && s.jobs[t].pc == Locked && cfg.txs[t].clusterFrom == c && !Covered(cfg, s, t)
    case Check(t) =>
      t < |cfg.txs| && t < |s.jobs| && s.jobs[t].pc == Locked && (cfg.txs[t].clusterFrom == c ==> Covered(cfg, s, t))
    case Assign(t) =>
      t < |cfg.txs| && t < |s.jobs| && s.jobs[t].pc == Checked
    case Start(t, st) =>
      t < |cfg.txs| && t < |s.jobs| && MayStart(cfg.txs[t], c, s.jobs[t].pc, st)
    case Commit(t) =>
      t < |cfg.txs| && t < |s.jobs| && s.jobs[t].pc.Running?
    case Fail(t) =>
      t < |cfg.txs| && t < |s.jobs| && s.jobs[t].pc.Running?
    case EraseWal(t) =>
      t < |cfg.txs| && t < |s.jobs| && cfg.txs[t].clusterFrom == c && s.jobs[t].pc.Done? && s.jobs[t].pc.st == C
          && s.jobs[t].pc.ok
    case Resend(t) =>
      t < |cfg.txs| && t < |s.jobs| && !cfg.txs[t].Cross() && (s.jobs[t].pc.Done? || s.jobs[t].pc.Rejected?)
  }

  /** The balance check of the debited cluster. */
  predicate Covered(cfg: Config, s: State, t: nat)
    requires t < |cfg.txs|
  {
    cfg.txs[t].from in s.db.bal && s.db.bal[cfg.txs[t].from] >= cfg.txs[t].amount
  }

  /** When a cluster starts a second-phase run. The coordinator decides after its own prepare has
      committed. The participant commits after its prepare, again if an earlier try failed, and
      aborts only by itself, after its own prepare has failed. */
  predicate MayStart(tx: Transfer, c: nat, pc: Pc, st: Status) {
    && tx.Cross()
    && pc.Done?
    && match st
       case Plain => false
       case P => false
       case A => pc.st == P && tx.Involves(c) && pc.ok == (tx.clusterFrom == c)
       case C => (pc.st == P && pc.ok && tx.Involves(c)) || (pc.st == C && !pc.ok && tx.clusterTo == c)
  }

  function At(s: State, t: nat, side: Side): State
    requires t < |s.jobs|
  {
    s.(jobs := s.jobs[t := side])
  }

  function Do(cfg: Config, s: State, a: Action): State
    requires a.Exec? ==> s.exec in s.log && s.log[s.exec].t < |cfg.txs|
    requires !a.Exec? ==> a.t < |cfg.txs| && a.t < |s.jobs|
    requires a.Commit? || a.Fail? ==> s.jobs[a.t].pc.Running?
  {
    match a
    case Exec =>
      var e := s.log[s.exec];
      s.(db := Execute(s.db, cfg.txs[e.t], e.st), exec := s.exec + 1)
    case Acquire(t) =>
      At(s, t, s.jobs[t].(pc := Locked)).(db := Ledger.Acquire(s.db, cfg.txs[t]))
    case Reject(t) =>
      At(s, t, s.jobs[t].(pc := Rejected)).(db := Release(s.db, cfg.txs[t]))
    case Check(t) =>
      At(s, t, s.jobs[t].(pc := Checked))
    case Assign(t) =>
      var n := if s.jobs[t].first == 0 then s.next else s.jobs[t].first;
      At(s, t, s.jobs[t].(pc := Running(cfg.txs[t].FirstStatus(), n), first := n))
      .(next := if s.jobs[t].first == 0 then s.next + 1 else s.next)
    case Start(t, st) =>
      At(s, t, s.jobs[t].(pc := Running(st, s.next))).(next := s.next + 1)
    case Commit(t) =>
      var Running(st, n) := s.jobs[t].pc;
      At(s, t, s.jobs[t].(pc := Done(st, n, true), saved := s.jobs[t].saved || n == s.jobs[t].first))
      .(log := s.log[n := Entry(t, st)], db := Logged(s.db, cfg.txs[t], st), dead := s.dead - {n})
    case Fail(t) =>
      var Running(st, n) := s.jobs[t].pc;
      At(s, t, s.jobs[t].(pc := Done(st, n, false)))
      .(db := Release(s.db, cfg.txs[t]), dead := s.dead + (if n in s.log then {} else {n}))
    case EraseWal(t) =>
      s.(db := Ledger.EraseWal(s.db, cfg.txs[t].clientSeq))
    case Resend(t) =>
      At(s, t, s.jobs[t].(pc := Idle))
  }

  /***** What every step keeps *****/

  /** The sequence number `n` was given to this request. */
  predicate Owns(sd: Side, n: int) {
    n >= 1 && (sd.first == n || (sd.pc.Running? && sd.pc.n == n) || (sd.pc.Done? && sd.pc.n == n))
  }

  predicate Apart(sd: Side, other: Side, n: int) {
    !Owns(sd, n) || !Owns(other, n)
  }

  /** The prepare of `tx` committed in cluster `c` before a run of status `st` was started. */
  predicate Prepared(tx: Transfer, c: nat, st: Status) {
    st == C || tx.clusterFrom == c
  }

  ghost predicate SideOk(tx: Transfer, c: nat, s: State, t: nat)
    requires t < |s.jobs|
  {
    var sd := s.jobs[t];
    && sd.first < s.next
    && (sd.saved ==> sd.first in s.log && s.log[sd.first] == Entry(t, tx.FirstStatus()))
    && (!sd.saved ==> sd.first !in s.log)
    && (!tx.Involves(c) ==> sd == Side(Idle, 0, false))
    && match sd.pc
       case Running(st, n) =>
         && 1 <= n < s.next
         && (st == Plain || st == P ==> n == sd.first && st == tx.FirstStatus() && (tx.Cross() ==> !sd.saved))
         && (st == C || st == A ==> tx.Cross() && 1 <= sd.first < n && n !in s.log && sd.saved == Prepared(tx, c, st))
       case Done(st, n, ok) =>
         && 1 <= n < s.next
         && (st == Plain || st == P ==>
               n == sd.first && st == tx.FirstStatus() && (ok ==> sd.saved) && (tx.Cross() ==> sd.saved == ok))
         && (st == C || st == A ==> tx.Cross() && 1 <= sd.first < n && sd.saved == Prepared(tx, c, st))
         && (st == C || st == A ==> if ok then n in s.log && s.log[n] == Entry(t, st) else n !in s.log)
       case _ => tx.Cross() ==> sd.first == 0
  }

  /** Every log entry is the committed run of one request. */
  ghost predicate EntryOk(cfg: Config, s: State, n: nat)
    requires n in s.log
  {
    var e := s.log[n];
    && 1 <= n < s.next
    && e.t < |cfg.txs| && e.t < |s.jobs|
    && if e.st == Plain || e.st == P then s.jobs[e.t].first == n && s.jobs[e.t].saved
       && e.st == cfg.txs[e.t].FirstStatus()
       else s.jobs[e.t].pc == Done(e.st, n, true)
  }

  /** The write-ahead log holds the transfer of exactly the committed prepares, until it is erased
      after the coordinator's commit. */
  ghost predicate WalOk(tx: Transfer, s: State, t: nat)
    requires t < |s.jobs|
  {
    var sd := s.jobs[t];
    && (!sd.saved || !tx.Cross() ==> tx.clientSeq !in s.db.wal)
    && (sd.saved && tx.Cross() && !(sd.pc.Done? && sd.pc.st == C && sd.pc.ok) ==>
          tx.clientSeq in s.db.wal && s.db.wal[tx.clientSeq] == [tx])
  }

  ghost predicate Basic(cfg: Config, c: nat, s: State) {
    && |s.jobs| == |cfg.txs| && c < |cfg.shards|
    && 1 <= s.exec <= s.next
    && (forall n | 1 <= n < s.exec :: n in s.log)
    && (forall n | n in s.log :: EntryOk(cfg, s, n))
    && (forall n | n in s.dead :: 1 <= n < s.next)
    && (forall t | 0 <= t < |s.jobs| :: SideOk(cfg.txs[t], c, s, t))
    && (forall t | 0 <= t < |s.jobs| :: WalOk(cfg.txs[t], s, t))
    && (forall t, u, n | 0 <= t < |s.jobs| && 0 <= u < |s.jobs| && t != u :: Apart(s.jobs[t], s.jobs[u], n))
  }

  lemma InitBasic(cfg: Config, c: nat)
    requires c < |cfg.shards|
    ensures Basic(cfg, c, Init(cfg, c))
  {
  }

  /** A step that changes the job of one request, the log at most at that request's own numbers,
      and the write-ahead log at most at its own key. */
  ghost predicate Touches(cfg: Config, c: nat, s: State, t: nat, s': State) {
    && Frame(cfg, s, t, s')
    && (forall n | n in s'.log && Owns(s.jobs[t], n) :: EntryOk(cfg, s', n))
    && SideOk(cfg.txs[t], c, s', t)
    && WalOk(cfg.txs[t], s', t)
  }

  ghost predicate Frame(cfg: Config, s: State, t: nat, s': State) {
    && |s.jobs| == |s'.jobs| == |cfg.txs| && t < |s.jobs|
    && s.next <= s'.next && s.exec == s'.exec
    && (forall u | 0 <= u < |s.jobs| && u != t :: s'.jobs[u] == s.jobs[u])
    && (forall n | n in s.log :: n in s'.log)
    && (forall n | n in s'.log && !Owns(s.jobs[t], n) :: n in s.log && s'.log[n] == s.log[n])
    && (forall k | k != cfg.txs[t].clientSeq ::
          (k in s'.db.wal <==> k in s.db.wal) && (k in s.db.wal ==> s'.db.wal[k] == s.db.wal[k]))
    && (forall n | Owns(s'.jobs[t], n) :: n < s'.next && (Owns(s.jobs[t], n) || s.next <= n))
    && (forall n | n in s'.dead :: n in s.dead || Owns(s.jobs[t], n))
  }

  lemma OwnedBelowNext(cfg: Config, c: nat, s: State, t: nat, n: int)
    requires Basic(cfg, c, s) && t < |s.jobs| && Owns(s.jobs[t], n)
    ensures n < s.next
  {
    assert SideOk(cfg.txs[t], c, s, t);
  }

  lemma TouchKeepsSide(cfg: Config, c: nat, s: State, t: nat, s': State, u: nat)
    requires Basic(cfg, c, s) && Touches(cfg, c, s, t, s')
    requires u < |s.jobs| && u != t
    ensures SideOk(cfg.txs[u], c, s', u)
  {
    assert SideOk(cfg.txs[u], c, s, u);
    var sd := s.jobs[u];
    forall n | Owns(sd, n)
      ensures !Owns(s.jobs[t], n)
      ensures n in s'.log <==> n in s.log
      ensures n in s.log ==> s'.log[n] == s.log[n]
    {
      assert Apart(s.jobs[t], s.jobs[u], n);
    }
    assert sd.first >= 1 ==> Owns(sd, sd.first);
    assert sd.pc.Running? || sd.pc.Done? ==> Owns(sd, sd.pc.n);
    assert !Owns(s.jobs[t], 0);
    assert forall n | n in s.log :: EntryOk(cfg, s, n);
  }

  lemma EntryOwned(cfg: Config, c: nat, s: State, n: nat)
    requires Basic(cfg, c, s) && n in s.log
    ensures EntryOk(cfg, s, n) && Owns(s.jobs[s.log[n].t], n)
  {
    assert EntryOk(cfg, s, n);
  }

  lemma TouchKeepsEntry(cfg: Config, c: nat, s: State, t: nat, s': State, n: nat)
    requires Basic(cfg, c, s) && Touches(cfg, c, s, t, s') && n in s'.log
    ensures EntryOk(cfg, s', n)
  {
    if !Owns(s.jobs[t], n) {
      EntryOwned(cfg, c, s, n);
    }
  }

  lemma TouchKeepsDistinct(cfg: Config, c: nat, s: State, t: nat, s': State, u: nat, n: int)
    requires Basic(cfg, c, s) && Touches(cfg, c, s, t, s')
    requires u < |s.jobs| && u != t
    ensures Apart(s'.jobs[u], s'.jobs[t], n)
  {
    assert Apart(s.jobs[t], s.jobs[u], n);
    if Owns(s'.jobs[u], n) {
      OwnedBelowNext(cfg, c, s, u, n);
    }
  }

  lemma TouchKeepsBasic(cfg: Config, c: nat, s: State, t: nat, s': State)
    requires cfg.Valid() && Basic(cfg, c, s) && Touches(cfg, c, s, t, s')
    ensures Basic(cfg, c, s')
  {
    forall n | n in s'.log ensures EntryOk(cfg, s', n) {
      TouchKeepsEntry(cfg, c, s, t, s', n);
    }
    forall u | 0 <= u < |s'.jobs| ensures SideOk(cfg.txs[u], c, s', u) {
      if u != t {
        TouchKeepsSide(cfg, c, s, t, s', u);
      }
    }
    forall u | 0 <= u < |s'.jobs| ensures WalOk(cfg.txs[u], s', u) {
      if u != t {
        assert WalOk(cfg.txs[u], s, u);
        assert cfg.txs[u].clientSeq != cfg.txs[t].clientSeq;
      }
    }
    forall u, v, n | 0 <= u < |s'.jobs| && 0 <= v < |s'.jobs| && u != v ensures Apart(s'.jobs[u], s'.jobs[v], n) {
      if u == t {
        TouchKeepsDistinct(cfg, c, s, t, s', v, n);
      } else if v == t {
        TouchKeepsDistinct(cfg, c, s, t, s', u, n);
      }
    }
    forall n | n in s'.dead ensures 1 <= n < s'.next {
      if n !in s.dead {
        OwnedBelowNext(cfg, c, s, t, n);
      }
    }
  }

  lemma ExecBasic(cfg: Config, c: nat, s: State)
    requires cfg.Valid() && Basic(cfg, c, s) && Enabled(cfg, c, s, Exec)
    ensures Basic(cfg, c, Do(cfg, s, Exec))
  {
    var s' := Do(cfg, s, Exec);
    assert EntryOk(cfg, s, s.exec);
    assert s'.db.wal == s.db.wal;
    forall n | n in s'.log ensures EntryOk(cfg, s', n) {
      assert EntryOk(cfg, s, n);
    }
    forall u | 0 <= u < |s'.jobs| ensures SideOk(cfg.txs[u], c, s', u) && WalOk(cfg.txs[u], s', u) {
      assert SideOk(cfg.txs[u], c, s, u) && WalOk(cfg.txs[u], s, u);
    }
  }

  /** Committing a run stores the entry at a number that nobody else was given. */
  lemma CommitTouches(cfg: Config, c: nat, s: State, t: nat)
    requires cfg.Valid() && Basic(cfg, c, s) && Enabled(cfg, c, s, Commit(t))
    ensures Touches(cfg, c, s, t, Do(cfg, s, Commit(t)))
  {
    var s' := Do(cfg, s, Commit(t));
    var n := s.jobs[t].pc.n;
    assert SideOk(cfg.txs[t], c, s, t) && WalOk(cfg.txs[t], s, t);
    forall m | m in s'.log && Owns(s.jobs[t], m) ensures EntryOk(cfg, s', m) {
      if m != n {
        assert EntryOk(cfg, s, m);
      }
    }
  }

  lemma StepBasic(cfg: Config, c: nat, s: State, a: Action)
    requires cfg.Valid() && Basic(cfg, c, s) && Enabled(cfg, c, s, a)
    ensures Basic(cfg, c, Do(cfg, s, a))
  {
    if a.Exec? {
      ExecBasic(cfg, c, s);
    } else {
      if a.Commit? {
        CommitTouches(cfg, c, s, a.t);
      } else {
        QuietTouches(cfg, c, s, a);
      }
      TouchKeepsBasic(cfg, c, s, a.t, Do(cfg, s, a));
    }
  }

  /** The other steps of a request leave the log alone. */
  lemma QuietTouches(cfg: Config, c: nat, s: State, a: Action)
    requires cfg.Valid() && Basic(cfg, c, s) && Enabled(cfg, c, s, a) && !a.Exec? && !a.Commit?
    ensures Touches(cfg, c, s, a.t, Do(cfg, s, a))
  {
    var t, s' := a.t, Do(cfg, s, a);
    QuietFrame(cfg, c, s, a);
    forall n | n in s'.log && Owns(s.jobs[t], n) ensures EntryOk(cfg, s', n) {
      QuietKeepsEntry(cfg, c, s, a, n);
    }
    QuietKeepsSide(cfg, c, s, a);
  }

  lemma QuietFrame(cfg: Config, c: nat, s: State, a: Action)
    requires cfg.Valid() && Basic(cfg, c, s) && Enabled(cfg, c, s, a) && !a.Exec? && !a.Commit?
    ensures Frame(cfg, s, a.t, Do(cfg, s, a)) && Do(cfg, s, a).log == s.log
  {
    if a.Assign? || a.Start? {
      NumberFrame(cfg, c, s, a);
    } else {
      assert SideOk(cfg.txs[a.t], c, s, a.t);
      LocalFrame(cfg, c, s, a);
    }
  }

  lemma LocalFrame(cfg: Config, c: nat, s: State, a: Action)
    requires Enabled(cfg, c, s, a) && !a.Exec? && !a.Commit? && !a.Assign? && !a.Start?
    requires |s.jobs| == |cfg.txs| && SideOk(cfg.txs[a.t], c, s, a.t)
    ensures Frame(cfg, s, a.t, Do(cfg, s, a)) && Do(cfg, s, a).log == s.log
  {
  }

  lemma NumberFrame(cfg: Config, c: nat, s: State, a: Action)
    requires cfg.Valid() && Basic(cfg, c, s) && Enabled(cfg, c, s, a) && (a.Assign? || a.Start?)
    ensures Frame(cfg, s, a.t, Do(cfg, s, a)) && Do(cfg, s, a).log == s.log
  {
    assert SideOk(cfg.txs[a.t], c, s, a.t);
  }

  lemma QuietKeepsEntry(cfg: Config, c: nat, s: State, a: Action, n: nat)
    requires cfg.Valid() && Basic(cfg, c, s) && Enabled(cfg, c, s, a) && !a.Exec? && !a.Commit?
    requires n in s.log
    ensures EntryOk(cfg, Do(cfg, s, a), n)
  {
    assert EntryOk(cfg, s, n);
    assert SideOk(cfg.txs[a.t], c, s, a.t);
  }

  lemma QuietKeepsSide(cfg: Config, c: nat, s: State, a: Action)
    requires cfg.Valid() && Basic(cfg, c, s) && Enabled(cfg, c, s, a) && !a.Exec? && !a.Commit?
    ensures SideOk(cfg.txs[a.t], c, Do(cfg, s, a), a.t)
    ensures WalOk(cfg.txs[a.t], Do(cfg, s, a), a.t)
  {
    assert SideOk(cfg.txs[a.t], c, s, a.t) && WalOk(cfg.txs[a.t], s, a.t);
    assert forall n | n in s.log :: EntryOk(cfg, s, n);
  }

  /** What a step leaves alone: the other requests, and, unless it executes, the executor. */
  lemma OtherJobs(cfg: Config, c: nat, s: State, a: Action, u: nat)
    requires Enabled(cfg, c, s, a) && !a.Exec? && u < |s.jobs|
    ensures var s' := Do(cfg, s, a);
            && |s'.jobs| == |s.jobs| && s'.exec == s.exec && s'.next >= s.next
            && (u != a.t ==> s'.jobs[u] == s.jobs[u])
  {
  }

  /***** Executing on *****/

  /** The state after executing the entries below `k`. */
  ghost function ExecTo(cfg: Config, s: State, k: nat): State
    decreases k - s.exec
  {
    if s.exec < k && s.exec in s.log && s.log[s.exec].t < |cfg.txs| then ExecTo(cfg, Do(cfg, s, Exec), k) else s
  }

  lemma {:induction false} ExecToReaches(cfg: Config, s: State, k: nat)
    requires s.exec <= k && forall n | s.exec <= n < k :: n in s.log && s.log[n].t < |cfg.txs|
    ensures var s' := ExecTo(cfg, s, k); s'.exec == k && s'.log == s.log && s'.jobs == s.jobs
    decreases k - s.exec
  {
    if s.exec < k {
      ExecToReaches(cfg, Do(cfg, s, Exec), k);
    }
  }

  /** What the executor keeps holds after all the entries. */
  lemma {:induction false} WhileExecuting(cfg: Config, c: nat, s: State, k: nat, p: State -> bool)
    requires p(s) && forall x | p(x) && Enabled(cfg, c, x, Exec) :: p(Do(cfg, x, Exec))
    ensures p(ExecTo(cfg, s, k))
    decreases k - s.exec
  {
    if s.exec < k && s.exec in s.log && s.log[s.exec].t < |cfg.txs| {
      assert Enabled(cfg, c, s, Exec);
      WhileExecuting(cfg, c, Do(cfg, s, Exec), k, p);
    }
  }
}

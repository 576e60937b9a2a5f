/** Why the failure of a commit or abort run has to be harmless: when the locks it releases are still
    needed, a resubmitted request passes its balance check on money that another committed request is
    going to take, and the run goes on to a negative balance. */
module Overdraft {
  import opened Transfers
  import opened Ledger
  import opened Replay
  import opened Solvency
  import opened TwoPhase
  import Cluster
  import Resubmission

  /***** Continuing a run *****/

  /** The last state of a run. */
  function End(r: Run): State
    requires |r.states| == |r.moves| + 1
  {
    r.states[|r.moves|]
  }

  ghost predicate Continues(cfg: Config, r: Run, r': Run) {
    r'.Of(cfg) && |r.states| == |r.moves| + 1 && r.states <= r'.states && r.moves <= r'.moves
  }

  /** The run continues and no further consensus run fails. */
  ghost predicate Onward(cfg: Config, r: Run, r': Run) {
    Continues(cfg, r, r') && forall i | |r.moves| <= i < |r'.moves| :: !r'.moves[i].a.Fail?
  }

  lemma OnwardHarmless(cfg: Config, r: Run, r': Run)
    requires Onward(cfg, r, r') && Resubmission.HarmlessRun(cfg, r)
    ensures Resubmission.HarmlessRun(cfg, r')
  {
    forall i | 0 <= i < |r'.moves| ensures Resubmission.HarmlessStep(cfg, r'.states[i], r'.moves[i].c, r'.moves[i].a) {
      if i < |r.moves| {
        assert r'.states[i] == r.states[i] && r'.moves[i] == r.moves[i];
      }
    }
  }

  /** One more step of a run. */
  lemma Take(cfg: Config, r: Run, c: nat, a: Cluster.Action) returns (r': Run)
    requires r.Of(cfg) && c < |End(r).cl| && Cluster.Enabled(cfg, c, End(r).cl[c], a) && Guard(cfg, End(r), c, a)
    ensures Continues(cfg, r, r') && |r'.moves| == |r.moves| + 1 && r'.moves[|r.moves|] == Move(c, a)
    ensures !a.Fail? ==> Onward(cfg, r, r')
    ensures End(r').cl == End(r).cl[c := Cluster.Do(cfg, End(r).cl[c], a)]
  {
    var s := End(r);
    var s' := State(s.cl[c := Cluster.Do(cfg, s.cl[c], a)], s.order + Verdict(cfg, s, c, a));
    r' := Run(r.states + [s'], r.moves + [Move(c, a)]);
    forall i | 0 <= i < |r'.moves| ensures Step(cfg, r'.states[i], r'.moves[i].c, r'.moves[i].a, r'.states[i + 1]) {
      if i < |r.moves| {
        assert Step(cfg, r.states[i], r.moves[i].c, r.moves[i].a, r.states[i + 1]);
      }
    }
  }

  /** The executor of cluster `c` runs up to `k`. */
  lemma {:induction false} Execute(cfg: Config, r: Run, c: nat, k: nat) returns (r': Run)
    requires cfg.Valid() && r.Of(cfg) && c < |End(r).cl| && End(r).cl[c].exec <= k
    requires forall n | End(r).cl[c].exec <= n < k :: n in End(r).cl[c].log && End(r).cl[c].log[n].t < |cfg.txs|
    ensures Onward(cfg, r, r') && c < |End(r').cl|
    ensures End(r').cl[c].exec == k && End(r').cl[c].log == End(r).cl[c].log
    decreases k - End(r).cl[c].exec
  {
    if End(r).cl[c].exec < k {
      r' := Take(cfg, r, c, Cluster.Exec);
      r' := Execute(cfg, r', c, k);
    } else {
      r' := r;
    }
  }

  /***** Two debits on the same money *****/

  /** What the log of the cluster becomes when `v` fills its gap and the first run of `w` commits. */
  function Filled(cfg: Config, s: Cluster.State, w: nat, v: nat): map<nat, Entry>
    requires w < |s.jobs| == |cfg.txs| && v < |s.jobs|
  {
    s.log[s.jobs[v].first := Entry(v, Plain)][s.jobs[w].first := Entry(w, cfg.txs[w].FirstStatus())]
  }

  /** Request `w` has had its check and its debit is due; `v` can be resubmitted, passes its check now,
      and fills a gap; the executor can then reach `k`, and by then the account is overdrawn. */
  ghost predicate Collides(cfg: Config, c: nat, s: Cluster.State, w: nat, v: nat, k: nat) {
    && c < |cfg.shards| && |s.jobs| == |cfg.txs| && w < |s.jobs| && v < |s.jobs| && w != v
    && !cfg.txs[v].Cross() && cfg.txs[v].clusterFrom == c && cfg.txs[w].Involves(c)
    && (s.jobs[v].pc.Done? || s.jobs[v].pc.Rejected?) && s.jobs[v].first in s.dead
    && Free(s.db, cfg.txs[v]) && Cluster.Covered(cfg, s, v)
    && Resubmission.Due(s.jobs[w], s.exec)
    && s.exec <= k && (forall n | s.exec <= n < k :: n in Filled(cfg, s, w, v))
    && !NonNegative(After(cfg.txs, Initial(cfg.shards[c]), Filled(cfg, s, w, v), k))
  }

  /** `v` is submitted again, takes its locks, passes its check and commits at its old number. */
  lemma Resubmit(cfg: Config, r: Run, c: nat, v: nat) returns (r': Run)
    requires cfg.Valid() && r.Of(cfg) && c < |End(r).cl| && v < |cfg.txs| && !cfg.txs[v].Cross()
             && cfg.txs[v].clusterFrom == c
    requires v < |End(r).cl[c].jobs| && (End(r).cl[c].jobs[v].pc.Done? || End(r).cl[c].jobs[v].pc.Rejected?)
    requires End(r).cl[c].jobs[v].first != 0 && Free(End(r).cl[c].db, cfg.txs[v])
             && Cluster.Covered(cfg, End(r).cl[c], v)
    ensures Onward(cfg, r, r') && c < |End(r').cl|
    ensures var s, s' := End(r).cl[c], End(r').cl[c];
            && s'.log == s.log[s.jobs[v].first := Entry(v, Plain)] && s'.exec == s.exec && |s'.jobs| == |s.jobs|
            && forall u | 0 <= u < |s.jobs| && u != v :: s'.jobs[u] == s.jobs[u]
  {
    r' := Relocked(cfg, r, c, v);
    r' := Take(cfg, r', c, Cluster.Check(v));
    r' := Take(cfg, r', c, Cluster.Assign(v));
    r' := Take(cfg, r', c, Cluster.Commit(v));
  }

  lemma Relocked(cfg: Config, r: Run, c: nat, v: nat) returns (r': Run)
    requires cfg.Valid() && r.Of(cfg) && c < |End(r).cl| && v < |cfg.txs| && !cfg.txs[v].Cross()
             && cfg.txs[v].clusterFrom == c
    requires v < |End(r).cl[c].jobs| && (End(r).cl[c].jobs[v].pc.Done? || End(r).cl[c].jobs[v].pc.Rejected?)
    requires Free(End(r).cl[c].db, cfg.txs[v])
    ensures Onward(cfg, r, r') && c < |End(r').cl|
    ensures var s := End(r).cl[c];
            End(r').cl[c] == s.(db := Ledger.Acquire(s.db, cfg.txs[v]),
                                jobs := s.jobs[v := s.jobs[v].(pc := Cluster.Locked)])
  {
    r' := Take(cfg, r, c, Cluster.Resend(v));
    r' := Take(cfg, r', c, Cluster.Acquire(v));
  }

  /** Both first runs are committed. */
  lemma FillBoth(cfg: Config, r: Run, c: nat, w: nat, v: nat, k: nat) returns (r': Run)
    requires cfg.Valid() && r.Of(cfg) && c < |End(r).cl| && Collides(cfg, c, End(r).cl[c], w, v, k)
    ensures Onward(cfg, r, r') && c < |End(r').cl|
    ensures End(r').cl[c].log == Filled(cfg, End(r).cl[c], w, v) && End(r').cl[c].exec == End(r).cl[c].exec
  {
    var s := End(r).cl[c];
    CollideApart(cfg, r, c, w, v, k);
    r' := Resubmit(cfg, r, c, v);
    if s.jobs[w].pc.Running? && s.jobs[w].pc.n == s.jobs[w].first {
      r' := Take(cfg, r', c, Cluster.Commit(w));
    }
  }

  lemma CollideApart(cfg: Config, r: Run, c: nat, w: nat, v: nat, k: nat)
    requires cfg.Valid() && r.Of(cfg) && c < |End(r).cl| && Collides(cfg, c, End(r).cl[c], w, v, k)
    ensures var s := End(r).cl[c];
            && s.jobs[v].first != 0 && s.jobs[w].first != s.jobs[v].first
            && (if s.jobs[w].pc.Running? && s.jobs[w].pc.n == s.jobs[w].first
                then s.jobs[w].pc.st == cfg.txs[w].FirstStatus()
                else s.jobs[w].first in s.log && s.log[s.jobs[w].first] == Entry(w, cfg.txs[w].FirstStatus()))
  {
    RunCore(cfg, r, |r.moves|);
    var s := End(r).cl[c];
    assert Cluster.SideOk(cfg.txs[w], c, s, w) && Cluster.SideOk(cfg.txs[v], c, s, v);
    assert Cluster.Apart(s.jobs[w], s.jobs[v], s.jobs[v].first);
  }

  /** From every reachable state with such a pair of requests, the run goes on to a negative balance. */
  lemma CollisionOverdraws(cfg: Config, r: Run, c: nat, w: nat, v: nat, k: nat) returns (r': Run)
    requires cfg.Valid() && r.Of(cfg) && c < |End(r).cl| && Collides(cfg, c, End(r).cl[c], w, v, k)
    ensures Onward(cfg, r, r') && c < |End(r').cl| == |cfg.shards| && !NonNegative(End(r').cl[c].db.bal)
  {
    r' := FillBoth(cfg, r, c, w, v, k);
    r' := ExecuteAll(cfg, r', c, k);
    RunCore(cfg, r', |r'.moves|);
  }

  /** Executing on gives the balances of the log. */
  lemma ExecuteAll(cfg: Config, r: Run, c: nat, k: nat) returns (r': Run)
    requires cfg.Valid() && r.Of(cfg) && c < |End(r).cl| && c < |cfg.shards| && End(r).cl[c].exec <= k
    requires forall n | End(r).cl[c].exec <= n < k :: n in End(r).cl[c].log
    ensures Onward(cfg, r, r') && c < |End(r').cl|
    ensures End(r').cl[c].db.bal == After(cfg.txs, Initial(cfg.shards[c]), End(r).cl[c].log, k)
  {
    RunCore(cfg, r, |r.moves|);
    forall n | End(r).cl[c].exec <= n < k ensures End(r).cl[c].log[n].t < |cfg.txs| {
      Cluster.EntryOwned(cfg, c, End(r).cl[c], n);
    }
    r' := Execute(cfg, r, c, k);
    RunCore(cfg, r', |r'.moves|);
    assert Replayed(cfg, c, End(r').cl[c]);
  }

  /** A failure of a commit or abort run that lets two debits collide is real harm: it is not harmless in
      the sense of `Resubmission.Harmless`, and the run goes on to a negative balance. */
  lemma HarmOverdraws(cfg: Config, r: Run, c: nat, t: nat, w: nat, v: nat, k: nat) returns (r': Run)
    requires cfg.Valid() && r.Of(cfg) && Resubmission.HarmlessRun(cfg, r) && c < |End(r).cl|
    requires Cluster.Enabled(cfg, c, End(r).cl[c], Cluster.Fail(t))
    requires Collides(cfg, c, Cluster.Do(cfg, End(r).cl[c], Cluster.Fail(t)), w, v, k)
    ensures !Resubmission.Harmless(cfg, c, End(r).cl[c], Cluster.Fail(t))
    ensures Continues(cfg, r, r') && |r'.moves| > |r.moves| && r'.moves[|r.moves|] == Move(c, Cluster.Fail(t))
    ensures c < |End(r').cl| == |cfg.shards| && !NonNegative(End(r').cl[c].db.bal)
  {
    var failed := Take(cfg, r, c, Cluster.Fail(t));
    r' := CollisionOverdraws(cfg, failed, c, w, v, k);
    if Resubmission.Harmless(cfg, c, End(r).cl[c], Cluster.Fail(t)) {
      assert Resubmission.HarmlessRun(cfg, failed);
      SoundDoesNotCollide(cfg, failed, c, w, v, k);
    }
  }

  /** In a run of harmless steps, no two debits collide. */
  lemma SoundDoesNotCollide(cfg: Config, r: Run, c: nat, w: nat, v: nat, k: nat)
    requires cfg.Valid() && r.Of(cfg) && Resubmission.HarmlessRun(cfg, r) && c < |End(r).cl|
    ensures !Collides(cfg, c, End(r).cl[c], w, v, k)
  {
    if Collides(cfg, c, End(r).cl[c], w, v, k) {
      var r' := CollisionOverdraws(cfg, r, c, w, v, k);
      OnwardHarmless(cfg, r, r');
      RunCore(cfg, r', |r'.moves|);
      Resubmission.NeverNegativeResubmitted(cfg, r', |r'.moves|, c, 1);
    }
  }

  /***** Two runs that end below zero *****/

  /** What the examples need to know of the end of a run. */
  ghost predicate Shows(cfg: Config, r: Run, s: Cluster.State, other: Cluster.State) {
    r.Of(cfg) && Resubmission.HarmlessRun(cfg, r) && End(r).cl == [s, other]
  }

  /** A step that is no failure of a commit or abort run keeps the run harmless. */
  lemma TakeHarmless(cfg: Config, r: Run, c: nat, a: Cluster.Action) returns (r': Run)
    requires r.Of(cfg) && c < |End(r).cl| && Cluster.Enabled(cfg, c, End(r).cl[c], a) && Guard(cfg, End(r), c, a)
    requires Resubmission.HarmlessRun(cfg, r)
    requires a.Fail? ==> End(r).cl[c].jobs[a.t].pc.st == Plain || End(r).cl[c].jobs[a.t].pc.st == P
    ensures r'.Of(cfg) && Resubmission.HarmlessRun(cfg, r')
    ensures End(r').cl == End(r).cl[c := Cluster.Do(cfg, End(r).cl[c], a)]
  {
    r' := Take(cfg, r, c, a);
    forall i | 0 <= i < |r'.moves| ensures Resubmission.HarmlessStep(cfg, r'.states[i], r'.moves[i].c, r'.moves[i].a) {
      if i < |r.moves| {
        assert r'.states[i] == r.states[i] && r'.moves[i] == r.moves[i];
      }
    }
  }

  /** A cluster after the first run of `t`, with all that comes before it. */
  function Ran(cfg: Config, s: Cluster.State, t: nat, ok: bool): Cluster.State
    requires t < |cfg.txs| == |s.jobs|
  {
    var st, n := cfg.txs[t].FirstStatus(), s.next;
    var jobs := s.jobs[t := Cluster.Side(Cluster.Done(st, n, ok), n, ok)];
    if ok then Cluster.State(Logged(Ledger.Acquire(s.db, cfg.txs[t]), cfg.txs[t], st), n + 1, s.log[n := Entry(t, st)],
                             s.exec, s.dead - {n}, jobs)
    else Cluster.State(Release(Ledger.Acquire(s.db, cfg.txs[t]), cfg.txs[t]), n + 1, s.log, s.exec, s.dead + {n}, jobs)
  }

  lemma FirstRun(cfg: Config, r: Run, c: nat, t: nat, ok: bool) returns (r': Run)
    requires r.Of(cfg) && Resubmission.HarmlessRun(cfg, r) && c < |End(r).cl| && t < |cfg.txs| == |End(r).cl[c].jobs|
    requires cfg.txs[t].Involves(c) && End(r).cl[c].jobs[t] == Cluster.Side(Cluster.Idle, 0, false)
             && Free(End(r).cl[c].db, cfg.txs[t])
    requires End(r).cl[c].next != 0 && End(r).cl[c].next !in End(r).cl[c].log
    requires cfg.txs[t].clusterFrom == c ==> Cluster.Covered(cfg, End(r).cl[c], t)
    requires Guard(cfg, End(r), c, Cluster.Acquire(t))
    ensures r'.Of(cfg) && Resubmission.HarmlessRun(cfg, r')
    ensures End(r').cl == End(r).cl[c := Ran(cfg, End(r).cl[c], t, ok)]
  {
    r' := Begun(cfg, r, c, t);
    r' := TakeHarmless(cfg, r', c, if ok then Cluster.Commit(t) else Cluster.Fail(t));
    assert End(r').cl[c].jobs == Ran(cfg, End(r).cl[c], t, ok).jobs;
  }

  /** The request is past its locks and its check, and its first run is under way. */
  lemma Begun(cfg: Config, r: Run, c: nat, t: nat) returns (r': Run)
    requires r.Of(cfg) && Resubmission.HarmlessRun(cfg, r) && c < |End(r).cl| && t < |cfg.txs| == |End(r).cl[c].jobs|
    requires cfg.txs[t].Involves(c) && End(r).cl[c].jobs[t] == Cluster.Side(Cluster.Idle, 0, false)
             && Free(End(r).cl[c].db, cfg.txs[t])
    requires End(r).cl[c].next != 0 && (cfg.txs[t].clusterFrom == c ==> Cluster.Covered(cfg, End(r).cl[c], t))
    requires Guard(cfg, End(r), c, Cluster.Acquire(t))
    ensures r'.Of(cfg) && Resubmission.HarmlessRun(cfg, r')
    ensures var s := End(r).cl[c];
            End(r').cl == End(r).cl[c := s.(db := Ledger.Acquire(s.db, cfg.txs[t]), next := s.next + 1,
                                            jobs := s.jobs[t := Cluster.Side(Cluster.Running(cfg.txs[t].FirstStatus(),
                                                                                             s.next), s.next, false)])]
  {
    r' := TakeHarmless(cfg, r, c, Cluster.Acquire(t));
    r' := TakeHarmless(cfg, r', c, Cluster.Check(t));
    r' := TakeHarmless(cfg, r', c, Cluster.Assign(t));
    ghost var s := End(r).cl[c];
    assert End(r').cl[c].jobs == s.jobs[t := Cluster.Side(Cluster.Running(cfg.txs[t].FirstStatus(), s.next), s.next,
                                                          false)];
  }

  const GAP := Cluster.Side(Cluster.Done(Plain, 1, false), 1, false)
  const IDLE := Cluster.Side(Cluster.Idle, 0, false)

  /** Request 0 moves 8 from account 0 to account 1 inside the first cluster, request 1 moves 8 from
      account 0 to account 2 of the second cluster. Account 0 holds 10. */
  const DEBITS := Config([Transfer(0, 1, 8, 0, 0, 1), Transfer(0, 2, 8, 0, 1, 2)], [Shard(0, 1), Shard(2, 2)])

  function DebitState(jobs: seq<Cluster.Side>, locks: set<int>, wal: map<int, seq<Transfer>>, next: nat,
                      log: map<nat, Entry>): Cluster.State {
    Cluster.State(Db(Initial(Shard(0, 1)), locks, wal), next, log, 1, {1}, jobs)
  }

  lemma DebitsValid()
    ensures DEBITS.Valid()
  {
  }

  /** Request 0 leaves a gap. */
  lemma DebitGap() returns (r: Run)
    ensures Shows(DEBITS, r, DebitState([GAP, IDLE], {}, map[], 2, map[]), Cluster.Init(DEBITS, 1))
  {
    r := Run([Init(DEBITS)], []);
    r := FirstRun(DEBITS, r, 0, 0, false);
    assert End(r).cl[0].db.locks == {} && End(r).cl[0].jobs == [GAP, IDLE] && End(r).cl[0].dead == {1};
    assert End(r).cl == [DebitState([GAP, IDLE], {}, map[], 2, map[]), Cluster.Init(DEBITS, 1)];
  }

  const PREPARED := Cluster.Side(Cluster.Done(P, 2, true), 2, true)

  /** The prepare of request 1 commits above the gap. */
  lemma PrepareAboveGap() returns (r: Run)
    ensures Shows(DEBITS, r, DebitState([GAP, PREPARED], {0, 2}, map[2 := [DEBITS.txs[1]]], 3, map[2 := Entry(1, P)]),
                  Cluster.Init(DEBITS, 1))
  {
    r := DebitGap();
    r := FirstRun(DEBITS, r, 0, 1, true);
    assert End(r).cl[0].db.locks == {0, 2} && End(r).cl[0].dead == {1} && End(r).cl[0].jobs == [GAP, PREPARED];
    var none: seq<Transfer> := [];
    assert none + [DEBITS.txs[1]] == [DEBITS.txs[1]];
    assert End(r).cl[0] == DebitState([GAP, PREPARED], {0, 2}, map[2 := [DEBITS.txs[1]]], 3, map[2 := Entry(1, P)]);
  }

  /** The participant prepares, and the coordinator's commit run is under way. */
  lemma CommitUnderWay() returns (r: Run)
    ensures r.Of(DEBITS) && Resubmission.HarmlessRun(DEBITS, r) && |End(r).cl| == 2
    ensures End(r).cl[0] == DebitState([GAP, Cluster.Side(Cluster.Running(C, 3), 2, true)], {0, 2},
                                       map[2 := [DEBITS.txs[1]]], 4, map[2 := Entry(1, P)])
  {
    r := PrepareAboveGap();
    r := FirstRun(DEBITS, r, 1, 1, true);
    r := TakeHarmless(DEBITS, r, 0, Cluster.Start(1, C));
  }

  /** The commit run of the coordinator fails, which releases the lock of account 0 while the debit of
      request 1 waits behind the gap of request 0. */
  lemma Overdrawn() returns (r: Run)
    ensures DEBITS.Valid() && r.Of(DEBITS) && |End(r).cl| == 2
    ensures !NonNegative(End(r).cl[0].db.bal)
  {
    r := CommitUnderWay();
    ExposedCollides(End(r).cl[0]);
    DebitsValid();
    r := HarmOverdraws(DEBITS, r, 0, 1, 1, 0, 3);
  }

  lemma ExposedCollides(s: Cluster.State)
    requires s == DebitState([GAP, Cluster.Side(Cluster.Running(C, 3), 2, true)], {0, 2}, map[2 := [DEBITS.txs[1]]], 4,
                             map[2 := Entry(1, P)])
    ensures Collides(DEBITS, 0, Cluster.Do(DEBITS, s, Cluster.Fail(1)), 1, 0, 3)
  {
    var s' := Cluster.Do(DEBITS, s, Cluster.Fail(1));
    assert Filled(DEBITS, s', 1, 0) == map[1 := Entry(0, Plain), 2 := Entry(1, P)];
    TwoDebits(DEBITS.txs, Initial(Shard(0, 1)), Filled(DEBITS, s', 1, 0), 0);
  }

  /** The first two entries of the log both debit 8 from an account that holds 10. */
  lemma TwoDebits(txs: seq<Transfer>, init: map<int, int>, log: map<nat, Entry>, x: int)
    requires x in init && init[x] == 10 && 1 in log && 2 in log && log[1].t < |txs| && log[2].t < |txs|
    requires (log[1].st == Plain || log[1].st == P) && (log[2].st == Plain || log[2].st == P)
    requires Delta(txs[log[1].t], x) == Delta(txs[log[2].t], x) == -8
    ensures !NonNegative(After(txs, init, log, 3))
  {
    assert After(txs, init, log, 1) == init;
    assert After(txs, init, log, 2) == Effect(txs, log, 1, init) == Apply(init, txs[log[1].t]);
    assert After(txs, init, log, 3) == Effect(txs, log, 2, After(txs, init, log, 2)) ==
           Apply(Apply(init, txs[log[1].t]), txs[log[2].t]);
    assert After(txs, init, log, 3)[x] == -6;
  }

  /** Requests 0 and 1 move 8 from account 0 to accounts 1 and 2 of the same cluster; request 2 moves 1
      from account 3 of the second cluster to account 0. */
  const CREDIT := Config([Transfer(0, 1, 8, 0, 0, 1), Transfer(0, 2, 8, 0, 0, 2), Transfer(3, 0, 1, 1, 0, 3)],
                         [Shard(0, 2), Shard(3, 3)])

  const SECOND_GAP := Cluster.Side(Cluster.Done(Plain, 2, false), 2, false)

  function CreditState(jobs: seq<Cluster.Side>, locks: set<int>, next: nat, dead: set<nat>): Cluster.State {
    Cluster.State(Db(Initial(Shard(0, 2)), locks, map[]), next, map[], 1, dead, jobs)
  }

  lemma CreditValid()
    ensures CREDIT.Valid()
  {
  }

  /** Requests 0 and 1 leave gaps. */
  lemma TwoGaps() returns (r: Run)
    ensures Shows(CREDIT, r, CreditState([GAP, SECOND_GAP, IDLE], {}, 3, {1, 2}), Cluster.Init(CREDIT, 1))
  {
    r := Run([Init(CREDIT)], []);
    r := FirstRun(CREDIT, r, 0, 0, false);
    r := FirstRun(CREDIT, r, 0, 1, false);
    assert End(r).cl[0].db.locks == {} && End(r).cl[0].dead == {1, 2} && End(r).cl[0].jobs == [GAP, SECOND_GAP, IDLE];
    assert End(r).cl == [CreditState([GAP, SECOND_GAP, IDLE], {}, 3, {1, 2}), Cluster.Init(CREDIT, 1)];
  }

  /** The first cluster's prepare of the credit fails. */
  lemma CreditPrepareFails() returns (r: Run)
    ensures r.Of(CREDIT) && Resubmission.HarmlessRun(CREDIT, r) && |End(r).cl| == 2
    ensures End(r).cl[0] == CreditState([GAP, SECOND_GAP, Cluster.Side(Cluster.Done(P, 3, false), 3, false)], {}, 4,
                                        {1, 2, 3})
  {
    r := TwoGaps();
    r := FirstRun(CREDIT, r, 1, 2, true);
    r := FirstRun(CREDIT, r, 0, 2, false);
    assert End(r).cl[0].db.locks == {} && End(r).cl[0].dead == {1, 2, 3};
  }

  /** Request 0 is resubmitted and runs again, while the participant aborts the credit. */
  lemma AbortUnderWay() returns (r: Run)
    ensures r.Of(CREDIT) && Resubmission.HarmlessRun(CREDIT, r) && |End(r).cl| == 2
    ensures End(r).cl[0] == CreditState([Cluster.Side(Cluster.Running(Plain, 1), 1, false), SECOND_GAP,
                                         Cluster.Side(Cluster.Running(A, 4), 3, false)],
                                        {0, 1}, 5, {1, 2, 3})
  {
    r := CreditPrepareFails();
    r := TakeHarmless(CREDIT, r, 0, Cluster.Resend(0));
    r := TakeHarmless(CREDIT, r, 0, Cluster.Acquire(0));
    r := TakeHarmless(CREDIT, r, 0, Cluster.Check(0));
    r := TakeHarmless(CREDIT, r, 0, Cluster.Assign(0));
    r := TakeHarmless(CREDIT, r, 0, Cluster.Start(2, A));
    assert End(r).cl[0].db.locks == {0, 1};
  }

  /** The abort run of a participant fails, which releases the lock of account 0 that meanwhile belongs
      to request 0: also at a participant such a failure can end in a negative balance. */
  lemma OverdrawnAtParticipant() returns (r: Run)
    ensures CREDIT.Valid() && r.Of(CREDIT) && |End(r).cl| == 2
    ensures !NonNegative(End(r).cl[0].db.bal)
  {
    r := AbortUnderWay();
    StolenCollides(End(r).cl[0]);
    CreditValid();
    r := HarmOverdraws(CREDIT, r, 0, 2, 0, 1, 3);
  }

  lemma StolenCollides(s: Cluster.State)
    requires s == CreditState([Cluster.Side(Cluster.Running(Plain, 1), 1, false), SECOND_GAP,
                               Cluster.Side(Cluster.Running(A, 4), 3, false)],
                              {0, 1}, 5, {1, 2, 3})
    ensures Collides(CREDIT, 0, Cluster.Do(CREDIT, s, Cluster.Fail(2)), 0, 1, 3)
  {
    var s' := Cluster.Do(CREDIT, s, Cluster.Fail(2));
    assert s'.db.locks == {1};
    assert Filled(CREDIT, s', 0, 1) == map[1 := Entry(0, Plain), 2 := Entry(1, Plain)];
    TwoDebits(CREDIT.txs, Initial(Shard(0, 2)), Filled(CREDIT, s', 0, 1), 0);
  }
}

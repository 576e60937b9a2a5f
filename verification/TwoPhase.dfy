/** All clusters together: two-phase commit between the coordinator cluster (the debited one) and
    the participant cluster of each cross-shard transfer. Every step is a step of one cluster,
    guarded by what the remote calls let that cluster know about the other one. */
module TwoPhase {
  import opened Transfers
  import opened Ledger
  import opened Replay
  import opened Solvency
  import Cluster

  /** The verdict on one request, in the order of the moments at which a request has obtained the
      last lock it needs and is known to be covered, or is turned down holding its locks. */
  datatype Decision = Decision(t: nat, accepted: bool)

  /** `order` is a history variable: no step looks at it. */
  datatype State = State(cl: seq<Cluster.State>, order: seq<Decision>)

  function Init(cfg: Config): State {
    State(seq(|cfg.shards|, c requires 0 <= c < |cfg.shards| => Cluster.Init(cfg, c)), [])
  }

  function Job(s: State, c: nat, t: nat): Cluster.Side {
    if c < |s.cl| && t < |s.cl[c].jobs| then s.cl[c].jobs[t] else Cluster.Side(Cluster.Idle, 0, false)
  }

  function Coord(cfg: Config, s: State, t: nat): Cluster.Side
    requires t < |cfg.txs|
  {
    Job(s, cfg.txs[t].clusterFrom, t)
  }

  function Part(cfg: Config, s: State, t: nat): Cluster.Side
    requires t < |cfg.txs|
  {
    Job(s, cfg.txs[t].clusterTo, t)
  }

  predicate PrepareOk(pc: Cluster.Pc) {
    pc.Done? && pc.st == P && pc.ok
  }

  predicate CommitOk(pc: Cluster.Pc) {
    pc.Done? && pc.st == C && pc.ok
  }

  predicate InPhase(pc: Cluster.Pc, st: Status) {
    (pc.Done? || pc.Running?) && pc.st == st
  }

  /** The participant's prepare run has failed; it may have gone on to abort by itself. */
  predicate PrepareFailed(pc: Cluster.Pc) {
    (pc.Done? && pc.st == P && !pc.ok) || InPhase(pc, A)
  }

  /** What the remote calls between the two leaders establish. The participant starts only on the
      coordinator's committed prepare. The coordinator commits when the participant answered its
      call, which it does when its own prepare run succeeded, and aborts when the call failed:
      because it never arrived or because that run failed. The participant commits when told to. */
  ghost predicate Guard(cfg: Config, s: State, c: nat, a: Cluster.Action)
    requires !a.Exec? ==> a.t < |cfg.txs|
  {
    match a
    case Acquire(t) =>
      cfg.txs[t].Cross() && c == cfg.txs[t].clusterTo ==> PrepareOk(Coord(cfg, s, t).pc)
    case Start(t, st) =>
      if c == cfg.txs[t].clusterTo then st == C ==> CommitOk(Coord(cfg, s, t).pc)
      else if st == C then PrepareOk(Part(cfg, s, t).pc)
      else Part(cfg, s, t).pc == Cluster.Idle || PrepareFailed(Part(cfg, s, t).pc)
    case _ => true
  }

  /** What a step adds to the history. A cross-shard request has its last lock when the participant
      locks; an intra-shard one is placed when it passes its balance check. */
  function Verdict(cfg: Config, s: State, c: nat, a: Cluster.Action): seq<Decision>
    requires !a.Exec? ==> a.t < |cfg.txs|
  {
    match a
    case Acquire(t) => if cfg.txs[t].Cross() && c == cfg.txs[t].clusterTo then [Decision(t, true)] else []
    case Assign(t) => if cfg.txs[t].Cross() || Job(s, c, t).first != 0 then [] else [Decision(t, true)]
    case Reject(t) => [Decision(t, false)]
    case _ => []
  }

  ghost predicate Step(cfg: Config, s: State, c: nat, a: Cluster.Action, s': State) {
    && c < |s.cl|
    && Cluster.Enabled(cfg, c, s.cl[c], a)
    && Guard(cfg, s, c, a)
    && s' == State(s.cl[c := Cluster.Do(cfg, s.cl[c], a)], s.order + Verdict(cfg, s, c, a))
  }

  /** A run: the states it passes through and the steps between them. */
  datatype Move = Move(c: nat, a: Cluster.Action)
  datatype Run = Run(states: seq<State>, moves: seq<Move>) {
    ghost predicate Of(cfg: Config) {
      && |states| == |moves| + 1
      && states[0] == Init(cfg)
      && (forall i | 0 <= i < |moves| :: Step(cfg, states[i], moves[i].c, moves[i].a, states[i + 1]))
    }

    /** No intra-shard request is submitted a second time. */
    predicate NoResend() {
      forall i | 0 <= i < |moves| :: !moves[i].a.Resend?
    }

    /** Every consensus run that was given a sequence number commits. */
    predicate NoFailure() {
      forall i | 0 <= i < |moves| :: !moves[i].a.Fail?
    }
  }

  /***** Invariants of all runs *****/

  /** What the two clusters of a cross-shard transfer can know about each other at the same time. */
  predicate Compatible(cp: Cluster.Pc, pp: Cluster.Pc) {
    if PrepareOk(cp) then !pp.Rejected? && !InPhase(pp, C) && !InPhase(pp, Plain)
    else if CommitOk(cp) then PrepareOk(pp) || InPhase(pp, C)
    else if InPhase(cp, C) then PrepareOk(pp)
    else if InPhase(cp, A) then pp == Cluster.Idle || PrepareFailed(pp)
    else pp == Cluster.Idle
  }

  ghost predicate Paired(cfg: Config, s: State, t: nat)
    requires t < |cfg.txs|
  {
    cfg.txs[t].Cross() ==> Compatible(Coord(cfg, s, t).pc, Part(cfg, s, t).pc)
  }

  ghost predicate Core(cfg: Config, s: State) {
    && |s.cl| == |cfg.shards|
    && (forall c | 0 <= c < |s.cl| ::
          Cluster.Basic(cfg, c, s.cl[c]) && BalancesOk(cfg, c, s.cl[c]) && Replayed(cfg, c, s.cl[c]))
    && (forall t | 0 <= t < |cfg.txs| :: Paired(cfg, s, t))
  }

  lemma InitCore(cfg: Config)
    ensures Core(cfg, Init(cfg))
  {
    forall c | 0 <= c < |cfg.shards|
      ensures Cluster.Basic(cfg, c, Init(cfg).cl[c]) && BalancesOk(cfg, c, Init(cfg).cl[c])
              && Replayed(cfg, c, Init(cfg).cl[c])
    {
      Cluster.InitBasic(cfg, c);
      InitBalances(cfg, c);
    }
  }

  /** The handler position of request `a.t` after a step of its own. */
  function PcAfter(tx: Transfer, sd: Cluster.Side, next: nat, a: Cluster.Action): Cluster.Pc
    requires a.Commit? || a.Fail? ==> sd.pc.Running?
  {
    match a
    case Exec => sd.pc
    case Acquire(_) => Cluster.Locked
    case Reject(_) => Cluster.Rejected
    case Check(_) => Cluster.Checked
    case Assign(_) => Cluster.Running(tx.FirstStatus(), if sd.first == 0 then next else sd.first)
    case Start(_, st) => Cluster.Running(st, next)
    case Commit(_) => Cluster.Done(sd.pc.st, sd.pc.n, true)
    case Fail(_) => Cluster.Done(sd.pc.st, sd.pc.n, false)
    case EraseWal(_) => sd.pc
    case Resend(_) => Cluster.Idle
  }

  lemma StepJob(cfg: Config, s: State, c: nat, a: Cluster.Action, s': State, b: nat, t: nat)
    requires Core(cfg, s) && Step(cfg, s, c, a, s') && b < |s.cl| && t < |cfg.txs|
    ensures |s'.cl[b].jobs| == |cfg.txs|
    ensures Job(s', b, t).pc == if b == c && !a.Exec? && a.t == t
            then PcAfter(cfg.txs[t], Job(s, b, t), s.cl[c].next, a) else Job(s, b, t).pc
  {
    assert Cluster.Basic(cfg, b, s.cl[b]);
  }

  lemma CoordStep(tx: Transfer, c: nat, sd: Cluster.Side, pp: Cluster.Pc, next: nat, a: Cluster.Action)
    requires tx.Cross() && c == tx.clusterFrom && Compatible(sd.pc, pp) && !a.Resend? && !a.Exec?
    requires a.Acquire? ==> sd.pc == Cluster.Idle
    requires a.Reject? || a.Check? ==> sd.pc == Cluster.Locked
    requires a.Assign? ==> sd.pc == Cluster.Checked
    requires a.Start? ==> Cluster.MayStart(tx, c, sd.pc, a.st)
    requires a.Start? ==> if a.st == C then PrepareOk(pp) else pp == Cluster.Idle || PrepareFailed(pp)
    requires a.Commit? || a.Fail? ==> sd.pc.Running?
    ensures Compatible(PcAfter(tx, sd, next, a), pp)
  {
  }

  lemma PartStep(tx: Transfer, c: nat, cp: Cluster.Pc, sd: Cluster.Side, next: nat, a: Cluster.Action)
    requires tx.Cross() && c == tx.clusterTo && Compatible(cp, sd.pc) && !a.Resend? && !a.Exec? && !a.Reject?
    requires a.Acquire? ==> sd.pc == Cluster.Idle && PrepareOk(cp)
    requires a.Check? ==> sd.pc == Cluster.Locked
    requires a.Assign? ==> sd.pc == Cluster.Checked
    requires a.Start? ==> Cluster.MayStart(tx, c, sd.pc, a.st) && (a.st == C ==> CommitOk(cp))
    requires a.Commit? || a.Fail? ==> sd.pc.Running?
    ensures Compatible(cp, PcAfter(tx, sd, next, a))
  {
  }

  lemma StepPaired(cfg: Config, s: State, c: nat, a: Cluster.Action, s': State, t: nat)
    requires cfg.Valid() && Core(cfg, s) && Step(cfg, s, c, a, s') && t < |cfg.txs|
    ensures Paired(cfg, s', t)
  {
    var tx := cfg.txs[t];
    assert Paired(cfg, s, t) && cfg.ValidTransfer(tx);
    StepJob(cfg, s, c, a, s', tx.clusterFrom, t);
    StepJob(cfg, s, c, a, s', tx.clusterTo, t);
    if !a.Exec? && a.t == t && tx.Cross() {
      OwnPaired(cfg, s, c, a, t);
    }
  }

  lemma OwnPaired(cfg: Config, s: State, c: nat, a: Cluster.Action, t: nat)
    requires t < |cfg.txs| && cfg.txs[t].Cross() && Paired(cfg, s, t) && c < |s.cl| && !a.Exec? && a.t == t
    requires Cluster.Enabled(cfg, c, s.cl[c], a) && Guard(cfg, s, c, a)
    ensures var tx, next := cfg.txs[t], s.cl[c].next;
            && (c == tx.clusterFrom ==>
                  Compatible(PcAfter(tx, Coord(cfg, s, t), next, a), Part(cfg, s, t).pc))
            && (c == tx.clusterTo ==>
                  Compatible(Coord(cfg, s, t).pc, PcAfter(tx, Part(cfg, s, t), next, a)))
  {
    if c == cfg.txs[t].clusterFrom {
      CoordStep(cfg.txs[t], c, Coord(cfg, s, t), Part(cfg, s, t).pc, s.cl[c].next, a);
    } else if c == cfg.txs[t].clusterTo {
      PartStep(cfg.txs[t], c, Coord(cfg, s, t).pc, Part(cfg, s, t), s.cl[c].next, a);
    }
  }

  /** A committed entry stays as it is. */
  lemma LogStays(cfg: Config, c: nat, s: Cluster.State, a: Cluster.Action)
    requires cfg.Valid() && Cluster.Basic(cfg, c, s) && Cluster.Enabled(cfg, c, s, a)
    ensures forall n | n in s.log :: n in Cluster.Do(cfg, s, a).log && Cluster.Do(cfg, s, a).log[n] == s.log[n]
  {
    if a.Commit? {
      forall n | n in s.log {
        CommitKeepsEntry(cfg, c, s, a.t, n);
      }
    }
  }

  lemma StepReplayed(cfg: Config, c: nat, s: Cluster.State, a: Cluster.Action)
    requires cfg.Valid() && Cluster.Basic(cfg, c, s) && Replayed(cfg, c, s) && Cluster.Enabled(cfg, c, s, a)
    ensures Replayed(cfg, c, Cluster.Do(cfg, s, a))
  {
    if a.Exec? {
      ExecReplayed(cfg, c, s);
    } else {
      LogStays(cfg, c, s, a);
      AfterFrame(cfg.txs, Initial(cfg.shards[c]), s.log, Cluster.Do(cfg, s, a).log, s.exec);
      OnlyExecMoves(cfg, c, s, a);
    }
  }

  lemma StepCore(cfg: Config, s: State, c: nat, a: Cluster.Action, s': State)
    requires cfg.Valid() && Core(cfg, s) && Step(cfg, s, c, a, s')
    ensures Core(cfg, s')
  {
    Cluster.StepBasic(cfg, c, s.cl[c], a);
    StepBalances(cfg, c, s.cl[c], a);
    StepReplayed(cfg, c, s.cl[c], a);
    forall t | 0 <= t < |cfg.txs| ensures Paired(cfg, s', t) {
      StepPaired(cfg, s, c, a, s', t);
    }
  }

  /** What holds at the start and is kept by all steps of a kind holds throughout a run of such steps. */
  lemma {:induction false} Throughout(cfg: Config, r: Run, kind: (State, nat, Cluster.Action) -> bool, p: State -> bool,
                                      i: nat)
    requires r.Of(cfg) && i < |r.states|
    requires forall k | 0 <= k < |r.moves| :: kind(r.states[k], r.moves[k].c, r.moves[k].a)
    requires p(Init(cfg))
    requires forall s, c, a, s' | p(s) && kind(s, c, a) && Step(cfg, s, c, a, s') :: p(s')
    ensures p(r.states[i])
  {
    if i > 0 {
      Throughout(cfg, r, kind, p, i - 1);
      assert kind(r.states[i - 1], r.moves[i - 1].c, r.moves[i - 1].a)
             && Step(cfg, r.states[i - 1], r.moves[i - 1].c, r.moves[i - 1].a, r.states[i]);
    }
  }

  lemma RunCore(cfg: Config, r: Run, i: nat)
    requires cfg.Valid() && r.Of(cfg) && i < |r.states|
    ensures Core(cfg, r.states[i])
  {
    InitCore(cfg);
    forall s: State, c: nat, a: Cluster.Action, s': State | Core(cfg, s) && Step(cfg, s, c, a, s')
      ensures Core(cfg, s')
    {
      StepCore(cfg, s, c, a, s');
    }
    Throughout(cfg, r, (s, c, a) => true, s => Core(cfg, s), i);
  }

  /***** Atomicity *****/

  /** The log of cluster `c` decides `t` with `st`. */
  ghost predicate Logs(s: State, c: nat, t: nat, st: Status) {
    c < |s.cl| && exists n | n in s.cl[c].log :: s.cl[c].log[n] == Entry(t, st)
  }

  lemma LoggedPhase(cfg: Config, s: State, c: nat, t: nat, st: Status)
    requires Core(cfg, s) && Logs(s, c, t, st) && (st == C || st == A)
    ensures t < |cfg.txs| && cfg.txs[t].Cross() && cfg.txs[t].Involves(c)
    ensures exists n :: Job(s, c, t).pc == Cluster.Done(st, n, true)
    ensures Job(s, c, t).saved == Cluster.Prepared(cfg.txs[t], c, st)
  {
    var n :| n in s.cl[c].log && s.cl[c].log[n] == Entry(t, st);
    Cluster.EntryOwned(cfg, c, s.cl[c], n);
    assert Cluster.SideOk(cfg.txs[t], c, s.cl[c], t);
  }

  /** In every reachable state, also after failed runs and resubmissions: no transfer is committed
      in one cluster and aborted in another or in the same one; a commit entry stands after a
      prepare of the same transfer in its log; and the coordinator's commit entry means that the
      participant's prepare has been committed. */
  lemma Atomicity(cfg: Config, r: Run, i: nat, b: nat, c: nat, t: nat)
    requires cfg.Valid() && r.Of(cfg) && i < |r.states|
    requires Logs(r.states[i], b, t, C)
    ensures !Logs(r.states[i], c, t, A)
    ensures forall n | n in r.states[i].cl[b].log && r.states[i].cl[b].log[n] == Entry(t, C) ::
              exists m | m in r.states[i].cl[b].log :: m < n && r.states[i].cl[b].log[m] == Entry(t, P)
    ensures t < |cfg.txs| && Logs(r.states[i], cfg.txs[t].clusterTo, t, P)
            && Logs(r.states[i], cfg.txs[t].clusterFrom, t, P)
  {
    var s := r.states[i];
    RunCore(cfg, r, i);
    LoggedPhase(cfg, s, b, t, C);
    assert Paired(cfg, s, t) && cfg.ValidTransfer(cfg.txs[t]);
    BothPrepared(cfg, s, b, t);
    forall n | n in s.cl[b].log && s.cl[b].log[n] == Entry(t, C)
      ensures exists m | m in s.cl[b].log :: m < n && s.cl[b].log[m] == Entry(t, P)
    {
      CommitFollows(cfg, b, s.cl[b], t, n);
    }
    if Logs(s, c, t, A) {
      LoggedPhase(cfg, s, c, t, A);
      assert false;
    }
  }

  lemma BothPrepared(cfg: Config, s: State, b: nat, t: nat)
    requires cfg.Valid() && Core(cfg, s) && Logs(s, b, t, C)
    ensures t < |cfg.txs| && Logs(s, cfg.txs[t].clusterTo, t, P) && Logs(s, cfg.txs[t].clusterFrom, t, P)
  {
    LoggedPhase(cfg, s, b, t, C);
    assert Paired(cfg, s, t) && cfg.ValidTransfer(cfg.txs[t]);
    forall d | d == cfg.txs[t].clusterFrom || d == cfg.txs[t].clusterTo
      ensures Logs(s, d, t, P)
    {
      assert Cluster.SideOk(cfg.txs[t], d, s.cl[d], t);
      assert s.cl[d].log[Job(s, d, t).first] == Entry(t, P);
    }
  }

  lemma CommitFollows(cfg: Config, c: nat, s: Cluster.State, t: nat, n: nat)
    requires Cluster.Basic(cfg, c, s) && n in s.log && s.log[n] == Entry(t, C)
    ensures exists m | m in s.log :: m < n && s.log[m] == Entry(t, P)
  {
    Cluster.EntryOwned(cfg, c, s, n);
    assert Cluster.SideOk(cfg.txs[t], c, s, t);
    assert s.log[s.jobs[t].first] == Entry(t, P);
  }

  /***** At most once *****/

  /** However often it is resubmitted, an intra-shard request has at most one number in its
      cluster's log, in all states of a run, and its money has moved at most once. */
  lemma AtMostOnce(cfg: Config, r: Run, i: nat, j: nat, c: nat, t: nat, m: nat, n: nat)
    requires cfg.Valid() && r.Of(cfg) && i <= j < |r.states| && c < |cfg.shards|
    requires t < |cfg.txs| && !cfg.txs[t].Cross()
    requires c < |r.states[i].cl| && m in r.states[i].cl[c].log && r.states[i].cl[c].log[m].t == t
    requires c < |r.states[j].cl| && n in r.states[j].cl[c].log && r.states[j].cl[c].log[n].t == t
    ensures m == n && c == cfg.txs[t].clusterFrom
            && r.states[i].cl[c].log[m] == r.states[j].cl[c].log[n] == Entry(t, Plain)
  {
    RunCore(cfg, r, i);
    RunCore(cfg, r, j);
    LogGrows(cfg, r, i, j, c, m);
    Cluster.EntryOwned(cfg, c, r.states[i].cl[c], m);
    Cluster.EntryOwned(cfg, c, r.states[j].cl[c], m);
    Cluster.EntryOwned(cfg, c, r.states[j].cl[c], n);
    assert Cluster.SideOk(cfg.txs[t], c, r.states[j].cl[c], t);
    assert Cluster.SideOk(cfg.txs[t], c, r.states[i].cl[c], t);
  }

  /** A committed entry is never changed or removed. */
  lemma {:induction false} LogGrows(cfg: Config, r: Run, i: nat, j: nat, c: nat, n: nat)
    requires cfg.Valid() && r.Of(cfg) && i <= j < |r.states| && c < |cfg.shards|
    requires c < |r.states[i].cl| && n in r.states[i].cl[c].log
    ensures c < |r.states[j].cl| && n in r.states[j].cl[c].log
    ensures r.states[j].cl[c].log[n] == r.states[i].cl[c].log[n]
    decreases j - i
  {
    if i < j {
      RunCore(cfg, r, i);
      var s, k, a := r.states[i], r.moves[i].c, r.moves[i].a;
      assert Step(cfg, s, k, a, r.states[i + 1]);
      Cluster.EntryOwned(cfg, c, s.cl[c], n);
      if a.Commit? && k == c {
        CommitKeepsEntry(cfg, k, s.cl[k], a.t, n);
      }
      LogGrows(cfg, r, i + 1, j, c, n);
    }
  }

  lemma CommitKeepsEntry(cfg: Config, c: nat, s: Cluster.State, t: nat, n: nat)
    requires cfg.Valid() && Cluster.Basic(cfg, c, s) && Cluster.Enabled(cfg, c, s, Cluster.Commit(t)) && n in s.log
    ensures n in Cluster.Do(cfg, s, Cluster.Commit(t)).log
    ensures Cluster.Do(cfg, s, Cluster.Commit(t)).log[n] == s.log[n]
  {
    Cluster.EntryOwned(cfg, c, s, n);
    assert Cluster.SideOk(cfg.txs[t], c, s, t);
    assert s.log[n].t != t ==> Cluster.Apart(s.jobs[t], s.jobs[s.log[n].t], n);
  }
}

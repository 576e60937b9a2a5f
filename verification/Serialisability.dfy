/** Serialisability: a run in which every numbered consensus run commits, with any resubmissions, is
    equivalent to one global ledger that takes the requests one at a time. */
module Serialisability {
  import opened Transfers
  import opened Ledger
  import opened Solvency
  import opened TwoPhase
  import Cluster
  import Resubmission

  /***** The serial ledger *****/

  /** One global ledger that applies the accepted transfers one at a time, in the given order. */
  ghost function Serial(cfg: Config, order: seq<Decision>, x: int): int {
    if order == [] then INITIAL_BALANCE
    else
      var d := order[|order| - 1];
      Serial(cfg, order[..|order| - 1], x) + (if d.accepted && d.t < |cfg.txs| then Delta(cfg.txs[d.t], x) else 0)
  }

  function Accepted(order: seq<Decision>): set<nat> {
    set d | d in order && d.accepted :: d.t
  }

  /** The serial ledger, checking each request when its turn comes, reaches the same verdicts. */
  ghost predicate SameVerdicts(cfg: Config, order: seq<Decision>) {
    forall i | 0 <= i < |order| ::
      && order[i].t < |cfg.txs|
      && (order[i].accepted <==> Serial(cfg, order[..i], cfg.txs[order[i].t].from) >= cfg.txs[order[i].t].amount)
  }

  /** No request is accepted twice. */
  ghost predicate AcceptedOnce(order: seq<Decision>) {
    forall i, j | 0 <= i < j < |order| && order[i].accepted && order[j].accepted :: order[i].t != order[j].t
  }

  /** No request is decided twice. */
  ghost predicate OnceEach(order: seq<Decision>) {
    forall i, j | 0 <= i < j < |order| :: order[i].t != order[j].t
  }

  lemma SerialAppend(cfg: Config, order: seq<Decision>, d: Decision, x: int)
    ensures Serial(cfg, order + [d], x) ==
            Serial(cfg, order, x) + (if d.accepted && d.t < |cfg.txs| then Delta(cfg.txs[d.t], x) else 0)
  {
    assert (order + [d])[..|order|] == order;
  }

  lemma AcceptedAppend(order: seq<Decision>, d: Decision)
    ensures Accepted(order + [d]) == if d.accepted then Accepted(order) + {d.t} else Accepted(order)
  {
    var next := order + [d];
    assert forall e :: e in next <==> e in order || e == d;
    assert d in next;
    forall t | t in Accepted(order) ensures t in Accepted(next) {
      var e :| e in order && e.accepted && e.t == t;
      assert e in next;
    }
  }

  lemma VerdictsAppend(cfg: Config, order: seq<Decision>, d: Decision)
    requires SameVerdicts(cfg, order) && d.t < |cfg.txs|
    requires d.accepted <==> Serial(cfg, order, cfg.txs[d.t].from) >= cfg.txs[d.t].amount
    ensures SameVerdicts(cfg, order + [d])
  {
    var next := order + [d];
    forall i | 0 <= i < |next|
      ensures next[i].t < |cfg.txs|
      ensures next[i].accepted <==> Serial(cfg, next[..i], cfg.txs[next[i].t].from) >= cfg.txs[next[i].t].amount
    {
      if i < |order| {
        assert next[..i] == order[..i];
      } else {
        assert next[..i] == order;
      }
    }
  }

  /***** Runs without failures *****/

  /** The request is through in this cluster, or has not begun: it holds no locks, and no committed run
      of it still waits for the executor. */
  predicate Through(sd: Cluster.Side, exec: nat) {
    !Holds(sd, exec) && !(sd.pc.Idle? && Resubmission.Waiting(sd, exec))
  }

  /** No run has failed so far; so only a coordinator aborts, after a call that did not arrive. */
  ghost predicate SideUnfailed(tx: Transfer, c: nat, sd: Cluster.Side) {
    && (sd.pc.Done? ==> sd.pc.ok)
    && (InPhase(sd.pc, A) ==> tx.clusterFrom == c)
  }

  ghost predicate Unfailed(cfg: Config, c: nat, s: Cluster.State) {
    s.dead == {} && |s.jobs| == |cfg.txs| && forall t | 0 <= t < |s.jobs| :: SideUnfailed(cfg.txs[t], c, s.jobs[t])
  }

  ghost predicate AllUnfailed(cfg: Config, s: State) {
    forall c | 0 <= c < |s.cl| :: Unfailed(cfg, c, s.cl[c])
  }

  /** Which requests have been accepted so far, and that each counts once. */
  ghost predicate OrderOk(cfg: Config, s: State) {
    && (forall t | 0 <= t < |cfg.txs| :: t in Accepted(s.order) <==> TakenUp(cfg, s, t))
    && (forall x :: Serial(cfg, s.order, x) == INITIAL_BALANCE + SumOver(cfg.txs, Accepted(s.order), x, |cfg.txs|))
  }

  /** The request has its last lock: the participant's, or, in one shard, with the number of its run. */
  ghost predicate TakenUp(cfg: Config, s: State, t: nat)
    requires t < |cfg.txs|
  {
    if cfg.txs[t].Cross() then Part(cfg, s, t).pc != Cluster.Idle else Coord(cfg, s, t).first != 0
  }

  ghost predicate Steady(cfg: Config, s: State) {
    Core(cfg, s) && Resubmission.AllSound(cfg, s) && AllUnfailed(cfg, s)
  }

  ghost predicate Ordered(cfg: Config, s: State) {
    Steady(cfg, s) && OrderOk(cfg, s) && SameVerdicts(cfg, s.order) && AcceptedOnce(s.order)
  }

  lemma NotBlocked(cfg: Config, c: nat, s: Cluster.State, k: nat)
    requires Unfailed(cfg, c, s)
    ensures !Resubmission.Blocked(cfg, s, k)
  {
  }

  /** Requests that are not through keep their locks, */
  lemma UnfinishedKeeps(cfg: Config, c: nat, s: Cluster.State, t: nat)
    requires Unfailed(cfg, c, s) && t < |s.jobs| && !Through(s.jobs[t], s.exec)
    requires cfg.txs[t].Involves(c)
    ensures Resubmission.Keeps(cfg, c, s, t)
  {
    assert SideUnfailed(cfg.txs[t], c, s.jobs[t]);
    if s.jobs[t].pc.Running? || s.jobs[t].pc.Done? {
      NotBlocked(cfg, c, s, s.jobs[t].pc.n);
    }
  }

  /** so no account belongs to two of them. */
  lemma UnfinishedApart(cfg: Config, c: nat, s: Cluster.State, t: nat, u: nat)
    requires Unfailed(cfg, c, s) && Resubmission.Sound(cfg, c, s) && t < |s.jobs| && u < |s.jobs| && t != u
    requires cfg.txs[t].Involves(c) && cfg.txs[u].Involves(c)
    requires !Through(s.jobs[t], s.exec) && !Through(s.jobs[u], s.exec)
    ensures cfg.txs[t].DisjointFrom(cfg.txs[u])
  {
    UnfinishedKeeps(cfg, c, s, t);
    UnfinishedKeeps(cfg, c, s, u);
    assert Resubmission.NotShared(cfg, c, s, t, u);
  }

  /***** A cluster's balances and the serial ledger *****/

  /** An intra-shard request that has a number and is in no run is committed. */
  lemma NumberedSaved(cfg: Config, c: nat, s: Cluster.State, t: nat)
    requires Unfailed(cfg, c, s) && Resubmission.Sound(cfg, c, s) && t < |s.jobs| && !cfg.txs[t].Cross()
    requires s.jobs[t].first != 0 && !s.jobs[t].pc.Running?
    ensures s.jobs[t].saved && (s.jobs[t].pc.Locked? || s.jobs[t].pc.Checked? || s.jobs[t].pc.Rejected? ==>
                                s.jobs[t].first < s.exec)
  {
    assert Resubmission.DeadOk(cfg.txs[t], s, s.jobs[t]) && Resubmission.Orderly(s.jobs[t], s.exec);
  }

  /** Where a request is through, its money has moved exactly if the serial ledger has accepted it. */
  lemma ThroughAgrees(cfg: Config, s: State, c: nat, t: nat)
    requires cfg.Valid() && Steady(cfg, s) && c < |s.cl| && t < |cfg.txs| && cfg.txs[t].Involves(c)
    requires Through(s.cl[c].jobs[t], s.cl[c].exec)
    ensures Moved(s.cl[c].jobs[t], s.cl[c].exec) <==> TakenUp(cfg, s, t)
  {
    assert cfg.ValidTransfer(cfg.txs[t]) && Unfailed(cfg, c, s.cl[c]) && Resubmission.SoundSoFar(cfg, c, s.cl[c]);
    if cfg.txs[t].Cross() {
      CrossAgrees(cfg, s, c, t);
    } else {
      PlainAgrees(cfg, c, s.cl[c], t);
    }
  }

  lemma PlainAgrees(cfg: Config, c: nat, s: Cluster.State, t: nat)
    requires Cluster.Basic(cfg, c, s) && Unfailed(cfg, c, s) && Resubmission.Sound(cfg, c, s) && t < |s.jobs|
    requires !cfg.txs[t].Cross() && Through(s.jobs[t], s.exec)
    ensures Moved(s.jobs[t], s.exec) <==> s.jobs[t].first != 0
  {
    assert Cluster.SideOk(cfg.txs[t], c, s, t) && SideUnfailed(cfg.txs[t], c, s.jobs[t]);
    if s.jobs[t].first != 0 {
      NumberedSaved(cfg, c, s, t);
    }
  }

  lemma CrossAgrees(cfg: Config, s: State, c: nat, t: nat)
    requires cfg.Valid() && Core(cfg, s) && AllUnfailed(cfg, s) && c < |s.cl| && t < |cfg.txs|
    requires cfg.txs[t].Cross() && cfg.txs[t].Involves(c) && Through(s.cl[c].jobs[t], s.cl[c].exec)
    ensures Moved(s.cl[c].jobs[t], s.cl[c].exec) <==> Part(cfg, s, t).pc != Cluster.Idle
  {
    assert cfg.ValidTransfer(cfg.txs[t]) && Paired(cfg, s, t);
    CrossSide(cfg, s, cfg.txs[t].clusterFrom, t);
    CrossSide(cfg, s, cfg.txs[t].clusterTo, t);
  }

  lemma CrossSide(cfg: Config, s: State, c: nat, t: nat)
    requires Core(cfg, s) && AllUnfailed(cfg, s) && c < |s.cl| && t < |cfg.txs|
    ensures |s.cl[c].jobs| == |cfg.txs|
    ensures Cluster.SideOk(cfg.txs[t], c, s.cl[c], t) && SideUnfailed(cfg.txs[t], c, s.cl[c].jobs[t])
  {
    assert Cluster.Basic(cfg, c, s.cl[c]) && Unfailed(cfg, c, s.cl[c]);
  }

  lemma OthersAgree(cfg: Config, s: State, c: nat, t: nat, u: nat, x: int)
    requires cfg.Valid() && Steady(cfg, s) && OrderOk(cfg, s)
    requires c < |s.cl| && t < |cfg.txs| && u < |cfg.txs| && u != t && cfg.shards[c].Owns(x)
    requires cfg.txs[t].Touches(x) && cfg.txs[u].Touches(x) && !Through(s.cl[c].jobs[t], s.cl[c].exec)
    ensures Moved(s.cl[c].jobs[u], s.cl[c].exec) <==> u in Accepted(s.order)
  {
    assert cfg.ValidTransfer(cfg.txs[u]) && cfg.ValidTransfer(cfg.txs[t]);
    assert Unfailed(cfg, c, s.cl[c]) && Resubmission.SoundSoFar(cfg, c, s.cl[c]);
    if !Through(s.cl[c].jobs[u], s.cl[c].exec) {
      UnfinishedApart(cfg, c, s.cl[c], t, u);
    }
    ThroughAgrees(cfg, s, c, u);
  }

  /** While `t` is under way, an account of it differs from the serial ledger by no more than `t` itself. */
  lemma HeldAccount(cfg: Config, s: State, c: nat, t: nat, x: int)
    requires cfg.Valid() && Steady(cfg, s) && OrderOk(cfg, s)
    requires c < |s.cl| && t < |cfg.txs| && cfg.shards[c].Owns(x) && cfg.txs[t].Touches(x)
    requires !Through(s.cl[c].jobs[t], s.cl[c].exec)
    ensures x in s.cl[c].db.bal
    ensures s.cl[c].db.bal[x] - (if Moved(s.cl[c].jobs[t], s.cl[c].exec) then Delta(cfg.txs[t], x) else 0)
         == Serial(cfg, s.order, x) - (if t in Accepted(s.order) then Delta(cfg.txs[t], x) else 0)
  {
    forall u: nat | u < |cfg.txs| && u != t && cfg.txs[u].Touches(x)
      ensures u in MovedSet(s.cl[c]) <==> u in Accepted(s.order)
    {
      OthersAgree(cfg, s, c, t, u, x);
    }
    AccountDiffers(cfg, s, c, t, x);
  }

  lemma AccountDiffers(cfg: Config, s: State, c: nat, t: nat, x: int)
    requires Core(cfg, s) && OrderOk(cfg, s) && c < |s.cl| && cfg.shards[c].Owns(x)
    requires forall u: nat | u < |cfg.txs| && u != t && cfg.txs[u].Touches(x) ::
               u in MovedSet(s.cl[c]) <==> u in Accepted(s.order)
    ensures x in s.cl[c].db.bal
    ensures s.cl[c].db.bal[x] - (if t < |cfg.txs| && t in MovedSet(s.cl[c]) then Delta(cfg.txs[t], x) else 0)
         == Serial(cfg, s.order, x) - (if t < |cfg.txs| && t in Accepted(s.order) then Delta(cfg.txs[t], x) else 0)
  {
    assert BalancesOk(cfg, c, s.cl[c]);
    SumOverDiffer(cfg.txs, MovedSet(s.cl[c]), Accepted(s.order), t, x, |cfg.txs|);
  }

  /** Every request that was taken up has been decided and executed wherever it took part. */
  ghost predicate Settled(cfg: Config, s: State) {
    forall c, t | 0 <= c < |s.cl| && 0 <= t < |s.cl[c].jobs| :: Through(s.cl[c].jobs[t], s.cl[c].exec)
  }

  /** When every request is through, the balances of every cluster are those of the serial ledger. */
  lemma SettledAccount(cfg: Config, s: State, c: nat, x: int)
    requires cfg.Valid() && Steady(cfg, s) && OrderOk(cfg, s) && Settled(cfg, s)
    requires c < |s.cl| && cfg.shards[c].Owns(x)
    ensures x in s.cl[c].db.bal && s.cl[c].db.bal[x] == Serial(cfg, s.order, x)
  {
    forall u: nat | u < |cfg.txs| && u != |cfg.txs| && cfg.txs[u].Touches(x)
      ensures u in MovedSet(s.cl[c]) <==> u in Accepted(s.order)
    {
      assert cfg.ValidTransfer(cfg.txs[u]) && Cluster.Basic(cfg, c, s.cl[c]);
      ThroughAgrees(cfg, s, c, u);
    }
    AccountDiffers(cfg, s, c, |cfg.txs|, x);
  }

  /***** Each verdict is the serial ledger's *****/

  /** At the leader of the debited cluster, the balance check of a request and the check of the serial
      ledger come out the same, also when the request has been through before. */
  lemma LockedVerdict(cfg: Config, s: State, t: nat)
    requires cfg.Valid() && Steady(cfg, s) && OrderOk(cfg, s)
    requires t < |cfg.txs| && (Coord(cfg, s, t).pc == Cluster.Locked || Coord(cfg, s, t).pc == Cluster.Checked)
    ensures cfg.txs[t].clusterFrom < |s.cl|
    ensures Cluster.Covered(cfg, s.cl[cfg.txs[t].clusterFrom], t) <==>
            Serial(cfg, s.order, cfg.txs[t].from) >= cfg.txs[t].amount
  {
    var tx, b := cfg.txs[t], cfg.txs[t].clusterFrom;
    assert cfg.ValidTransfer(tx);
    LockedAgrees(cfg, s, t);
    HeldAccount(cfg, s, b, t, tx.from);
  }

  lemma LockedAgrees(cfg: Config, s: State, t: nat)
    requires cfg.Valid() && Steady(cfg, s) && t < |cfg.txs|
    requires Coord(cfg, s, t).pc == Cluster.Locked || Coord(cfg, s, t).pc == Cluster.Checked
    ensures cfg.txs[t].clusterFrom < |s.cl|
    ensures Moved(Coord(cfg, s, t), s.cl[cfg.txs[t].clusterFrom].exec) <==> TakenUp(cfg, s, t)
  {
    var b := cfg.txs[t].clusterFrom;
    assert cfg.ValidTransfer(cfg.txs[t]) && Paired(cfg, s, t) && Resubmission.SoundSoFar(cfg, b, s.cl[b]);
    CrossSide(cfg, s, b, t);
    if !cfg.txs[t].Cross() && Coord(cfg, s, t).first != 0 {
      NumberedSaved(cfg, b, s.cl[b], t);
    }
  }

  /** A checked request that has no number yet is covered. */
  lemma CheckedCovered(cfg: Config, c: nat, s: Cluster.State, t: nat)
    requires Cluster.Basic(cfg, c, s) && Unfailed(cfg, c, s) && Resubmission.Sound(cfg, c, s) && t < |s.jobs|
    requires cfg.txs[t].clusterFrom == c && s.jobs[t].pc.Checked? && s.jobs[t].first == 0
    ensures Cluster.Covered(cfg, s, t)
  {
    NotBlocked(cfg, c, s, s.next);
    assert Resubmission.ProspectCovered(cfg, c, s, t);
  }

  /** So is a debit that is prepared and waits for the executor. */
  lemma WaitingCovered(cfg: Config, c: nat, s: Cluster.State, t: nat)
    requires Unfailed(cfg, c, s) && Resubmission.Sound(cfg, c, s) && t < |s.jobs|
    requires cfg.txs[t].clusterFrom == c && Resubmission.Waiting(s.jobs[t], s.exec) && s.jobs[t].first != 0
             && !s.jobs[t].pc.Locked?
    ensures Cluster.Covered(cfg, s, t)
  {
    NotBlocked(cfg, c, s, s.jobs[t].first);
    assert Resubmission.ProspectCovered(cfg, c, s, t);
  }

  /** When the participant locks, the serial ledger still covers what the coordinator checked. */
  lemma PreparedVerdict(cfg: Config, s: State, t: nat)
    requires cfg.Valid() && Steady(cfg, s) && OrderOk(cfg, s)
    requires t < |cfg.txs| && cfg.txs[t].Cross() && PrepareOk(Coord(cfg, s, t).pc) && Part(cfg, s, t).pc == Cluster.Idle
    ensures t !in Accepted(s.order)
    ensures Serial(cfg, s.order, cfg.txs[t].from) >= cfg.txs[t].amount
  {
    var tx, b := cfg.txs[t], cfg.txs[t].clusterFrom;
    assert cfg.ValidTransfer(tx) && Resubmission.SoundSoFar(cfg, b, s.cl[b]) && Unfailed(cfg, b, s.cl[b]);
    CrossSide(cfg, s, b, t);
    HeldAccount(cfg, s, b, t, tx.from);
    if !Moved(s.cl[b].jobs[t], s.cl[b].exec) {
      WaitingCovered(cfg, b, s.cl[b], t);
    } else {
      assert tx.from != tx.to;
    }
  }

  /** Each verdict a step adds to the history is the one the serial ledger reaches. */
  lemma VerdictFair(cfg: Config, s: State, c: nat, a: Cluster.Action, s': State)
    requires cfg.Valid() && Steady(cfg, s) && OrderOk(cfg, s)
    requires Step(cfg, s, c, a, s') && Verdict(cfg, s, c, a) != []
    ensures var d, tx := Verdict(cfg, s, c, a)[0], cfg.txs[a.t];
            && d.t == a.t && (d.accepted ==> a.t !in Accepted(s.order))
            && (d.accepted <==> Serial(cfg, s.order, tx.from) >= tx.amount)
  {
    assert cfg.ValidTransfer(cfg.txs[a.t]);
    if a.Acquire? {
      PreparedVerdict(cfg, s, a.t);
    } else {
      CrossSide(cfg, s, c, a.t);
      assert Resubmission.SoundSoFar(cfg, c, s.cl[c]) && Unfailed(cfg, c, s.cl[c]);
      LockedVerdict(cfg, s, a.t);
      if a.Assign? {
        CheckedCovered(cfg, c, s.cl[c], a.t);
      }
    }
  }

  /***** Every step *****/

  lemma StepUnfailed(cfg: Config, s: State, c: nat, a: Cluster.Action, s': State)
    requires cfg.Valid() && Core(cfg, s) && AllUnfailed(cfg, s) && Step(cfg, s, c, a, s') && !a.Fail?
    ensures AllUnfailed(cfg, s')
  {
    forall t | 0 <= t < |cfg.txs|
      ensures |s'.cl[c].jobs| == |cfg.txs| && SideUnfailed(cfg.txs[t], c, s'.cl[c].jobs[t])
    {
      CrossSide(cfg, s, c, t);
      StepSide(cfg, c, s.cl[c], a, t);
    }
    assert |s'.cl[c].jobs| == |s.cl[c].jobs| && Unfailed(cfg, c, s.cl[c]);
    forall b | 0 <= b < |s'.cl| ensures Unfailed(cfg, b, s'.cl[b]) {
      assert Unfailed(cfg, b, s.cl[b]);
    }
  }

  lemma StepSide(cfg: Config, c: nat, s: Cluster.State, a: Cluster.Action, t: nat)
    requires Cluster.Enabled(cfg, c, s, a) && !a.Fail? && t < |s.jobs| == |cfg.txs|
    requires Cluster.SideOk(cfg.txs[t], c, s, t) && SideUnfailed(cfg.txs[t], c, s.jobs[t])
    ensures |Cluster.Do(cfg, s, a).jobs| == |s.jobs| && SideUnfailed(cfg.txs[t], c, Cluster.Do(cfg, s, a).jobs[t])
  {
  }

  lemma StepSteady(cfg: Config, s: State, c: nat, a: Cluster.Action, s': State)
    requires cfg.Valid() && Steady(cfg, s) && Step(cfg, s, c, a, s') && !a.Fail?
    ensures Steady(cfg, s')
  {
    StepCore(cfg, s, c, a, s');
    Resubmission.StepSound(cfg, s, c, a, s');
    StepUnfailed(cfg, s, c, a, s');
  }

  /** A step takes up a request exactly if it adds its acceptance to the history. */
  lemma TakenUpStep(cfg: Config, s: State, c: nat, a: Cluster.Action, s': State, t: nat)
    requires cfg.Valid() && Core(cfg, s) && Step(cfg, s, c, a, s') && t < |cfg.txs|
    ensures var now := !a.Exec? && a.t == t && Verdict(cfg, s, c, a) != [] && Verdict(cfg, s, c, a)[0].accepted;
            TakenUp(cfg, s', t) <==> TakenUp(cfg, s, t) || now
  {
    var tx := cfg.txs[t];
    assert cfg.ValidTransfer(tx) && Cluster.SideOk(tx, c, s.cl[c], t);
    StepJob(cfg, s, c, a, s', tx.clusterTo, t);
  }

  lemma AcceptedStep(cfg: Config, s: State, c: nat, a: Cluster.Action, s': State, t: nat)
    requires cfg.Valid() && Core(cfg, s) && Step(cfg, s, c, a, s') && t < |cfg.txs|
    requires t in Accepted(s.order) <==> TakenUp(cfg, s, t)
    ensures t in Accepted(s'.order) <==> TakenUp(cfg, s', t)
  {
    TakenUpStep(cfg, s, c, a, s', t);
    AcceptedNow(cfg, s, c, a, s');
  }

  lemma AcceptedNow(cfg: Config, s: State, c: nat, a: Cluster.Action, s': State)
    requires Step(cfg, s, c, a, s')
    ensures var v := Verdict(cfg, s, c, a);
            Accepted(s'.order) == if v != [] && v[0].accepted then Accepted(s.order) + {a.t} else Accepted(s.order)
  {
    var v := Verdict(cfg, s, c, a);
    if v != [] {
      AcceptedAppend(s.order, v[0]);
    } else {
      assert s'.order == s.order;
    }
  }

  lemma StepOrder(cfg: Config, s: State, c: nat, a: Cluster.Action, s': State)
    requires cfg.Valid() && Steady(cfg, s) && OrderOk(cfg, s) && Step(cfg, s, c, a, s')
    ensures OrderOk(cfg, s')
  {
    forall x
      ensures Serial(cfg, s'.order, x) == INITIAL_BALANCE + SumOver(cfg.txs, Accepted(s'.order), x, |cfg.txs|)
    {
      SerialStep(cfg, s, c, a, s', x);
    }
    forall t | 0 <= t < |cfg.txs| ensures t in Accepted(s'.order) <==> TakenUp(cfg, s', t) {
      AcceptedStep(cfg, s, c, a, s', t);
    }
  }

  lemma SerialStep(cfg: Config, s: State, c: nat, a: Cluster.Action, s': State, x: int)
    requires cfg.Valid() && Steady(cfg, s) && OrderOk(cfg, s) && Step(cfg, s, c, a, s')
    ensures Serial(cfg, s'.order, x) == INITIAL_BALANCE + SumOver(cfg.txs, Accepted(s'.order), x, |cfg.txs|)
  {
    var v := Verdict(cfg, s, c, a);
    if v == [] {
      assert s'.order == s.order;
    } else {
      VerdictFair(cfg, s, c, a, s');
      AcceptedAppend(s.order, v[0]);
      SerialAppend(cfg, s.order, v[0], x);
      if v[0].accepted {
        SumOverInsert(cfg.txs, Accepted(s.order), a.t, x, |cfg.txs|);
      }
    }
  }

  lemma StepVerdicts(cfg: Config, s: State, c: nat, a: Cluster.Action, s': State)
    requires cfg.Valid() && Steady(cfg, s) && OrderOk(cfg, s) && Step(cfg, s, c, a, s')
    requires SameVerdicts(cfg, s.order) && AcceptedOnce(s.order)
    ensures SameVerdicts(cfg, s'.order) && AcceptedOnce(s'.order)
  {
    var v := Verdict(cfg, s, c, a);
    if v == [] {
      assert s'.order == s.order;
    } else {
      VerdictFair(cfg, s, c, a, s');
      VerdictsAppend(cfg, s.order, v[0]);
      OnceAppend(s.order, v[0]);
    }
  }

  lemma OnceAppend(order: seq<Decision>, d: Decision)
    requires AcceptedOnce(order) && (d.accepted ==> d.t !in Accepted(order))
    ensures AcceptedOnce(order + [d])
  {
    forall i | 0 <= i < |order| && order[i].accepted && d.accepted ensures order[i].t != d.t {
      assert order[i] in order;
    }
  }

  lemma StepOrdered(cfg: Config, s: State, c: nat, a: Cluster.Action, s': State)
    requires cfg.Valid() && Ordered(cfg, s) && Step(cfg, s, c, a, s') && !a.Fail?
    ensures Ordered(cfg, s')
  {
    StepSteady(cfg, s, c, a, s');
    StepOrder(cfg, s, c, a, s');
    StepVerdicts(cfg, s, c, a, s');
  }

  lemma InitOrdered(cfg: Config)
    requires cfg.Valid()
    ensures Ordered(cfg, Init(cfg))
  {
    Resubmission.InitAllSound(cfg);
    InitUnfailed(cfg);
    InitOrder(cfg);
  }

  lemma InitUnfailed(cfg: Config)
    ensures AllUnfailed(cfg, Init(cfg))
  {
    forall c | 0 <= c < |cfg.shards| ensures Unfailed(cfg, c, Init(cfg).cl[c]) {
      assert Init(cfg).cl[c] == Cluster.Init(cfg, c);
    }
  }

  lemma InitOrder(cfg: Config)
    requires cfg.Valid()
    ensures OrderOk(cfg, Init(cfg))
  {
    assert Accepted([]) == {};
    forall x {
      SumOverEmpty(cfg.txs, x, |cfg.txs|);
    }
    forall t | 0 <= t < |cfg.txs| ensures !TakenUp(cfg, Init(cfg), t) {
      assert cfg.ValidTransfer(cfg.txs[t]);
    }
  }

  lemma RunOrdered(cfg: Config, r: Run, i: nat)
    requires cfg.Valid() && r.Of(cfg) && r.NoFailure() && i < |r.states|
    ensures Ordered(cfg, r.states[i])
  {
    InitOrdered(cfg);
    forall s: State, c: nat, a: Cluster.Action, s': State | Ordered(cfg, s) && !a.Fail? && Step(cfg, s, c, a, s')
      ensures Ordered(cfg, s')
    {
      StepOrdered(cfg, s, c, a, s');
    }
    Throughout(cfg, r, (s: State, c: nat, a: Cluster.Action) => !a.Fail?, s => Ordered(cfg, s), i);
  }

  /***** Runs in which nothing is resubmitted *****/

  /** A request that was turned down stays so. */
  ghost predicate RefusalsStand(cfg: Config, s: State) {
    forall i | 0 <= i < |s.order| && !s.order[i].accepted ::
      s.order[i].t < |cfg.txs| && Coord(cfg, s, s.order[i].t).pc == Cluster.Rejected
  }

  /** A request that was accepted is not on its way to a refusal. */
  ghost predicate FirstTry(cfg: Config, s: State) {
    forall t | 0 <= t < |cfg.txs| && !cfg.txs[t].Cross() && Coord(cfg, s, t).first != 0 ::
      Coord(cfg, s, t).pc.Running? || Coord(cfg, s, t).pc.Done?
  }

  ghost predicate Fresh(cfg: Config, s: State) {
    Ordered(cfg, s) && OnceEach(s.order) && RefusalsStand(cfg, s) && FirstTry(cfg, s)
  }

  lemma StepRefusals(cfg: Config, s: State, c: nat, a: Cluster.Action, s': State)
    requires cfg.Valid() && Core(cfg, s) && RefusalsStand(cfg, s) && Step(cfg, s, c, a, s') && !a.Resend?
    ensures RefusalsStand(cfg, s')
  {
    forall i | 0 <= i < |s'.order| && !s'.order[i].accepted
      ensures s'.order[i].t < |cfg.txs| && Coord(cfg, s', s'.order[i].t).pc == Cluster.Rejected
    {
      if i < |s.order| {
        assert s'.order[i] == s.order[i];
        RefusalStays(cfg, s, c, a, s', s.order[i].t);
      } else {
        RefusedNow(cfg, s, c, a, s');
      }
    }
  }

  lemma RefusalStays(cfg: Config, s: State, c: nat, a: Cluster.Action, s': State, t: nat)
    requires cfg.Valid() && Core(cfg, s) && Step(cfg, s, c, a, s') && !a.Resend? && t < |cfg.txs|
    requires Coord(cfg, s, t).pc == Cluster.Rejected
    ensures Coord(cfg, s', t).pc == Cluster.Rejected
  {
    assert cfg.ValidTransfer(cfg.txs[t]);
    StepJob(cfg, s, c, a, s', cfg.txs[t].clusterFrom, t);
  }

  lemma RefusedNow(cfg: Config, s: State, c: nat, a: Cluster.Action, s': State)
    requires cfg.Valid() && Core(cfg, s) && Step(cfg, s, c, a, s') && |s'.order| > |s.order|
    ensures s'.order == s.order + Verdict(cfg, s, c, a) && |Verdict(cfg, s, c, a)| == 1
    ensures var d := s'.order[|s.order|];
            !d.accepted ==> d.t < |cfg.txs| && Coord(cfg, s', d.t).pc == Cluster.Rejected
  {
    if a.Reject? {
      StepJob(cfg, s, c, a, s', c, a.t);
    }
  }

  lemma StepFirstTry(cfg: Config, s: State, c: nat, a: Cluster.Action, s': State)
    requires cfg.Valid() && Core(cfg, s) && FirstTry(cfg, s) && Step(cfg, s, c, a, s') && !a.Resend?
    ensures FirstTry(cfg, s')
  {
    forall t | 0 <= t < |cfg.txs| && !cfg.txs[t].Cross() && Coord(cfg, s', t).first != 0
      ensures Coord(cfg, s', t).pc.Running? || Coord(cfg, s', t).pc.Done?
    {
      assert cfg.ValidTransfer(cfg.txs[t]);
      StepJob(cfg, s, c, a, s', cfg.txs[t].clusterFrom, t);
    }
  }

  lemma StepOnce(cfg: Config, s: State, c: nat, a: Cluster.Action, s': State)
    requires cfg.Valid() && Fresh(cfg, s) && Step(cfg, s, c, a, s')
    ensures OnceEach(s'.order)
  {
    if Verdict(cfg, s, c, a) != [] {
      NotDecided(cfg, s, c, a, s');
      forall i | 0 <= i < |s.order| ensures s.order[i].t != a.t {
        if s.order[i].accepted {
          assert s.order[i] in s.order;
        }
      }
    }
  }

  /** A request that is decided now was not decided before. */
  lemma NotDecided(cfg: Config, s: State, c: nat, a: Cluster.Action, s': State)
    requires cfg.Valid() && Fresh(cfg, s) && Step(cfg, s, c, a, s') && Verdict(cfg, s, c, a) != []
    ensures a.t !in Accepted(s.order) && Coord(cfg, s, a.t).pc != Cluster.Rejected
  {
    CrossSide(cfg, s, c, a.t);
    assert cfg.ValidTransfer(cfg.txs[a.t]) && Paired(cfg, s, a.t);
    VerdictFair(cfg, s, c, a, s');
  }

  lemma RunFresh(cfg: Config, r: Run, i: nat)
    requires cfg.Valid() && r.Of(cfg) && r.NoFailure() && r.NoResend() && i < |r.states|
    ensures Fresh(cfg, r.states[i])
  {
    InitFresh(cfg);
    forall s: State, c: nat, a: Cluster.Action, s': State
      | Fresh(cfg, s) && !a.Fail? && !a.Resend? && Step(cfg, s, c, a, s')
      ensures Fresh(cfg, s')
    {
      StepFresh(cfg, s, c, a, s');
    }
    Throughout(cfg, r, (s: State, c: nat, a: Cluster.Action) => !a.Fail? && !a.Resend?, s => Fresh(cfg, s), i);
  }

  lemma StepFresh(cfg: Config, s: State, c: nat, a: Cluster.Action, s': State)
    requires cfg.Valid() && Fresh(cfg, s) && Step(cfg, s, c, a, s') && !a.Fail? && !a.Resend?
    ensures Fresh(cfg, s')
  {
    StepOrdered(cfg, s, c, a, s');
    StepOnce(cfg, s, c, a, s');
    StepRefusals(cfg, s, c, a, s');
    StepFirstTry(cfg, s, c, a, s');
  }

  lemma InitFresh(cfg: Config)
    requires cfg.Valid()
    ensures Fresh(cfg, Init(cfg))
  {
    InitOrdered(cfg);
    forall t | 0 <= t < |cfg.txs| ensures Coord(cfg, Init(cfg), t).first == 0 {
      assert cfg.ValidTransfer(cfg.txs[t]);
    }
  }

  /***** The main results *****/

  /** Serialisability. In a run where every numbered consensus run commits, however often intra-shard
      requests are submitted, the history `order` is a serial execution: a single ledger that takes its
      requests one by one accepts exactly those the clusters accepted, each on its own balance check, and
      no request twice; where nothing is resubmitted every request is decided once. Once all requests
      are through, the balances of all clusters are those of that ledger. */
  lemma Serialisable(cfg: Config, r: Run, i: nat)
    requires cfg.Valid() && r.Of(cfg) && r.NoFailure() && i < |r.states|
    ensures SameVerdicts(cfg, r.states[i].order) && AcceptedOnce(r.states[i].order)
    ensures r.NoResend() ==> OnceEach(r.states[i].order)
    ensures Settled(cfg, r.states[i]) ==>
              forall c, x | 0 <= c < |r.states[i].cl| && x in r.states[i].cl[c].db.bal ::
                r.states[i].cl[c].db.bal[x] == Serial(cfg, r.states[i].order, x)
  {
    RunOrdered(cfg, r, i);
    if r.NoResend() {
      RunFresh(cfg, r, i);
    }
    var s := r.states[i];
    if Settled(cfg, s) {
      forall c, x | 0 <= c < |s.cl| && x in s.cl[c].db.bal
        ensures s.cl[c].db.bal[x] == Serial(cfg, s.order, x)
      {
        assert BalancesOk(cfg, c, s.cl[c]);
        SettledAccount(cfg, s, c, x);
      }
    }
  }

  /** The accepted requests are the committed ones: once all are through, a request is in the serial
      order exactly if its transfer, or its commit in both clusters, is in the logs. */
  lemma AcceptedIsCommitted(cfg: Config, r: Run, i: nat, t: nat)
    requires cfg.Valid() && r.Of(cfg) && r.NoFailure() && i < |r.states|
    requires Settled(cfg, r.states[i]) && t < |cfg.txs|
    ensures t in Accepted(r.states[i].order) <==>
            if cfg.txs[t].Cross()
            then Logs(r.states[i], cfg.txs[t].clusterFrom, t, C) && Logs(r.states[i], cfg.txs[t].clusterTo, t, C)
            else Logs(r.states[i], cfg.txs[t].clusterFrom, t, Plain)
  {
    RunOrdered(cfg, r, i);
    assert cfg.ValidTransfer(cfg.txs[t]);
    if cfg.txs[t].Cross() {
      CrossInLogs(cfg, r.states[i], t);
    } else {
      PlainInLogs(cfg, r.states[i], t);
    }
  }

  lemma PlainInLogs(cfg: Config, s: State, t: nat)
    requires cfg.Valid() && Steady(cfg, s) && Settled(cfg, s) && t < |cfg.txs| && !cfg.txs[t].Cross()
    ensures Coord(cfg, s, t).first != 0 <==> Logs(s, cfg.txs[t].clusterFrom, t, Plain)
  {
    var c := cfg.txs[t].clusterFrom;
    assert cfg.ValidTransfer(cfg.txs[t]) && Unfailed(cfg, c, s.cl[c]) && Resubmission.SoundSoFar(cfg, c, s.cl[c]);
    CrossSide(cfg, s, c, t);
    if Coord(cfg, s, t).first != 0 {
      NumberedSaved(cfg, c, s.cl[c], t);
      assert s.cl[c].log[Coord(cfg, s, t).first] == Entry(t, Plain);
    }
    if Logs(s, c, t, Plain) {
      var n :| n in s.cl[c].log && s.cl[c].log[n] == Entry(t, Plain);
      Cluster.EntryOwned(cfg, c, s.cl[c], n);
    }
  }

  lemma CrossInLogs(cfg: Config, s: State, t: nat)
    requires cfg.Valid() && Steady(cfg, s) && Settled(cfg, s) && t < |cfg.txs| && cfg.txs[t].Cross()
    ensures Part(cfg, s, t).pc != Cluster.Idle <==>
            Logs(s, cfg.txs[t].clusterFrom, t, C) && Logs(s, cfg.txs[t].clusterTo, t, C)
  {
    assert cfg.ValidTransfer(cfg.txs[t]) && Paired(cfg, s, t);
    CrossSide(cfg, s, cfg.txs[t].clusterFrom, t);
    CrossSide(cfg, s, cfg.txs[t].clusterTo, t);
    LogsIfDone(cfg, s, cfg.txs[t].clusterFrom, t);
    LogsIfDone(cfg, s, cfg.txs[t].clusterTo, t);
    if Logs(s, cfg.txs[t].clusterTo, t, C) {
      LoggedPhase(cfg, s, cfg.txs[t].clusterTo, t, C);
    }
  }

  lemma LogsIfDone(cfg: Config, s: State, c: nat, t: nat)
    requires Core(cfg, s) && c < |s.cl| && t < |cfg.txs|
    ensures Job(s, c, t).pc.Done? && Job(s, c, t).pc.ok ==> Logs(s, c, t, Job(s, c, t).pc.st)
  {
    assert Cluster.SideOk(cfg.txs[t], c, s.cl[c], t);
    var pc := Job(s, c, t).pc;
    if pc.Done? && pc.ok {
      assert s.cl[c].log[pc.n] == Entry(t, pc.st);
    }
  }
}

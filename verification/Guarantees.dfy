/** What the locks and the two-phase commit promise as long as nothing is resubmitted: no balance is
    ever negative, and who holds the locks. */
module Guarantees {
  import opened Transfers
  import opened Ledger
  import opened Solvency
  import opened TwoPhase
  import Cluster

  ghost predicate Safe(cfg: Config, c: nat, s: Cluster.State)
    requires c < |cfg.shards|
  {
    && Single(cfg, s)
    && (s.dead == {} ==> LocksOk(cfg, s))
    && Solvent(cfg, c, s)
    && Audited(cfg, c, s)
  }

  ghost predicate AllSafe(cfg: Config, s: State) {
    |s.cl| == |cfg.shards| && forall c | 0 <= c < |s.cl| :: Safe(cfg, c, s.cl[c])
  }

  lemma InitSafe(cfg: Config, c: nat)
    requires cfg.Valid() && c < |cfg.shards|
    ensures Safe(cfg, c, Cluster.Init(cfg, c))
  {
  }

  lemma StepSafe(cfg: Config, s: State, c: nat, a: Cluster.Action, s': State)
    requires cfg.Valid() && Core(cfg, s) && AllSafe(cfg, s) && Step(cfg, s, c, a, s') && !a.Resend?
    ensures AllSafe(cfg, s')
  {
    assert Safe(cfg, c, s.cl[c]);
    StepSingle(cfg, c, s.cl[c], a);
    StepLocks(cfg, c, s.cl[c], a);
    StepSolvent(cfg, c, s.cl[c], a);
    StepAudited(cfg, c, s.cl[c], a);
  }

  lemma InitAllSafe(cfg: Config)
    requires cfg.Valid()
    ensures Core(cfg, Init(cfg)) && AllSafe(cfg, Init(cfg))
  {
    InitCore(cfg);
    forall c | 0 <= c < |cfg.shards| {
      InitSafe(cfg, c);
    }
  }

  lemma RunSafe(cfg: Config, r: Run, i: nat)
    requires cfg.Valid() && r.Of(cfg) && r.NoResend() && i < |r.states|
    ensures Core(cfg, r.states[i]) && AllSafe(cfg, r.states[i])
  {
    InitAllSafe(cfg);
    forall s: State, c: nat, a: Cluster.Action, s': State | Core(cfg, s) && AllSafe(cfg, s) && !a.Resend?
        && Step(cfg, s, c, a, s')
      ensures Core(cfg, s') && AllSafe(cfg, s')
    {
      StepCore(cfg, s, c, a, s');
      StepSafe(cfg, s, c, a, s');
    }
    Throughout(cfg, r, (s: State, c: nat, a: Cluster.Action) => !a.Resend?, s => Core(cfg, s) && AllSafe(cfg, s), i);
  }

  /** No balance is ever negative: not at the leader, and not at any replica that has executed any
      prefix of the committed log, also when runs fail, release their locks and leave gaps. */
  lemma NeverNegative(cfg: Config, r: Run, i: nat, c: nat, k: nat)
    requires cfg.Valid() && r.Of(cfg) && r.NoResend() && i < |r.states| && c < |cfg.shards|
    requires 1 <= k && forall n | 1 <= n < k :: c < |r.states[i].cl| && n in r.states[i].cl[c].log
    ensures c < |r.states[i].cl| && NonNegative(r.states[i].cl[c].db.bal)
    ensures NonNegative(BalancesAt(cfg, c, r.states[i].cl[c], k))
  {
    RunSafe(cfg, r, i);
    assert Safe(cfg, c, r.states[i].cl[c]);
    PrefixesSolvent(cfg, c, r.states[i].cl[c], k);
  }

  /***** Who holds the locks *****/

  ghost predicate NoneDead(s: State) {
    forall c | 0 <= c < |s.cl| :: s.cl[c].dead == {}
  }

  lemma RunNoneDead(cfg: Config, r: Run, i: nat)
    requires r.Of(cfg) && r.NoFailure() && i < |r.states|
    ensures NoneDead(r.states[i])
  {
    forall s: State, c: nat, a: Cluster.Action, s': State | NoneDead(s) && !a.Fail? && Step(cfg, s, c, a, s')
      ensures NoneDead(s')
    {
      StepNoneDead(cfg, s, c, a, s');
    }
    Throughout(cfg, r, (s: State, c: nat, a: Cluster.Action) => !a.Fail?, s => NoneDead(s), i);
  }

  lemma StepNoneDead(cfg: Config, s: State, c: nat, a: Cluster.Action, s': State)
    requires NoneDead(s) && Step(cfg, s, c, a, s') && !a.Fail?
    ensures NoneDead(s')
  {
  }

  /** Lock exclusivity. Without failed runs, a leader's locks are exactly the accounts of the
      requests under way in its cluster, from acquisition until the executor has passed their last
      entry, and each account belongs to one of them only. */
  lemma LockExclusivity(cfg: Config, r: Run, i: nat, c: nat, x: int)
    requires cfg.Valid() && r.Of(cfg) && r.NoResend() && r.NoFailure() && i < |r.states| && c < |cfg.shards|
    ensures c < |r.states[i].cl| && |r.states[i].cl[c].jobs| == |cfg.txs|
    ensures x in r.states[i].cl[c].db.locks <==>
            exists t | 0 <= t < |cfg.txs| :: Holds(r.states[i].cl[c].jobs[t], r.states[i].cl[c].exec)
                && cfg.txs[t].Touches(x)
    ensures forall t, u | 0 <= t < |cfg.txs| && 0 <= u < |cfg.txs| && t != u
              && Holds(r.states[i].cl[c].jobs[t], r.states[i].cl[c].exec)
                 && Holds(r.states[i].cl[c].jobs[u], r.states[i].cl[c].exec) ::
              !(cfg.txs[t].Touches(x) && cfg.txs[u].Touches(x))
  {
    RunSafe(cfg, r, i);
    RunNoneDead(cfg, r, i);
    var s := r.states[i].cl[c];
    assert Safe(cfg, c, s);
    if x in s.db.locks {
      assert HasHolder(cfg, s, x);
    }
    forall t | 0 <= t < |cfg.txs| && Holds(s.jobs[t], s.exec) && cfg.txs[t].Touches(x) ensures x in s.db.locks {
      assert HeldLocked(cfg, s, t);
    }
    forall t, u | 0 <= t < |cfg.txs| && 0 <= u < |cfg.txs| && t != u && Holds(s.jobs[t], s.exec)
        && Holds(s.jobs[u], s.exec)
      ensures !(cfg.txs[t].Touches(x) && cfg.txs[u].Touches(x))
    {
      assert Unshared(cfg, s, t, u);
    }
  }
}

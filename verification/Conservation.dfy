/** Money is neither made nor lost: the clusters together always hold the initial total, up to the
    cross-shard transfers that have moved on one side only. */
module Conservation {
  import opened Transfers
  import opened Ledger
  import opened Solvency
  import opened TwoPhase
  import Cluster

  /** The sum of the balances of the accounts lo..hi. */
  ghost function Sum(bal: map<int, int>, lo: int, hi: int): int
    decreases hi - lo
  {
    if lo > hi then 0 else (if lo in bal then bal[lo] else 0) + Sum(bal, lo + 1, hi)
  }

  /** The money in the first `k` clusters. */
  ghost function Total(cfg: Config, s: State, k: nat): int {
    if k == 0 || k > |s.cl| || k > |cfg.shards| then 0
    else Total(cfg, s, k - 1) + Sum(s.cl[k - 1].db.bal, cfg.shards[k - 1].lo, cfg.shards[k - 1].hi)
  }

  ghost function SumDelta(tx: Transfer, lo: int, hi: int): int
    decreases hi - lo
  {
    if lo > hi then 0 else Delta(tx, lo) + SumDelta(tx, lo + 1, hi)
  }

  lemma {:induction false} SumDeltaIs(tx: Transfer, lo: int, hi: int)
    ensures SumDelta(tx, lo, hi) ==
            (if lo <= tx.to <= hi then tx.amount else 0) - (if lo <= tx.from <= hi then tx.amount else 0)
    decreases hi - lo
  {
    if lo <= hi {
      SumDeltaIs(tx, lo + 1, hi);
    }
  }

  ghost function SumMoved(txs: seq<Transfer>, sel: set<nat>, lo: int, hi: int, k: nat): int
    requires k <= |txs|
    decreases hi - lo
  {
    if lo > hi then 0 else SumOver(txs, sel, lo, k) + SumMoved(txs, sel, lo + 1, hi, k)
  }

  lemma {:induction false} SumMovedStep(txs: seq<Transfer>, sel: set<nat>, lo: int, hi: int, k: nat)
    requires 0 < k <= |txs|
    ensures SumMoved(txs, sel, lo, hi, k) ==
            SumMoved(txs, sel, lo, hi, k - 1) + (if k - 1 in sel then SumDelta(txs[k - 1], lo, hi) else 0)
    decreases hi - lo
  {
    if lo <= hi {
      SumMovedStep(txs, sel, lo + 1, hi, k);
    }
  }

  lemma {:induction false} SumMovedNone(txs: seq<Transfer>, sel: set<nat>, lo: int, hi: int)
    ensures SumMoved(txs, sel, lo, hi, 0) == 0
    decreases hi - lo
  {
    if lo <= hi {
      SumMovedNone(txs, sel, lo + 1, hi);
    }
  }

  lemma {:induction false} SumOfBalances(cfg: Config, c: nat, s: Cluster.State, lo: int)
    requires BalancesOk(cfg, c, s) && cfg.shards[c].lo <= lo
    ensures Sum(s.db.bal, lo, cfg.shards[c].hi) ==
            Sum(Initial(cfg.shards[c]), lo, cfg.shards[c].hi)
                + SumMoved(cfg.txs, MovedSet(s), lo, cfg.shards[c].hi, |cfg.txs|)
    decreases cfg.shards[c].hi - lo
  {
    if lo <= cfg.shards[c].hi {
      assert cfg.shards[c].Owns(lo);
      SumOfBalances(cfg, c, s, lo + 1);
    }
  }

  /** What the first `k` clusters have gained from the first `m` requests. */
  ghost function Gain(cfg: Config, s: State, k: nat, m: nat): int
    requires m <= |cfg.txs|
  {
    if k == 0 || k > |s.cl| || k > |cfg.shards| then 0
    else Gain(cfg, s, k - 1, m) + SumMoved(cfg.txs, MovedSet(s.cl[k - 1]), cfg.shards[k - 1].lo, cfg.shards[k - 1].hi,
                                           m)
  }

  lemma {:induction false} TotalIs(cfg: Config, s: State, k: nat)
    requires |s.cl| == |cfg.shards| && (forall c | 0 <= c < |s.cl| :: BalancesOk(cfg, c, s.cl[c])) && k <= |s.cl|
    ensures Total(cfg, s, k) == Total(cfg, Init(cfg), k) + Gain(cfg, s, k, |cfg.txs|)
  {
    if k > 0 {
      TotalIs(cfg, s, k - 1);
      SumOfBalances(cfg, k - 1, s.cl[k - 1], cfg.shards[k - 1].lo);
    }
  }

  ghost predicate MovedAt(s: State, c: nat, t: nat) {
    c < |s.cl| && t in MovedSet(s.cl[c])
  }

  /** Request `m - 1` changes the first `k` clusters by its credit and its debit, as far as their
      clusters are among them and have executed them. */
  lemma {:induction false} GainStep(cfg: Config, s: State, k: nat, m: nat)
    requires cfg.Valid() && |s.cl| == |cfg.shards| && k <= |s.cl| && 0 < m <= |cfg.txs|
    ensures var tx := cfg.txs[m - 1];
            Gain(cfg, s, k, m) == Gain(cfg, s, k, m - 1)
              + (if tx.clusterTo < k && MovedAt(s, tx.clusterTo, m - 1) then tx.amount else 0)
              - (if tx.clusterFrom < k && MovedAt(s, tx.clusterFrom, m - 1) then tx.amount else 0)
  {
    if k > 0 {
      var tx, shard := cfg.txs[m - 1], cfg.shards[k - 1];
      GainStep(cfg, s, k - 1, m);
      SumMovedStep(cfg.txs, MovedSet(s.cl[k - 1]), shard.lo, shard.hi, m);
      SumDeltaIs(tx, shard.lo, shard.hi);
      assert cfg.ValidTransfer(tx);
      assert shard.Owns(tx.from) <==> tx.clusterFrom == k - 1;
      assert shard.Owns(tx.to) <==> tx.clusterTo == k - 1;
    }
  }

  /** The amounts of the first `m` requests that have been debited and not credited. */
  ghost function Uncredited(cfg: Config, s: State, m: nat): int {
    if m == 0 || m > |cfg.txs| then 0
    else
      var tx := cfg.txs[m - 1];
      Uncredited(cfg, s, m - 1)
      + (if MovedAt(s, tx.clusterFrom, m - 1) && !MovedAt(s, tx.clusterTo, m - 1) then tx.amount else 0)
  }

  /** The amounts of the first `m` requests that have been credited and not debited. */
  ghost function Undebited(cfg: Config, s: State, m: nat): int {
    if m == 0 || m > |cfg.txs| then 0
    else
      var tx := cfg.txs[m - 1];
      Undebited(cfg, s, m - 1)
      + (if MovedAt(s, tx.clusterTo, m - 1) && !MovedAt(s, tx.clusterFrom, m - 1) then tx.amount else 0)
  }

  lemma {:induction false} GainNone(cfg: Config, s: State, k: nat)
    ensures Gain(cfg, s, k, 0) == 0
  {
    if 0 < k <= |s.cl| && k <= |cfg.shards| {
      GainNone(cfg, s, k - 1);
      SumMovedNone(cfg.txs, MovedSet(s.cl[k - 1]), cfg.shards[k - 1].lo, cfg.shards[k - 1].hi);
    }
  }

  lemma {:induction false} GainIs(cfg: Config, s: State, m: nat)
    requires cfg.Valid() && |s.cl| == |cfg.shards| && m <= |cfg.txs|
    ensures Gain(cfg, s, |s.cl|, m) == Undebited(cfg, s, m) - Uncredited(cfg, s, m)
  {
    if m == 0 {
      GainNone(cfg, s, |s.cl|);
    } else {
      GainIs(cfg, s, m - 1);
      GainStep(cfg, s, |s.cl|, m);
      assert cfg.ValidTransfer(cfg.txs[m - 1]);
    }
  }

  /** Conservation, in every state of every run: the balances of all clusters, plus the debits
      executed without their credit, minus the credits executed without their debit, are what the
      system started with. A prepare that an abort has undone counts as not executed. */
  lemma Conserved(cfg: Config, r: Run, i: nat)
    requires cfg.Valid() && r.Of(cfg) && i < |r.states|
    ensures Total(cfg, r.states[i], |cfg.shards|)
            + Uncredited(cfg, r.states[i], |cfg.txs|) - Undebited(cfg, r.states[i], |cfg.txs|)
         == Total(cfg, r.states[0], |cfg.shards|)
  {
    RunCore(cfg, r, i);
    TotalIs(cfg, r.states[i], |cfg.shards|);
    GainIs(cfg, r.states[i], |cfg.txs|);
  }

  /** A side that never prepared, or whose decision has been executed. */
  predicate Through(sd: Cluster.Side, exec: nat) {
    !sd.saved || (sd.pc.Done? && (sd.pc.st == C || sd.pc.st == A) && sd.pc.ok && sd.pc.n < exec)
  }

  ghost predicate ThroughOnBothSides(cfg: Config, s: State) {
    forall t | 0 <= t < |cfg.txs| && cfg.txs[t].Cross() && cfg.txs[t].clusterFrom < |s.cl|
        && cfg.txs[t].clusterTo < |s.cl| ::
      && Through(Coord(cfg, s, t), s.cl[cfg.txs[t].clusterFrom].exec)
      && Through(Part(cfg, s, t), s.cl[cfg.txs[t].clusterTo].exec)
  }

  lemma BothSidesMove(cfg: Config, s: State, t: nat)
    requires cfg.Valid() && Core(cfg, s) && ThroughOnBothSides(cfg, s) && t < |cfg.txs|
    ensures MovedAt(s, cfg.txs[t].clusterFrom, t) <==> MovedAt(s, cfg.txs[t].clusterTo, t)
  {
    var tx := cfg.txs[t];
    assert cfg.ValidTransfer(tx) && Paired(cfg, s, t);
    assert Cluster.SideOk(tx, tx.clusterFrom, s.cl[tx.clusterFrom], t);
    assert Cluster.SideOk(tx, tx.clusterTo, s.cl[tx.clusterTo], t);
  }

  lemma {:induction false} NothingOpen(cfg: Config, s: State, m: nat)
    requires forall t | 0 <= t < |cfg.txs| :: MovedAt(s, cfg.txs[t].clusterFrom, t) <==>
             MovedAt(s, cfg.txs[t].clusterTo, t)
    ensures Uncredited(cfg, s, m) == 0 && Undebited(cfg, s, m) == 0
  {
    if 0 < m <= |cfg.txs| {
      NothingOpen(cfg, s, m - 1);
    }
  }

  /** When every cross-shard transfer is decided and executed on both sides, the clusters hold the
      initial total again, whichever way the transfers were decided and whatever runs failed. */
  lemma ConservedWhenThrough(cfg: Config, r: Run, i: nat)
    requires cfg.Valid() && r.Of(cfg) && i < |r.states| && ThroughOnBothSides(cfg, r.states[i])
    ensures Total(cfg, r.states[i], |cfg.shards|) == Total(cfg, r.states[0], |cfg.shards|)
  {
    Conserved(cfg, r, i);
    RunCore(cfg, r, i);
    forall t | 0 <= t < |cfg.txs| {
      BothSidesMove(cfg, r.states[i], t);
    }
    NothingOpen(cfg, r.states[i], |cfg.txs|);
  }
}

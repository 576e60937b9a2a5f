/** What the whole system guarantees on every non-faulty replica of every cluster. */
module EndToEnd {
  import opened Transfers
  import opened Messages
  import opened Ledger
  import opened Replay
  import opened Solvency
  import opened System
  import Cluster
  import TwoPhase
  import Guarantees
  import Serialisability
  import Consensus
  import SingleView
  import Certificates
  import Credit
  import Resubmission

  /** Replica agreement, also with failed runs and resubmissions. A non-faulty backup has executed
      exactly the first entries of one common log of its cluster, the one its leader stores, and its
      balances are those the common log stands for, whatever the order in which it stored them; so two
      replicas that have executed equally many entries have equal balances. */
  lemma ReplicaAgreement(w: World, run: Run, i: nat, c: nat, r: nat)
    requires w.Valid() && run.Of(w) && i < |run.states| && c < |w.su|
    requires r in w.su[c].honest && r != w.su[c].Leader(1)
    ensures Sized(w, run.states[i]) && r < |run.states[i].groups[c].replicas| && r < |run.states[i].books[c]|
    ensures var log, books := run.states[i].ledger.cl[c].log, run.states[i].books[c][r];
            && (forall n | 1 <= n < books.exec :: n in log && n in run.states[i].groups[c].replicas[r].store
                                                 && run.states[i].groups[c].replicas[r].store[n] == log[n])
            && books.db.bal == After(w.cfg.txs, Initial(w.cfg.shards[c]), log, books.exec)
            && (run.states[i].ledger.cl[c].exec == books.exec ==> run.states[i].ledger.cl[c].db.bal == books.db.bal)
  {
    RunSystem(w, run, i);
    var s := run.states[i];
    assert ClusterOk(w.cfg, w.su[c], c, s.ledger.cl[c], s.groups[c], s.books[c]);
    assert BackupOk(w.cfg, w.su[c], c, s.ledger.cl[c].log, s.groups[c], s.books[c], r);
    StoredInLog(w.cfg, w.su[c], s.ledger.cl[c], s.groups[c], r);
  }

  /** Replica `r` of cluster `c` has stored, at number `m`, request `t` in phase `st`. */
  ghost predicate Stores(s: State, c: nat, r: nat, m: nat, t: nat, st: Status) {
    c < |s.groups| && r < |s.groups[c].replicas| && m in s.groups[c].replicas[r].store
    && s.groups[c].replicas[r].store[m] == Entry(t, st)
  }

  /** At most once: however often it is submitted, an intra-shard request is stored, by all non-faulty
      replicas of all clusters together, at one number of one cluster. */
  lemma StoredOnce(w: World, run: Run, i: nat, t: nat, c: nat, r: nat, m: nat, st: Status, c': nat, r': nat, m': nat,
                   st': Status)
    requires w.Valid() && run.Of(w) && i < |run.states| && t < |w.cfg.txs| && !w.cfg.txs[t].Cross()
    requires c < |w.su| && r in w.su[c].honest && Stores(run.states[i], c, r, m, t, st)
    requires c' < |w.su| && r' in w.su[c'].honest && Stores(run.states[i], c', r', m', t, st')
    ensures c == c' == w.cfg.txs[t].clusterFrom && m == m' && st == st' == Plain
  {
    RunSystem(w, run, i);
    var s := run.states[i];
    StoredAtFirst(w, s, t, c, r, m, st);
    StoredAtFirst(w, s, t, c', r', m', st');
  }

  lemma StoredAtFirst(w: World, s: State, t: nat, c: nat, r: nat, m: nat, st: Status)
    requires w.Valid() && SystemInv(w, s) && t < |w.cfg.txs| && !w.cfg.txs[t].Cross()
    requires c < |w.su| && r in w.su[c].honest && Stores(s, c, r, m, t, st)
    ensures c == w.cfg.txs[t].clusterFrom && st == Plain && t < |s.ledger.cl[c].jobs|
            && m == s.ledger.cl[c].jobs[t].first
  {
    var cl := s.ledger.cl[c];
    assert ClusterOk(w.cfg, w.su[c], c, cl, s.groups[c], s.books[c]);
    StoredInLog(w.cfg, w.su[c], cl, s.groups[c], r);
    Cluster.EntryOwned(w.cfg, c, cl, m);
    assert Cluster.SideOk(w.cfg.txs[t], c, cl, t);
  }

  /***** The books of a replica *****/

  /** The balances of a non-faulty replica; the leader's are in its cluster. */
  function BalancesOf(w: World, s: State, c: nat, r: nat): map<int, int>
    requires Sized(w, s) && c < |w.su| && (r == w.su[c].Leader(1) || r < |s.books[c]|)
  {
    if r == w.su[c].Leader(1) then s.ledger.cl[c].db.bal else s.books[c][r].db.bal
  }

  /** The number the replica executes next. */
  function ExecOf(w: World, s: State, c: nat, r: nat): nat
    requires Sized(w, s) && c < |w.su| && (r == w.su[c].Leader(1) || r < |s.books[c]|)
  {
    if r == w.su[c].Leader(1) then s.ledger.cl[c].exec else s.books[c][r].exec
  }

  /** Replica `r` keeps books in this state. */
  ghost predicate Known(w: World, s: State, c: nat, r: nat)
    requires |w.su| == |w.cfg.shards|
  {
    Sized(w, s) && c < |w.su| && (r == w.su[c].Leader(1) || r < |s.books[c]|)
  }

  lemma ReplicaBooks(w: World, run: Run, i: nat, c: nat, r: nat)
    requires w.Valid() && run.Of(w) && i < |run.states| && c < |w.su| && r in w.su[c].honest
    ensures var s := run.states[i];
            && SystemInv(w, s) && Known(w, s, c, r) && ExecOf(w, s, c, r) >= 1
            && (forall n | 1 <= n < ExecOf(w, s, c, r) :: n in s.ledger.cl[c].log)
            && BalancesOf(w, s, c, r) == After(w.cfg.txs, Initial(w.cfg.shards[c]), s.ledger.cl[c].log,
                                               ExecOf(w, s, c, r))
  {
    RunSystem(w, run, i);
    var cl := run.states[i].ledger.cl[c];
    assert Cluster.Basic(w.cfg, c, cl) && Replayed(w.cfg, c, cl);
    if r != w.su[c].Leader(1) {
      ReplicaAgreement(w, run, i, c, r);
      assert BackupOk(w.cfg, w.su[c], c, cl.log, run.states[i].groups[c], run.states[i].books[c], r) by {
        assert ClusterOk(w.cfg, w.su[c], c, cl, run.states[i].groups[c], run.states[i].books[c]);
      }
    }
  }

  /** An aborted transfer leaves no trace. A replica that has executed an abort of request `t` whose
      prepare its cluster has committed holds the balances of the log in which neither has any effect. */
  lemma UndoneOnReplica(w: World, run: Run, i: nat, c: nat, r: nat, t: nat, p: nat, a: nat)
    requires w.Valid() && run.Of(w) && i < |run.states| && c < |w.su| && r in w.su[c].honest
    requires c < |run.states[i].ledger.cl| && t < |w.cfg.txs|
    requires var log := run.states[i].ledger.cl[c].log;
             p in log && log[p] == Entry(t, P) && a in log && log[a] == Entry(t, A)
    requires Known(w, run.states[i], c, r) && a < ExecOf(w, run.states[i], c, r)
    ensures var s := run.states[i];
            && p < a
            && BalancesOf(w, s, c, r) ==
               After(w.cfg.txs, Initial(w.cfg.shards[c]), Without(s.ledger.cl[c].log, p, a), ExecOf(w, s, c, r))
  {
    ReplicaBooks(w, run, i, c, r);
    var cl, k := run.states[i].ledger.cl[c], ExecOf(w, run.states[i], c, r);
    OnePair(w.cfg, c, cl, t, p, a, k);
    ExactUndo(w.cfg.txs, Initial(w.cfg.shards[c]), cl.log, t, p, a, k, k);
  }

  /** A log holds at most one prepare and one abort of a request, in this order. */
  lemma OnePair(cfg: Config, c: nat, s: Cluster.State, t: nat, p: nat, a: nat, k: nat)
    requires cfg.Valid() && Cluster.Basic(cfg, c, s) && a < k
    requires p in s.log && s.log[p] == Entry(t, P) && a in s.log && s.log[a] == Entry(t, A)
    ensures PreparedThenAborted(s.log, t, p, a, k)
  {
    Cluster.EntryOwned(cfg, c, s, p);
    Cluster.EntryOwned(cfg, c, s, a);
    assert Cluster.SideOk(cfg.txs[t], c, s, t);
    forall n | n in s.log && 1 <= n < k && n != p && n != a ensures s.log[n].t != t {
      Cluster.EntryOwned(cfg, c, s, n);
    }
  }

  /** A transfer moves its money once. A replica that has executed the first-phase entry of request `t`,
      at `m`, and no abort of it holds the balances of the log in which that entry has no effect, plus
      one application of the transfer: no other entry and no resubmission has applied it again. */
  lemma AppliedOnce(w: World, run: Run, i: nat, c: nat, r: nat, t: nat, m: nat)
    requires w.Valid() && run.Of(w) && i < |run.states| && c < |w.su| && r in w.su[c].honest
    requires c < |run.states[i].ledger.cl| && t < |w.cfg.txs| && Known(w, run.states[i], c, r)
    requires var log, k := run.states[i].ledger.cl[c].log, ExecOf(w, run.states[i], c, r);
             && m < k && m in log && log[m] == Entry(t, w.cfg.txs[t].FirstStatus())
             && forall n | n in log && n < k :: log[n] != Entry(t, A)
    ensures var s := run.states[i];
            BalancesOf(w, s, c, r) ==
            Apply(After(w.cfg.txs, Initial(w.cfg.shards[c]), s.ledger.cl[c].log[m := Entry(t, C)], ExecOf(w, s, c, r)),
                  w.cfg.txs[t])
  {
    ReplicaBooks(w, run, i, c, r);
    var cl, k := run.states[i].ledger.cl[c], ExecOf(w, run.states[i], c, r);
    OneMove(w.cfg, c, cl, t, m, k);
    OnlyMove(w.cfg.txs, Initial(w.cfg.shards[c]), cl.log, t, m, k, k);
  }

  /** A log holds at most one first-phase entry of a request. */
  lemma OneMove(cfg: Config, c: nat, s: Cluster.State, t: nat, m: nat, k: nat)
    requires Cluster.Basic(cfg, c, s) && t < |cfg.txs| && m in s.log && s.log[m] == Entry(t, cfg.txs[t].FirstStatus())
    requires forall n | n in s.log && n < k :: s.log[n] != Entry(t, A)
    ensures m >= 1 && forall n | n in s.log && 1 <= n < k && n != m && s.log[n].t == t :: s.log[n].st == C
  {
    Cluster.EntryOwned(cfg, c, s, m);
    forall n | n in s.log && 1 <= n < k && n != m && s.log[n].t == t ensures s.log[n].st == C {
      Cluster.EntryOwned(cfg, c, s, n);
    }
  }

  /***** No balance below zero *****/

  /** Every failure of a commit or abort run in this run is harmless. */
  ghost predicate HarmlessRun(w: World, run: Run) {
    |run.states| > |run.actions| && forall i | 0 <= i < |run.actions| :: HarmlessStep(w, run.states[i], run.actions[i])
  }

  ghost predicate HarmlessStep(w: World, s: State, x: Action) {
    x.Handle? ==> Resubmission.HarmlessStep(w.cfg, s.ledger, x.c, x.a)
  }

  lemma StepAllSafe(w: World, s: State, x: Action, s': State)
    requires w.Valid() && SystemInv(w, s) && Guarantees.AllSafe(w.cfg, s.ledger) && !Resending(x) && Step(w, s, x, s')
    ensures SystemInv(w, s') && Guarantees.AllSafe(w.cfg, s'.ledger)
  {
    StepInv(w, s, x, s');
    if x.Handle? {
      Guarantees.StepSafe(w.cfg, s.ledger, x.c, x.a, s'.ledger);
    }
  }

  lemma RunSafe(w: World, run: Run, i: nat)
    requires w.Valid() && run.Of(w) && run.NoResend() && i < |run.states|
    ensures Guarantees.AllSafe(w.cfg, run.states[i].ledger)
  {
    InitInv(w);
    Guarantees.InitAllSafe(w.cfg);
    forall s: State, x: Action, s': State
      | SystemInv(w, s) && Guarantees.AllSafe(w.cfg, s.ledger) && !Resending(x) && Step(w, s, x, s')
      ensures SystemInv(w, s') && Guarantees.AllSafe(w.cfg, s'.ledger)
    {
      StepAllSafe(w, s, x, s');
    }
    Throughout(w, run, (s: State, x: Action) => !Resending(x),
               (s: State) => SystemInv(w, s) && Guarantees.AllSafe(w.cfg, s.ledger), i);
  }

  lemma RunSound(w: World, run: Run, i: nat)
    requires w.Valid() && run.Of(w) && HarmlessRun(w, run) && i < |run.states|
    ensures Resubmission.AllSound(w.cfg, run.states[i].ledger)
  {
    InitInv(w);
    Resubmission.InitAllSound(w.cfg);
    forall s: State, x: Action, s': State
      | SystemInv(w, s) && Resubmission.AllSound(w.cfg, s.ledger) && HarmlessStep(w, s, x) && Step(w, s, x, s')
      ensures SystemInv(w, s') && Resubmission.AllSound(w.cfg, s'.ledger)
    {
      StepInv(w, s, x, s');
      if x.Handle? {
        Resubmission.StepSound(w.cfg, s.ledger, x.c, x.a, s'.ledger);
      }
    }
    Throughout(w, run, (s: State, x: Action) => HarmlessStep(w, s, x),
               (s: State) => SystemInv(w, s) && Resubmission.AllSound(w.cfg, s.ledger), i);
  }

  /** No gap-free prefix of a cluster's common log overdraws an account, however far its replicas have
      executed it, in runs without resubmission and in runs whose failed second-phase runs are harmless. */
  lemma NoPrefixNegative(w: World, run: Run, i: nat, c: nat, k: nat)
    requires w.Valid() && run.Of(w) && (run.NoResend() || HarmlessRun(w, run)) && i < |run.states| && c < |w.su|
    requires 1 <= k && forall n | 1 <= n < k :: c < |run.states[i].ledger.cl| && n in run.states[i].ledger.cl[c].log
    ensures c < |run.states[i].ledger.cl|
    ensures NonNegative(After(w.cfg.txs, Initial(w.cfg.shards[c]), run.states[i].ledger.cl[c].log, k))
  {
    RunSystem(w, run, i);
    var cl := run.states[i].ledger.cl[c];
    assert Cluster.Basic(w.cfg, c, cl) && BalancesOk(w.cfg, c, cl) && Replayed(w.cfg, c, cl);
    if run.NoResend() {
      RunSafe(w, run, i);
      assert Guarantees.Safe(w.cfg, c, cl);
      PrefixesSolvent(w.cfg, c, cl, k);
    } else {
      RunSound(w, run, i);
      assert Resubmission.SoundSoFar(w.cfg, c, cl);
      Resubmission.AnyPrefix(w.cfg, c, cl, k);
    }
  }

  /** No balance of any non-faulty replica of any cluster is ever negative: with failures of any runs if
      nothing is resubmitted, and with resubmissions if the failed second-phase runs are harmless. */
  lemma NoReplicaNegative(w: World, run: Run, i: nat, c: nat, r: nat)
    requires w.Valid() && run.Of(w) && (run.NoResend() || HarmlessRun(w, run))
    requires i < |run.states| && c < |w.su| && r in w.su[c].honest
    ensures Known(w, run.states[i], c, r) && NonNegative(BalancesOf(w, run.states[i], c, r))
  {
    ReplicaBooks(w, run, i, c, r);
    NoPrefixNegative(w, run, i, c, ExecOf(w, run.states[i], c, r));
  }

  /***** Runs in which every numbered consensus run commits *****/

  lemma RunOrdered(w: World, run: Run, i: nat)
    requires w.Valid() && run.Of(w) && run.NoFailure() && i < |run.states|
    ensures Serialisability.Ordered(w.cfg, run.states[i].ledger)
  {
    Serialisability.InitOrdered(w.cfg);
    forall s: State, x: Action, s': State
      | Serialisability.Ordered(w.cfg, s.ledger) && !Failing(x) && Step(w, s, x, s')
      ensures Serialisability.Ordered(w.cfg, s'.ledger)
    {
      StepOrdered(w, s, x, s');
    }
    Throughout(w, run, (s: State, x: Action) => !Failing(x),
               (s: State) => Serialisability.Ordered(w.cfg, s.ledger), i);
  }

  lemma StepOrdered(w: World, s: State, x: Action, s': State)
    requires w.Valid() && Serialisability.Ordered(w.cfg, s.ledger) && !Failing(x) && Step(w, s, x, s')
    ensures Serialisability.Ordered(w.cfg, s'.ledger)
  {
    if x.Handle? {
      Serialisability.StepOrdered(w.cfg, s.ledger, x.c, x.a, s'.ledger);
    }
  }

  lemma RunFresh(w: World, run: Run, i: nat)
    requires w.Valid() && run.Of(w) && run.NoFailure() && run.NoResend() && i < |run.states|
    ensures Serialisability.Fresh(w.cfg, run.states[i].ledger)
  {
    Serialisability.InitFresh(w.cfg);
    forall s: State, x: Action, s': State
      | Serialisability.Fresh(w.cfg, s.ledger) && !Failing(x) && !Resending(x) && Step(w, s, x, s')
      ensures Serialisability.Fresh(w.cfg, s'.ledger)
    {
      StepFresh(w, s, x, s');
    }
    Throughout(w, run, (s: State, x: Action) => !Failing(x) && !Resending(x),
               (s: State) => Serialisability.Fresh(w.cfg, s.ledger), i);
  }

  lemma StepFresh(w: World, s: State, x: Action, s': State)
    requires w.Valid() && Serialisability.Fresh(w.cfg, s.ledger) && !Failing(x) && !Resending(x) && Step(w, s, x, s')
    ensures Serialisability.Fresh(w.cfg, s'.ledger)
  {
    if x.Handle? {
      Serialisability.StepFresh(w.cfg, s.ledger, x.c, x.a, s'.ledger);
    }
  }

  /** Serialisability on the replicas. When every numbered consensus run commits and all requests are
      through, however often they were submitted, any non-faulty replica that has executed as far as its
      leader holds the balances of the one global ledger that takes the requests one at a time, reaches
      the same verdicts on them and accepts none twice. */
  lemma ReplicasSerialisable(w: World, run: Run, i: nat, c: nat, r: nat, x: int)
    requires w.Valid() && run.Of(w) && run.NoFailure() && i < |run.states| && c < |w.su| && r in w.su[c].honest
    ensures Known(w, run.states[i], c, r)
    ensures var order := run.states[i].ledger.order;
            && Serialisability.SameVerdicts(w.cfg, order) && Serialisability.AcceptedOnce(order)
            && (run.NoResend() ==> Serialisability.OnceEach(order))
    ensures var s := run.states[i];
            Serialisability.Settled(w.cfg, s.ledger) && ExecOf(w, s, c, r) == s.ledger.cl[c].exec
            && w.cfg.shards[c].Owns(x) ==>
              && x in BalancesOf(w, s, c, r)
              && BalancesOf(w, s, c, r)[x] == Serialisability.Serial(w.cfg, s.ledger.order, x)
  {
    RunOrdered(w, run, i);
    if run.NoResend() {
      RunFresh(w, run, i);
    }
    ReplicaBooks(w, run, i, c, r);
    var s := run.states[i];
    if Serialisability.Settled(w.cfg, s.ledger) && ExecOf(w, s, c, r) == s.ledger.cl[c].exec
        && w.cfg.shards[c].Owns(x) {
      assert Replayed(w.cfg, c, s.ledger.cl[c]);
      Serialisability.SettledAccount(w.cfg, s.ledger, c, x);
    }
  }

  /***** A credit has a debit quorum behind it *****/

  function CreditWorld(w: World): Credit.World {
    Credit.World(w.cfg, w.su)
  }

  /** What a step of the system is to the groups alone. */
  function GroupStep(x: Action): Credit.Action {
    match x
    case Handle(c, _, part, commits) => if part == [] then Credit.Rest else Credit.Move(c, part[0], commits)
    case Exchange(c, b) => Credit.Move(c, b, [])
    case Execute(_, _) => Credit.Rest
  }

  /** The run of the groups alone. */
  function Groups(run: Run): Credit.Run {
    Credit.Run(seq(|run.states|, i requires 0 <= i < |run.states| => run.states[i].groups),
               seq(|run.actions|, i requires 0 <= i < |run.actions| => GroupStep(run.actions[i])))
  }

  lemma StepNext(w: World, s: State, x: Action, s': State)
    requires w.Valid() && Step(w, s, x, s')
    ensures Credit.Next(CreditWorld(w), s.groups, GroupStep(x), s'.groups)
  {
    if x.Handle? {
      if x.part == [] {
        assert s'.groups == s.groups;
      } else {
        ProposalChecked(w, s, x.c, x.a, x.part, x.commits, s');
      }
    }
  }

  /** The leader's proposals of credits are the ones it has checked a certificate for. */
  lemma ProposalChecked(w: World, s: State, c: nat, a: Cluster.Action, part: seq<Consensus.Action>,
                        commits: seq<Certificates.Signed>, s': State)
    requires w.Valid() && Sized(w, s) && c < |w.su| && HandleStep(w, s, c, a, part, commits, s') && part != []
    ensures Credit.Checked(CreditWorld(w), s.groups, c, part[0], commits)
  {
  }

  lemma GroupsRun(w: World, run: Run)
    requires w.Valid() && run.Of(w)
    ensures Groups(run).Of(CreditWorld(w))
  {
    var gs := Groups(run);
    forall i | 0 <= i < |gs.actions|
      ensures Credit.Next(CreditWorld(w), gs.states[i], gs.actions[i], gs.states[i + 1])
    {
      StepNext(w, run.states[i], run.actions[i], run.states[i + 1]);
    }
  }

  /** A credit implies a debit quorum. When a non-faulty replica of the participant cluster has
      committed the prepare of a cross-shard transfer, 2f+1 replicas of the coordinator cluster have
      signed commits for it, and at least f+1 non-faulty ones of them were prepared on it. The
      participant's certificate check alone forces this, in runs of any kind. */
  lemma CreditImpliesDebit(w: World, run: Run, i: nat, r: nat, t: nat, m: nat)
    requires w.Valid() && run.Of(w) && i < |run.states| && t < |w.cfg.txs| && w.cfg.txs[t].Cross()
    requires w.cfg.txs[t].clusterTo < |w.su| && r in w.su[w.cfg.txs[t].clusterTo].honest
    requires Stores(run.states[i], w.cfg.txs[t].clusterTo, r, m, t, P)
    ensures Credit.Backed(CreditWorld(w), Groups(run), i, w.cfg.txs[t].clusterFrom, t)
  {
    RunSystem(w, run, i);
    GroupsRun(w, run);
    var s, c := run.states[i], w.cfg.txs[t].clusterTo;
    var su, g := w.su[c], s.groups[c];
    assert ClusterOk(w.cfg, su, c, s.ledger.cl[c], g, s.books[c]);
    StoredProposal(su, g, r, m);
    Credit.ProposalImpliesDebit(CreditWorld(w), Groups(run), i, c, g.replicas[r].pre[m]);
  }

  /** A stored entry was pre-prepared by the leader in the same phase. */
  lemma StoredProposal(su: Consensus.Setup, g: Consensus.Group, r: nat, m: nat)
    requires su.Valid() && SingleView.Following(su, g) && r in su.honest && r < |g.replicas| && m in g.replicas[r].store
    ensures m in g.replicas[r].pre && g.replicas[r].pre[m] in g.net.pre && g.replicas[r].pre[m].view == 1
    ensures var e, pp := g.replicas[r].store[m], g.replicas[r].pre[m]; pp.digest == Of(e.t) && pp.st == e.st
  {
    assert SingleView.ReplicaOk(su, r, g.replicas[r]) && SingleView.StoredOk(g.replicas[r], m);
    assert SingleView.PreOk(g.replicas[r], m);
    assert Consensus.EntryOk(su, g.net, g.replicas[r], m);
  }
}

/** Why a credit has a debit behind it: the leader of the participant cluster proposes the prepare of a
    transfer only on a certificate of the coordinator cluster's commits. The certificate is honestly
    collected: one vote of each signer, for one view and number; whoever sends it, a list that repeats a
    signer proves nothing. Otherwise nothing is assumed of the coordinator's leader; views may change
    and requests may be sent again. */
module Credit {
  import opened Transfers
  import opened Messages
  import opened Certificates
  import opened Consensus
  import opened AllViews
  import Replica

  datatype World = World(cfg: Config, su: seq<Setup>) {
    ghost predicate Valid() {
      && |su| == |cfg.shards|
      && (forall t | 0 <= t < |cfg.txs| :: cfg.ValidTransfer(cfg.txs[t]))
      && (forall c | 0 <= c < |su| :: su[c].Valid())
      && (forall b, c | 0 <= b < |su| && 0 <= c < |su| :: su[b].f == su[c].f)
    }
  }

  /** A step of one cluster's group; `commits` is the certificate that comes with a proposal, if any. */
  datatype Action = Rest | Move(c: nat, b: Consensus.Action, commits: seq<Signed>)

  /** The certificate passes the participant's count, and it was collected honestly: it holds one vote
      of each of its signers, which are replicas of the coordinator cluster and have sent them. */
  ghost predicate Passes(f: nat, su: Setup, net: Net, t: nat, commits: seq<Signed>) {
    && |Matching(commits, Of(t))| >= 2 * f + 1
    && NoRepeats(Matching(commits, Of(t)))
    && (forall s | s in commits :: s.vote.node in su.All()) && VotesOf(commits) <= net.commits
    && exists view: nat, num: nat :: AllFor(commits, view, num)
  }

  /** The prepare of a credit. */
  predicate Credits(cfg: Config, c: nat, digest: Digest, st: Status) {
    digest.Of? && digest.t < |cfg.txs| && cfg.txs[digest.t].Cross() && cfg.txs[digest.t].clusterTo == c && st == P
  }

  ghost predicate Checked(w: World, gs: seq<Group>, c: nat, b: Consensus.Action, commits: seq<Signed>)
    requires w.Valid() && |gs| == |w.su| && c < |w.su|
  {
    b.Propose? && Credits(w.cfg, c, b.digest, b.st) ==>
      var from := w.cfg.txs[b.digest.t].clusterFrom;
      from < |gs| && Passes(w.su[c].f, w.su[from], gs[from].net, b.digest.t, commits)
  }

  ghost predicate Next(w: World, gs: seq<Group>, x: Action, gs': seq<Group>)
    requires w.Valid()
  {
    && |gs| == |w.su|
    && if x.Rest? then gs' == gs
       else
         && x.c < |w.su| && Enabled(w.su[x.c], gs[x.c], x.b) && Checked(w, gs, x.c, x.b, x.commits)
         && gs' == gs[x.c := Do(w.su[x.c], gs[x.c], x.b)]
  }

  datatype Run = Run(states: seq<seq<Group>>, actions: seq<Action>) {
    ghost predicate Of(w: World)
      requires w.Valid()
    {
      && |states| == |actions| + 1
      && states[0] == seq(|w.su|, c requires 0 <= c < |w.su| => InitGroup(w.su[c]))
      && forall i | 0 <= i < |actions| :: Next(w, states[i], actions[i], states[i + 1])
    }
  }

  /***** What every step keeps *****/

  /** 2f+1 replicas have signed commits for this request, all at one number of one view. */
  ghost predicate Quorum(su: Setup, net: Net, t: nat) {
    exists view: nat, n: nat :: |Signers(su, net.commits, view, n, Of(t))| >= 2 * su.f + 1
  }

  /** A credit proposed by a non-faulty leader has a quorum of the coordinator cluster behind it. */
  ghost predicate ProposalBacked(w: World, gs: seq<Group>, c: nat, pp: PrePrepare)
    requires c < |w.su|
  {
    w.su[c].Leader(pp.view) in w.su[c].honest && Credits(w.cfg, c, pp.digest, pp.st) ==>
      var from := w.cfg.txs[pp.digest.t].clusterFrom;
      from < |gs| && from < |w.su| && Quorum(w.su[from], gs[from].net, pp.digest.t)
  }

  ghost predicate CreditInv(w: World, gs: seq<Group>) {
    && |gs| == |w.su|
    && (forall c | 0 <= c < |gs| :: Inv(w.su[c], gs[c]) && StoresBehind(w.su[c], gs[c]))
    && (forall c, pp | 0 <= c < |gs| && pp in gs[c].net.pre :: ProposalBacked(w, gs, c, pp))
  }

  lemma QuorumStays(su: Setup, net: Net, net': Net, t: nat)
    requires net.commits <= net'.commits && Quorum(su, net, t)
    ensures Quorum(su, net', t)
  {
    var view: nat, n: nat :| |Signers(su, net.commits, view, n, Of(t))| >= 2 * su.f + 1;
    VotersGrow(net.commits, net'.commits, view, n, Of(t));
    SubsetSize(Signers(su, net.commits, view, n, Of(t)), Signers(su, net'.commits, view, n, Of(t)));
  }

  /** A certificate that passes is a quorum. */
  lemma PassingQuorum(su: Setup, net: Net, t: nat, commits: seq<Signed>)
    requires Passes(su.f, su, net, t, commits)
    ensures Quorum(su, net, t)
  {
    var view: nat, num: nat :| AllFor(commits, view, num);
    var e := Replica.LogEntry(view, Replica.PREPARED, Of(t));
    CommitQuorum(su, commits, e, num);
    VotersGrow(VotesOf(commits), net.commits, view, num, Of(t));
    SubsetSize(Signers(su, VotesOf(commits), view, num, Of(t)), Signers(su, net.commits, view, num, Of(t)));
  }

  lemma StepBacked(w: World, gs: seq<Group>, x: Action, gs': seq<Group>, c: nat, pp: PrePrepare)
    requires w.Valid() && CreditInv(w, gs) && Next(w, gs, x, gs') && x.Move? && c < |gs'| && pp in gs'[c].net.pre
    ensures ProposalBacked(w, gs', c, pp)
  {
    NetGrows(w.su[x.c], gs[x.c], x.b);
    if w.su[c].Leader(pp.view) in w.su[c].honest && Credits(w.cfg, c, pp.digest, pp.st) {
      var t := pp.digest.t;
      var from := w.cfg.txs[t].clusterFrom;
      if pp in gs[c].net.pre {
        assert ProposalBacked(w, gs, c, pp);
      } else {
        PassingQuorum(w.su[from], gs[from].net, t, x.commits);
      }
      QuorumStays(w.su[from], gs[from].net, gs'[from].net, t);
    }
  }

  lemma StepCredit(w: World, gs: seq<Group>, x: Action, gs': seq<Group>)
    requires w.Valid() && CreditInv(w, gs) && Next(w, gs, x, gs')
    ensures CreditInv(w, gs')
  {
    if x.Move? {
      StepInv(w.su[x.c], gs[x.c], x.b);
      StepStores(w.su[x.c], gs[x.c], x.b);
      forall c, pp | 0 <= c < |gs'| && pp in gs'[c].net.pre ensures ProposalBacked(w, gs', c, pp) {
        StepBacked(w, gs, x, gs', c, pp);
      }
    }
  }

  lemma {:induction false} RunCredit(w: World, run: Run, i: nat)
    requires w.Valid() && run.Of(w) && i < |run.states|
    ensures CreditInv(w, run.states[i])
  {
    if i > 0 {
      RunCredit(w, run, i - 1);
      RunNext(w, run, i - 1);
      StepCredit(w, run.states[i - 1], run.actions[i - 1], run.states[i]);
    }
  }

  lemma RunNext(w: World, run: Run, i: nat)
    requires w.Valid() && run.Of(w) && i < |run.actions|
    ensures Next(w, run.states[i], run.actions[i], run.states[i + 1])
  {
  }

  /***** The signers were prepared *****/

  /** At some state up to `i`, replica `q` of cluster `b` had this request prepared at this number. */
  ghost predicate WasPrepared(run: Run, i: nat, b: nat, q: nat, view: nat, n: nat, t: nat)
    requires i < |run.states|
  {
    exists j :: 0 <= j <= i && b < |run.states[j]| && Reached(run.states[j][b], q, n, view, Replica.PREPARED)
                && run.states[j][b].replicas[q].log[n].digest == Of(t)
  }

  /** A non-faulty replica that has signed a commit was prepared when it did. */
  lemma {:induction false} SignerWasPrepared(w: World, run: Run, i: nat, b: nat, v: Vote)
    requires w.Valid() && run.Of(w) && i < |run.states| && b < |run.states[i]| && b < |w.su|
    requires v in run.states[i][b].net.commits && v.node in w.su[b].honest && v.digest.Of?
    ensures WasPrepared(run, i, b, v.node, v.view, v.num, v.digest.t)
  {
    if i > 0 {
      assert Next(w, run.states[i - 1], run.actions[i - 1], run.states[i]);
      if v in run.states[i - 1][b].net.commits {
        SignerWasPrepared(w, run, i - 1, b, v);
      } else {
        RunCredit(w, run, i - 1);
        SigningPrepares(w.su[b], run.states[i - 1][b], run.actions[i - 1].b, v);
      }
    }
  }

  lemma SigningPrepares(su: Setup, g: Group, a: Consensus.Action, v: Vote)
    requires Enabled(su, g, a) && v in Do(su, g, a).net.commits && v !in g.net.commits && v.node in su.honest
    ensures Reached(Do(su, g, a), v.node, v.num, v.view, Replica.PREPARED)
    ensures Do(su, g, a).replicas[v.node].log[v.num].digest == v.digest
  {
  }

  /** 2f+1 replicas of the cluster have signed commits for request `t`, all at one number of one view, and
      at least f+1 of them are non-faulty ones that have had it prepared there. */
  ghost predicate Backed(w: World, run: Run, i: nat, b: nat, t: nat)
    requires i < |run.states|
  {
    b < |w.su| && b < |run.states[i]| &&
    exists view: nat, n: nat, backing: set<nat> ::
      && backing <= Signers(w.su[b], run.states[i][b].net.commits, view, n, Of(t))
      && |Signers(w.su[b], run.states[i][b].net.commits, view, n, Of(t))| >= 2 * w.su[b].f + 1
      && backing <= w.su[b].honest && |backing| >= w.su[b].f + 1
      && forall q | q in backing :: WasPrepared(run, i, b, q, view, n, t)
  }

  lemma QuorumBacks(w: World, run: Run, i: nat, b: nat, t: nat)
    requires w.Valid() && run.Of(w) && i < |run.states| && b < |run.states[i]| && b < |w.su|
    requires Quorum(w.su[b], run.states[i][b].net, t)
    ensures Backed(w, run, i, b, t)
  {
    var su, net := w.su[b], run.states[i][b].net;
    var view: nat, n: nat :| |Signers(su, net.commits, view, n, Of(t))| >= 2 * su.f + 1;
    var signers := Signers(su, net.commits, view, n, Of(t));
    var backing := signers * su.honest;
    Overlap(signers, su.honest, su.All());
    forall q | q in backing ensures WasPrepared(run, i, b, q, view, n, t) {
      SignerWasPrepared(w, run, i, b, Vote(view, n, Of(t), q));
    }
  }

  /** A proposed credit implies a debit quorum, whichever view it was proposed in. */
  lemma ProposalImpliesDebit(w: World, run: Run, i: nat, c: nat, pp: PrePrepare)
    requires w.Valid() && run.Of(w) && i < |run.states| && c < |run.states[i]| && c < |w.su|
    requires pp in run.states[i][c].net.pre && w.su[c].Leader(pp.view) in w.su[c].honest
             && Credits(w.cfg, c, pp.digest, pp.st)
    ensures Backed(w, run, i, w.cfg.txs[pp.digest.t].clusterFrom, pp.digest.t)
  {
    RunCredit(w, run, i);
    assert ProposalBacked(w, run.states[i], c, pp);
    QuorumBacks(w, run, i, w.cfg.txs[pp.digest.t].clusterFrom, pp.digest.t);
  }

  /** A credit implies a debit quorum. When a non-faulty replica of the participant cluster has committed
      the prepare of a cross-shard transfer at `m`, and the leaders that have sent pre-prepares of it for
      `m` are non-faulty, then 2f+1 replicas of the coordinator cluster have signed commits for that
      request, at least f+1 of them non-faulty ones that had it prepared. */
  lemma CreditImpliesDebit(w: World, run: Run, i: nat, r: nat, t: nat, m: nat)
    requires w.Valid() && run.Of(w) && i < |run.states| && t < |w.cfg.txs| && w.cfg.txs[t].Cross()
    requires w.cfg.txs[t].clusterTo < |run.states[i]| && w.cfg.txs[t].clusterTo < |w.su|
    requires var su, g := w.su[w.cfg.txs[t].clusterTo], run.states[i][w.cfg.txs[t].clusterTo];
             && r in su.honest && r < |g.replicas| && m in g.replicas[r].store && g.replicas[r].store[m] == Entry(t, P)
             && forall pp | pp in g.net.pre && pp.num == m && pp.digest == Of(t) && pp.st == P ::
                su.Leader(pp.view) in su.honest
    ensures Backed(w, run, i, w.cfg.txs[t].clusterFrom, t)
  {
    RunCredit(w, run, i);
    var c := w.cfg.txs[t].clusterTo;
    var g := run.states[i][c];
    assert Behind(w.su[c], g.net, m, Entry(t, P));
    var pp :| pp in g.net.pre && pp.num == m && pp.digest == Of(t) && pp.st == P;
    ProposalImpliesDebit(w, run, i, c, pp);
  }
}

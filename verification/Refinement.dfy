/** From the nodes' methods to the steps of the protocol: under the assumptions on what honest nodes
    send, what the methods are proved to do is what the steps of the two state machines do. */
module Refinement {
  import opened Transfers
  import opened Messages
  import opened Ledger
  import opened Replay
  import opened Certificates
  import Replica
  import Cluster
  import Consensus
  import Nodes
  import System

  /***** The end of a run *****/

  /** What an honest collector hands out: one vote of each of its signers for this view and number, all
      of them sent by replicas of the cluster. */
  ghost predicate Honest(su: Consensus.Setup, net: set<Vote>, e: Replica.LogEntry, num: nat, certs: seq<Signed>) {
    && AllFor(certs, e.view, num) && NoRepeats(Matching(certs, e.digest))
    && (forall s | s in certs :: s.vote.node in su.All())
    && VotesOf(certs) <= net
  }

  lemma MatchingVotes(certs: seq<Signed>, view: nat, num: nat, digest: Digest)
    requires AllFor(certs, view, num)
    ensures VotesOf(Matching(certs, digest)) <= VotesOf(certs)
    ensures Voters(VotesOf(Matching(certs, digest)), view, num, digest) == Voters(VotesOf(certs), view, num, digest)
  {
    var counted := Matching(certs, digest);
    forall v | v in VotesOf(counted) ensures v in VotesOf(certs) {
      var s :| s in counted && s.verified && s.vote == v;
      MatchingIn(certs, digest, s);
    }
    forall v | v in VotesOf(certs) && v.digest == digest ensures v in VotesOf(counted) {
      var s :| s in certs && s.verified && s.vote == v;
      MatchingIn(certs, digest, s);
    }
  }

  /** Every quorum of commits that has been sent can be collected honestly, and then it passes the count; */
  lemma CommitsCollected(su: Consensus.Setup, net: set<Vote>, e: Replica.LogEntry, num: nat)
    returns (certs: seq<Signed>)
    requires Consensus.HasCommits(su, net, e, num)
    ensures Honest(su, net, e, num, certs) && |Matching(certs, e.digest)| >= 2 * su.f + 1
  {
    certs := VotesBy(Consensus.Signers(su, net, e.view, num, e.digest), e.view, num, e.digest);
    SentBy(net, e.view, num, e.digest, certs);
  }

  /** and so can every quorum of prepares. */
  lemma PreparesCollected(su: Consensus.Setup, net: set<Vote>, e: Replica.LogEntry, num: nat)
    returns (certs: seq<Signed>)
    requires Consensus.HasPrepares(su, net, e, num)
    ensures Honest(su, net, e, num, certs) && |Matching(certs, e.digest)| >= 2 * su.f
    ensures forall s | s in certs :: s.vote.node != su.Leader(e.view)
  {
    certs := VotesBy(Consensus.Backers(su, net, e.view, num, e.digest), e.view, num, e.digest);
    SentBy(net, e.view, num, e.digest, certs);
  }

  lemma SentBy(net: set<Vote>, view: nat, num: nat, digest: Digest, certs: seq<Signed>)
    requires forall s | s in certs ::
               s.vote.node in Voters(net, view, num, digest) && s == Signed(Vote(view, num, digest, s.vote.node), true)
    ensures VotesOf(certs) <= net
  {
    forall v | v in VotesOf(certs) ensures v in net {
      var s :| s in certs && s.verified && s.vote == v;
      var w :| w in net && w.view == view && w.num == num && w.digest == digest && w.node == s.vote.node;
    }
  }

  /** Taking commits is the step that ends a run, for a leader that has collected them and for a backup
      that got them from the leader: it is enabled, it says "enough" exactly if the count does, and it
      makes the replica what the method makes it (up to the certificates a backup keeps). */
  lemma CommitsAreStep(su: Consensus.Setup, g: Consensus.Group, r: nat, num: nat, commits: seq<Signed>, ok: bool)
    requires r in su.honest && r < |g.replicas| && Consensus.Current(g.replicas[r], num) && num in g.replicas[r].pre
    requires g.replicas[r].log[num].stage >= Replica.PREPARED
    requires Honest(su, g.net.commits, g.replicas[r].log[num], num, commits)
    requires ok <==> |Matching(commits, g.replicas[r].log[num].digest)| >= 2 * su.f + 1
    requires r != su.Leader(g.replicas[r].view) ==> ok
    ensures var s := g.replicas[r];
            var cert := VotesOf(if ok then Matching(commits, s.log[num].digest) else commits);
            && (r == su.Leader(s.view) ==>
                  && Consensus.Enabled(su, g, Consensus.Committed(r, num, cert, ok))
                  && Consensus.Local(su, s, Consensus.Committed(r, num, cert, ok)) ==
                     if ok then Replica.Commit(Consensus.Keep(s, num, cert), num, s.pre[num].st)
                         else Consensus.Keep(s, num, cert))
            && (r != su.Leader(s.view) && (su.Leader(s.view) in su.honest && su.Leader(s.view) < |g.replicas| ==>
                    num in g.replicas[su.Leader(s.view)].collected
                        && g.replicas[su.Leader(s.view)].collected[num] == cert) ==>
                  && Consensus.Enabled(su, g, Consensus.Committed(r, num, cert, true))
                  && Consensus.Local(su, s, Consensus.Committed(r, num, cert, true)) ==
                     Replica.Commit(s, num, s.pre[num].st))
  {
    var s := g.replicas[r];
    var e := s.log[num];
    CommitQuorum(su, commits, e, num);
    MatchingVotes(commits, e.view, num, e.digest);
    assert Consensus.HasCommits(su, VotesOf(Matching(commits, e.digest)), e, num) ==
           Consensus.HasCommits(su, VotesOf(commits), e, num);
  }

  /** A backup that gets enough prepares takes the step that prepares it, and its vote is the one sent. */
  lemma PreparesAreStep(su: Consensus.Setup, g: Consensus.Group, r: nat, num: nat, prepares: seq<Signed>)
    requires r in su.honest && r < |g.replicas| && Consensus.Current(g.replicas[r], num)
    requires Honest(su, g.net.prepares, g.replicas[r].log[num], num, prepares)
    requires forall s | s in prepares :: s.vote.node != su.Leader(g.replicas[r].view)
    requires |Matching(prepares, g.replicas[r].log[num].digest)| >= 2 * su.f
    ensures var s, a := g.replicas[r], Consensus.Prepared(r, num, VotesOf(prepares));
            && Consensus.Enabled(su, g, a)
            && Consensus.Local(su, s, a) == Replica.UpdateLog(s, num, Replica.PREPARED)
            && Vote(s.view, num, s.log[num].digest, r) in Consensus.Sent(g.net, s, a).commits
  {
    PrepareQuorum(su, prepares, g.replicas[r].log[num], num);
  }

  /***** The executor *****/

  /** What every executed entry keeps holds after all of them. */
  lemma {:induction false} WhileExecuting(txs: seq<Transfer>, store: map<nat, Entry>, b: System.Books, k: nat,
                                          p: System.Books -> bool)
    requires p(b) && b.exec <= k && forall n | b.exec <= n < k :: n in store && store[n].t < |txs|
    requires forall x | p(x) && x.exec in store && store[x.exec].t < |txs| ::
               p(System.Books(Ledger.Execute(x.db, txs[store[x.exec].t], store[x.exec].st), x.exec + 1))
    ensures p(System.Books(Nodes.Executed(txs, store, b.db, b.exec, k), k))
    decreases k
  {
    if b.exec < k {
      WhileExecuting(txs, store, b, k - 1, p);
      ExecutedNext(txs, store, b.db, b.exec, k - 1);
    }
  }

  lemma ExecutedNext(txs: seq<Transfer>, store: map<nat, Entry>, db: Db, lo: nat, hi: nat)
    requires lo <= hi && hi in store && store[hi].t < |txs|
    ensures Nodes.Executed(txs, store, db, lo, hi + 1) ==
            Ledger.Execute(Nodes.Executed(txs, store, db, lo, hi), txs[store[hi].t], store[hi].st)
  {
  }

  /** However many entries a backup's executor finds when it runs, and in whatever order they were
      stored, it leaves the balances that the common log stands for. */
  lemma ExecutorFollowsLog(cfg: Config, c: nat, s: Cluster.State, store: map<nat, Entry>, b: System.Books, k: nat)
    requires cfg.Valid() && Cluster.Basic(cfg, c, s) && System.BooksOk(cfg, c, s.log, store, b)
             && System.Within(store, s.log)
    requires b.exec <= k && forall n | b.exec <= n < k :: n in store
    ensures Nodes.Executed(cfg.txs, store, b.db, b.exec, k).bal == After(cfg.txs, Initial(cfg.shards[c]), s.log, k)
  {
    forall x: System.Books | System.BooksOk(cfg, c, s.log, store, x) && x.exec in store && store[x.exec].t < |cfg.txs|
      ensures System.BooksOk(cfg, c, s.log, store,
                             System.Books(Ledger.Execute(x.db, cfg.txs[store[x.exec].t], store[x.exec].st), x.exec + 1))
    {
      System.ExecutedBooks(cfg, c, s, store, x);
    }
    forall n | b.exec <= n < k ensures n in store && store[n].t < |cfg.txs| {
      Cluster.EntryOwned(cfg, c, s, n);
    }
    WhileExecuting(cfg.txs, store, b, k, x => System.BooksOk(cfg, c, s.log, store, x));
  }
}

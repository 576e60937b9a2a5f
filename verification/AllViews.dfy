/** What holds in all views: what stands behind a stored entry, which numbers a replica has taken in, and
    how its log entries move on. */
module AllViews {
  import opened Transfers
  import opened Messages
  import opened Replica
  import opened Consensus

  /***** Behind a stored entry *****/

  /** In some view this request was pre-prepared for the number in this phase, 2f backups sent prepares
      for it and 2f+1 replicas commits. */
  ghost predicate Behind(su: Setup, net: Net, n: nat, e: Entry) {
    exists pp | pp in net.pre ::
      && pp == PrePrepare(pp.view, n, Of(e.t), e.st)
      && |Backers(su, net.prepares, pp.view, n, Of(e.t))| >= 2 * su.f
      && |Signers(su, net.commits, pp.view, n, Of(e.t))| >= 2 * su.f + 1
  }

  ghost predicate StoresBehind(su: Setup, g: Group) {
    forall r, n | r in su.honest && r < |g.replicas| && n in g.replicas[r].store ::
      Behind(su, g.net, n, g.replicas[r].store[n])
  }

  lemma BehindStays(su: Setup, net: Net, net': Net, n: nat, e: Entry)
    requires net.pre <= net'.pre && net.prepares <= net'.prepares && net.commits <= net'.commits
    requires Behind(su, net, n, e)
    ensures Behind(su, net', n, e)
  {
    var pp :| pp in net.pre && pp == PrePrepare(pp.view, n, Of(e.t), e.st)
              && |Backers(su, net.prepares, pp.view, n, Of(e.t))| >= 2 * su.f
              && |Signers(su, net.commits, pp.view, n, Of(e.t))| >= 2 * su.f + 1;
    var entry := LogEntry(pp.view, COMMITTED, Of(e.t));
    QuorumsGrow(su, net.prepares, net'.prepares, entry, n);
    QuorumsGrow(su, net.commits, net'.commits, entry, n);
    assert pp in net'.pre;
  }

  /** Only a commit stores, and it stores what the log and the pre-prepare say. */
  lemma LocalStores(su: Setup, r: State, a: Action, n: nat)
    requires IsLocal(a) && n in Local(su, r, a).store
    ensures var r' := Local(su, r, a);
            || (n in r.store && r'.store[n] == r.store[n])
            || (a.Committed? && a.enough && n == a.num && n in r.pre && n in r.log && r.log[n].digest.Of?
                && r'.store[n] == Entry(r.log[n].digest.t, r.pre[n].st))
  {
    if a.Committed? {
      CommittedStores(if a.r == su.Leader(r.view) then Keep(r, a.num, a.cert) else r, a.num, a.enough, n);
    }
  }

  lemma CommittedStores(r: State, num: nat, enough: bool, n: nat)
    requires n in AfterCommits(r, num, enough).store
    ensures var r' := AfterCommits(r, num, enough);
            || (n in r.store && r'.store[n] == r.store[n])
            || (enough && n == num && n in r.pre && n in r.log && r.log[n].digest.Of?
                && r'.store[n] == Entry(r.log[n].digest.t, r.pre[n].st))
  {
  }

  /** What a commit stores has its quorums behind it. */
  lemma CommittedBehind(su: Setup, g: Group, a: Action)
    requires Inv(su, g) && Enabled(su, g, a) && a.Committed? && a.enough && g.replicas[a.r].log[a.num].digest.Of?
    ensures Behind(su, g.net, a.num, Entry(g.replicas[a.r].log[a.num].digest.t, g.replicas[a.r].pre[a.num].st))
  {
    var r, n := g.replicas[a.r], a.num;
    assert EntryOk(su, g.net, r, n);
    QuorumsGrow(su, a.cert, g.net.commits, r.log[n], n);
    assert r.pre[n] in g.net.pre;
  }

  lemma StepStores(su: Setup, g: Group, a: Action)
    requires Inv(su, g) && StoresBehind(su, g) && Enabled(su, g, a)
    ensures StoresBehind(su, Do(su, g, a))
  {
    var g' := Do(su, g, a);
    NetGrows(su, g, a);
    forall r, n | r in su.honest && r < |g'.replicas| && n in g'.replicas[r].store
      ensures Behind(su, g'.net, n, g'.replicas[r].store[n])
    {
      StepStored(su, g, a, r, n);
      BehindStays(su, g.net, g'.net, n, g'.replicas[r].store[n]);
    }
  }

  lemma StepStored(su: Setup, g: Group, a: Action, r: nat, n: nat)
    requires Inv(su, g) && StoresBehind(su, g) && Enabled(su, g, a) && r in su.honest
    requires r < |Do(su, g, a).replicas| && n in Do(su, g, a).replicas[r].store
    ensures Behind(su, g.net, n, Do(su, g, a).replicas[r].store[n])
  {
    if IsLocal(a) && a.r == r {
      LocalStores(su, g.replicas[r], a, n);
      if a.Committed? && a.enough && n == a.num && g.replicas[r].log[n].digest.Of? {
        CommittedBehind(su, g, a);
      }
    }
  }

  ghost predicate Backed(su: Setup, g: Group) {
    Inv(su, g) && StoresBehind(su, g)
  }

  lemma RunBacked(su: Setup, run: Run, i: nat)
    requires su.Valid() && run.Of(su) && i < |run.groups|
    ensures Backed(su, run.groups[i])
  {
    forall g: Group, a: Action | Backed(su, g) && Enabled(su, g, a) ensures Backed(su, Do(su, g, a)) {
      StepInv(su, g, a);
      StepStores(su, g, a);
    }
    Throughout(su, run, (g: Group, a: Action) => true, g => Backed(su, g), i);
  }

  /** The certificate ladder in every run: whatever views are adopted and whatever is sent again, behind
      each entry that a non-faulty replica has stored stand, in one view, its pre-prepare with the same
      phase, 2f prepares of distinct backups and 2f+1 commits of distinct replicas. */
  lemma Ladder(su: Setup, run: Run, i: nat, r: nat, n: nat) returns (view: nat)
    requires su.Valid() && run.Of(su) && i < |run.groups|
    requires r in su.honest && r < |run.groups[i].replicas| && n in run.groups[i].replicas[r].store
    ensures var net, e := run.groups[i].net, run.groups[i].replicas[r].store[n];
            && PrePrepare(view, n, Of(e.t), e.st) in net.pre
            && |Backers(su, net.prepares, view, n, Of(e.t))| >= 2 * su.f
            && |Signers(su, net.commits, view, n, Of(e.t))| >= 2 * su.f + 1
  {
    RunBacked(su, run, i);
    var net, e := run.groups[i].net, run.groups[i].replicas[r].store[n];
    assert Behind(su, net, n, e);
    var pp :| pp in net.pre && pp == PrePrepare(pp.view, n, Of(e.t), e.st)
              && |Backers(su, net.prepares, pp.view, n, Of(e.t))| >= 2 * su.f
              && |Signers(su, net.commits, pp.view, n, Of(e.t))| >= 2 * su.f + 1;
    view := pp.view;
  }

  /***** Numbers without gaps *****/

  predicate Preceded(r: State, n: nat) {
    n >= 1 && (n == 1 || n - 1 in r.pre)
  }

  /** A replica that has only followed: its pre-prepares have no gap, and what it has stored or voted for
      is among them. */
  ghost predicate Follows(g: Group, r: nat) {
    && r < |g.replicas|
    && (forall n {:trigger Preceded(g.replicas[r], n)} | n in g.replicas[r].pre :: Preceded(g.replicas[r], n))
    && (forall n | n in g.replicas[r].store :: n in g.replicas[r].pre)
    && (forall v | (v in g.net.prepares || v in g.net.commits) && v.node == r :: v.num in g.replicas[r].pre)
  }

  lemma LocalPre(su: Setup, r: State, a: Action)
    requires IsLocal(a) && !a.Propose? && (a.Accept? ==> CanAccept(r, a.pp))
    requires forall n {:trigger Preceded(r, n)} | n in r.pre :: Preceded(r, n)
    ensures var r' := Local(su, r, a);
            && (forall n | n in r.pre :: n in r'.pre)
               && (forall n {:trigger Preceded(r', n)} | n in r'.pre :: Preceded(r', n))
            && (a.Accept? ==> a.pp.num in r'.pre)
  {
    var r' := Local(su, r, a);
    if a.Committed? {
      CommittedPre(if a.r == su.Leader(r.view) then Keep(r, a.num, a.cert) else r, a.num, a.enough);
    }
    forall n | n in r'.pre ensures Preceded(r', n) {
      assert n in r.pre ==> Preceded(r, n);
    }
  }

  lemma CommittedPre(r: State, num: nat, enough: bool)
    ensures AfterCommits(r, num, enough).pre == r.pre
  {
  }

  lemma StepFollows(su: Setup, g: Group, a: Action, r: nat)
    requires Inv(su, g) && Follows(g, r) && r in su.honest && Enabled(su, g, a) && !(a.Propose? && a.r == r)
    ensures Follows(Do(su, g, a), r)
  {
    var g' := Do(su, g, a);
    if IsLocal(a) && a.r == r {
      LocalPre(su, g.replicas[r], a);
      if a.Prepared? {
        assert EntryOk(su, g.net, g.replicas[r], a.num);
      }
      forall n | n in g'.replicas[r].store ensures n in g'.replicas[r].pre {
        LocalStores(su, g.replicas[r], a, n);
      }
    }
    forall v | (v in g'.net.prepares || v in g'.net.commits) && v.node == r ensures v.num in g'.replicas[r].pre {
      NewVote(su, g, a, r, v);
    }
  }

  lemma NewVote(su: Setup, g: Group, a: Action, r: nat, v: Vote)
    requires Enabled(su, g, a) && r in su.honest && v.node == r
    requires v in Do(su, g, a).net.prepares || v in Do(su, g, a).net.commits
    ensures || v in g.net.prepares || v in g.net.commits
            || (a.Accept? && a.r == r && v.num == a.pp.num) || (a.Prepared? && a.r == r && v.num == a.num)
  {
  }

  lemma {:induction false} RunFollows(su: Setup, run: Run, i: nat, r: nat)
    requires su.Valid() && run.Of(su) && i < |run.groups| && r in su.honest
    requires forall k | 0 <= k < |run.actions| :: !(run.actions[k].Propose? && run.actions[k].r == r)
    ensures Inv(su, run.groups[i]) && Follows(run.groups[i], r)
  {
    assert r in su.All();
    forall g: Group, a: Action | Inv(su, g) && Follows(g, r) && !(a.Propose? && a.r == r) && Enabled(su, g, a)
      ensures Inv(su, Do(su, g, a)) && Follows(Do(su, g, a), r)
    {
      StepInv(su, g, a);
      StepFollows(su, g, a, r);
    }
    Throughout(su, run, (g: Group, a: Action) => !(a.Propose? && a.r == r), g => Inv(su, g) && Follows(g, r), i);
  }

  /** In every run, whatever views it adopts, a non-faulty replica that has proposed nothing itself has
      pre-prepares for exactly the numbers 1..k for some k, and stores and votes for nothing else. */
  lemma GapFree(su: Setup, run: Run, i: nat, r: nat) returns (k: nat)
    requires su.Valid() && run.Of(su) && i < |run.groups| && r in su.honest
    requires forall j | 0 <= j < |run.actions| :: !(run.actions[j].Propose? && run.actions[j].r == r)
    ensures r < |run.groups[i].replicas|
    ensures forall n: nat :: n in run.groups[i].replicas[r].pre <==> 1 <= n <= k
    ensures forall n | n in run.groups[i].replicas[r].store :: 1 <= n <= k
    ensures forall v | (v in run.groups[i].net.prepares || v in run.groups[i].net.commits) && v.node == r ::
              1 <= v.num <= k
  {
    RunFollows(su, run, i, r);
    k := Max(run.groups[i].replicas[r].pre.Keys);
    forall n: nat ensures n in run.groups[i].replicas[r].pre <==> 1 <= n <= k {
      if n in run.groups[i].replicas[r].pre {
        assert Preceded(run.groups[i].replicas[r], n);
      }
      if 1 <= n <= k {
        Contiguous(run.groups[i].replicas[r], n, k);
      }
    }
  }

  lemma {:induction false} Contiguous(r: State, n: nat, m: nat)
    requires forall k {:trigger Preceded(r, k)} | k in r.pre :: Preceded(r, k)
    requires 1 <= n <= m && m in r.pre
    ensures n in r.pre
    decreases m - n
  {
    if n < m {
      assert Preceded(r, m);
      Contiguous(r, n, m - 1);
    }
  }

  /***** Log entries *****/

  /** The later entry is of a later view, or of the same view with the same digest and no earlier stage. */
  predicate MovedOn(e: LogEntry, e': LogEntry) {
    e'.view > e.view || (e'.view == e.view && e'.digest == e.digest && e'.stage >= e.stage)
  }

  lemma LocalMovesOn(su: Setup, r: State, a: Action, n: nat)
    requires IsLocal(a) && !a.Again? && n in r.log && r.log[n].view <= r.view
    requires a.Propose? && r.next == n ==> r.log[n].view != r.view
    requires a.Accept? && a.pp.num == n ==> r.log[n].view != r.view
    ensures n in Local(su, r, a).log && MovedOn(r.log[n], Local(su, r, a).log[n])
  {
    if a.Committed? {
      CommittedMovesOn(if a.r == su.Leader(r.view) then Keep(r, a.num, a.cert) else r, a.num, a.enough, n);
    }
  }

  lemma CommittedMovesOn(r: State, num: nat, enough: bool, n: nat)
    requires n in r.log
    ensures n in AfterCommits(r, num, enough).log && MovedOn(r.log[n], AfterCommits(r, num, enough).log[n])
  {
  }

  lemma StepMovesOn(su: Setup, g: Group, a: Action, r: nat, n: nat)
    requires Inv(su, g) && Enabled(su, g, a) && !a.Again? && r in su.honest && r < |g.replicas|
             && n in g.replicas[r].log
    ensures var g' := Do(su, g, a);
            r < |g'.replicas| && n in g'.replicas[r].log && MovedOn(g.replicas[r].log[n], g'.replicas[r].log[n])
  {
    if IsLocal(a) && a.r == r {
      assert EntryOk(su, g.net, g.replicas[r], n);
      if a.Propose? || a.Accept? {
        FreshNumber(su, g, a);
      }
      LocalMovesOn(su, g.replicas[r], a, n);
    }
  }

  /** Without retransmission a log entry is never lost and only moves on, in every run: from view to view,
      and within a view through its stages with one digest. */
  lemma {:induction false} EntriesRise(su: Setup, run: Run, i: nat, j: nat, r: nat, n: nat)
    requires su.Valid() && run.Of(su) && run.NoRetransmission() && i <= j < |run.groups|
    requires r in su.honest && r < |run.groups[i].replicas| && n in run.groups[i].replicas[r].log
    ensures r < |run.groups[j].replicas| && n in run.groups[j].replicas[r].log
    ensures MovedOn(run.groups[i].replicas[r].log[n], run.groups[j].replicas[r].log[n])
    decreases j - i
  {
    if i < j {
      RunInv(su, run, i);
      assert Step(su, run.groups[i], run.actions[i], run.groups[i + 1]);
      StepMovesOn(su, run.groups[i], run.actions[i], r, n);
      EntriesRise(su, run, i + 1, j, r, n);
    }
  }
}

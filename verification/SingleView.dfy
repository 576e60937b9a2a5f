/** What holds as long as no new view is adopted: gap-free pre-prepares, the certificates behind the
    datastore, and one common log when the leader is not faulty. */
module SingleView {
  import opened Transfers
  import opened Messages
  import opened Replica
  import opened Consensus

  /** A stored entry is the request of the log under the status of its pre-prepare. */
  ghost predicate StoredOk(r: Replica.State, n: nat)
    requires n in r.store
  {
    && n in r.log && n in r.pre
    && r.log[n].digest == Of(r.store[n].t)
    && r.pre[n].st == r.store[n].st
  }

  /** The number before an accepted one has been accepted too. */
  predicate PreOk(r: Replica.State, n: nat) {
    n in r.log && 1 <= n && (n == 1 || n - 1 in r.pre)
  }

  ghost predicate ReplicaOk(su: Setup, i: nat, r: Replica.State) {
    && r.view == 1 && r.next >= 1
    && (forall n | n in r.log :: r.log[n].view == 1)
    && (forall n {:trigger PreOk(r, n)} | n in r.pre :: PreOk(r, n))
    && (i == su.Leader(1) ==> forall n: nat :: n in r.pre <==> 1 <= n < r.next)
    && (forall n | n in r.store :: StoredOk(r, n))
  }

  ghost predicate OneView(su: Setup, g: Group) {
    && (forall i | i in su.honest && i < |g.replicas| :: ReplicaOk(su, i, g.replicas[i]))
    && FirstViewVotes(su, g.net)
  }

  /** What an enabled step of a replica finds in that replica, as long as there is one view. */
  ghost predicate Guarded(su: Setup, r: Replica.State, a: Action) {
    match a
    case Propose(i, digest, _) => i == su.Leader(1) && r.next !in r.log && digest.Of?
    case Accept(i, pp) => i != su.Leader(1) && CanAccept(r, pp) && pp.num !in r.log && pp.num >= 1
    case Again(_, num) => num in r.log && r.log[num].view == 1
    case Prepared(_, num, _) => num in r.log
    case Committed(_, num, _, _) => num in r.log && num in r.pre && r.log[num].digest.Of?
        && r.log[num].stage >= PREPARED
    case StartView(_, _) => true
    case _ => false
  }

  lemma EnabledGuarded(su: Setup, g: Group, a: Action)
    requires su.Valid() && Inv(su, g) && OneView(su, g) && Enabled(su, g, a) && IsLocal(a) && !a.AdoptView?
    ensures ReplicaOk(su, a.r, g.replicas[a.r]) && Guarded(su, g.replicas[a.r], a)
  {
    var r := g.replicas[a.r];
    assert ReplicaOk(su, a.r, r);
    if a.Propose? || a.Accept? {
      FreshNumber(su, g, a);
    } else if a.Committed? {
      assert EntryOk(su, g.net, r, a.num);
    }
  }

  /** `r'` has the entries of `r`, possibly in other stages. */
  ghost predicate SameEntries(r: Replica.State, r': Replica.State) {
    && (forall n :: n in r'.log <==> n in r.log)
    && forall n | n in r.log :: r'.log[n].view == r.log[n].view && r'.log[n].digest == r.log[n].digest
  }

  lemma SameEntriesOk(su: Setup, i: nat, r: Replica.State, r': Replica.State)
    requires ReplicaOk(su, i, r) && SameEntries(r, r')
    requires r'.view == r.view && r'.next == r.next && r'.pre == r.pre && r'.store == r.store
    ensures ReplicaOk(su, i, r')
  {
    forall n | n in r'.pre ensures PreOk(r', n) {
      assert PreOk(r, n);
    }
    forall n | n in r'.store ensures StoredOk(r', n) {
      assert StoredOk(r, n);
    }
  }

  lemma UpdateSame(r: Replica.State, num: nat, stage: nat)
    ensures SameEntries(r, UpdateLog(r, num, stage))
    ensures forall n | n in r.log :: UpdateLog(r, num, stage).log[n].stage >= r.log[n].stage
  {
  }

  lemma AfterCommitsSame(r: Replica.State, num: nat, enough: bool)
    ensures SameEntries(r, AfterCommits(r, num, enough))
    ensures forall n | n in r.log :: AfterCommits(r, num, enough).log[n].stage >= r.log[n].stage
  {
    UpdateSame(r, num, COMMITTED);
  }

  /** The steps other than the first handling of a pre-prepare change no entry but its stage. */
  lemma OtherSteps(su: Setup, r: Replica.State, a: Action)
    requires Guarded(su, r, a) && !a.Propose? && !a.Accept? && r.view == 1
    ensures SameEntries(r, Local(su, r, a))
    ensures !a.Again? ==> forall n | n in r.log :: Local(su, r, a).log[n].stage >= r.log[n].stage
  {
    match a
    case Prepared(_, num, _) => UpdateSame(r, num, PREPARED);
    case Committed(i, num, cert, enough) => AfterCommitsSame(if i == su.Leader(r.view) then Keep(r, num, cert)
                                                             else r, num, enough);
    case _ =>
  }

  lemma FreshOk(su: Setup, i: nat, r: Replica.State, pp: PrePrepare)
    requires ReplicaOk(su, i, r) && pp.view == 1 && pp.num !in r.log && pp.num >= 1
    requires if i == su.Leader(1) then pp.num == r.next else pp.num == 1 || pp.num - 1 in r.pre
    ensures ReplicaOk(su, i, if i == su.Leader(1) then Replica.Accept(r, pp).(next := r.next + 1)
                      else Replica.Accept(r, pp))
  {
    var r' := if i == su.Leader(1) then Replica.Accept(r, pp).(next := r.next + 1) else Replica.Accept(r, pp);
    forall n | n in r'.pre ensures PreOk(r', n) {
      assert n in r.pre ==> PreOk(r, n);
    }
    forall n | n in r'.store ensures StoredOk(r', n) {
      assert StoredOk(r, n);
    }
  }

  lemma LocalOk(su: Setup, r: Replica.State, a: Action)
    requires IsLocal(a) && ReplicaOk(su, a.r, r) && Guarded(su, r, a)
    ensures ReplicaOk(su, a.r, Local(su, r, a))
  {
    if a.Propose? {
      FreshOk(su, a.r, r, Proposal(r, a.digest, a.st));
    } else if a.Accept? {
      FreshOk(su, a.r, r, a.pp);
    } else if a.Committed? {
      var kept := if a.r == su.Leader(r.view) then Keep(r, a.num, a.cert) else r;
      SameEntriesOk(su, a.r, r, kept);
      CommitOk(su, a.r, kept, a.num, a.enough);
    } else {
      OtherSteps(su, r, a);
      SameEntriesOk(su, a.r, r, Local(su, r, a));
    }
  }

  lemma CommitOk(su: Setup, i: nat, r: Replica.State, num: nat, enough: bool)
    requires ReplicaOk(su, i, r)
    ensures ReplicaOk(su, i, AfterCommits(r, num, enough))
  {
    if enough && num in r.pre {
      UpdateSame(r, num, COMMITTED);
      SameEntriesOk(su, i, r, UpdateLog(r, num, COMMITTED));
      SaveOk(su, i, UpdateLog(r, num, COMMITTED), num);
    }
  }

  lemma SaveOk(su: Setup, i: nat, r: Replica.State, num: nat)
    requires ReplicaOk(su, i, r) && num in r.pre
    ensures ReplicaOk(su, i, Save(r, num, r.pre[num].st))
  {
    var r' := Save(r, num, r.pre[num].st);
    forall n | n in r'.pre ensures PreOk(r', n) {
      assert PreOk(r, n);
    }
    forall n | n in r'.store ensures StoredOk(r', n) {
      assert n in r.store ==> StoredOk(r, n);
    }
  }

  ghost predicate FirstViewVotes(su: Setup, net: Net) {
    forall v | (v in net.prepares || v in net.commits) && v.node in su.honest :: v.view == 1
  }

  lemma StepFirstViewVotes(su: Setup, g: Group, a: Action)
    requires FirstViewVotes(su, g.net) && Enabled(su, g, a)
    requires IsLocal(a) ==> g.replicas[a.r].view == 1
    ensures FirstViewVotes(su, Do(su, g, a).net)
  {
  }

  lemma StepOneView(su: Setup, g: Group, a: Action)
    requires su.Valid() && Inv(su, g) && OneView(su, g) && Enabled(su, g, a) && !a.AdoptView?
    ensures OneView(su, Do(su, g, a))
  {
    if IsLocal(a) {
      EnabledGuarded(su, g, a);
      LocalOk(su, g.replicas[a.r], a);
    }
    StepFirstViewVotes(su, g, a);
  }

  lemma InitOneView(su: Setup)
    ensures OneView(su, InitGroup(su))
  {
  }

  lemma RunOneView(su: Setup, run: Run, i: nat)
    requires su.Valid() && run.Of(su) && run.SingleView() && i < |run.groups|
    ensures Inv(su, run.groups[i]) && OneView(su, run.groups[i])
  {
    InitOneView(su);
    forall g: Group, a: Action | Inv(su, g) && OneView(su, g) && !a.AdoptView? && Enabled(su, g, a)
      ensures Inv(su, Do(su, g, a)) && OneView(su, Do(su, g, a))
    {
      StepInv(su, g, a);
      StepOneView(su, g, a);
    }
    Throughout(su, run, (g: Group, a: Action) => !a.AdoptView?, g => Inv(su, g) && OneView(su, g), i);
  }

  lemma {:induction false} Contiguous(su: Setup, i: nat, r: Replica.State, n: nat, m: nat)
    requires ReplicaOk(su, i, r) && 1 <= n <= m && m in r.pre
    ensures n in r.pre
    decreases m - n
  {
    if n < m {
      assert PreOk(r, m);
      Contiguous(su, i, r, n, m - 1);
    }
  }

  /** Within a view, the numbers a non-faulty replica has pre-prepared are 1..k for some k, and every
      number it votes for or stores is one of them. */
  lemma GapFree(su: Setup, run: Run, i: nat, r: nat) returns (k: nat)
    requires su.Valid() && run.Of(su) && run.SingleView() && i < |run.groups| && r in su.honest
    ensures r < |run.groups[i].replicas|
    ensures forall n: nat :: n in run.groups[i].replicas[r].pre <==> 1 <= n <= k
    ensures forall n | n in run.groups[i].replicas[r].store :: 1 <= n <= k
    ensures forall v | (v in run.groups[i].net.prepares || v in run.groups[i].net.commits) && v.node == r ::
            1 <= v.num <= k
  {
    RunOneView(su, run, i);
    assert r in su.All() && ReplicaOk(su, r, run.groups[i].replicas[r]);
    k := PreUpTo(su, r, run.groups[i].replicas[r]);
    forall v | (v in run.groups[i].net.prepares || v in run.groups[i].net.commits) && v.node == r
      ensures 1 <= v.num <= k
    {
      VotedIsPre(su, run.groups[i], v);
    }
  }

  lemma PreUpTo(su: Setup, i: nat, r: Replica.State) returns (k: nat)
    requires ReplicaOk(su, i, r)
    ensures forall n: nat :: n in r.pre <==> 1 <= n <= k
    ensures forall n | n in r.store :: 1 <= n <= k
  {
    k := Max(r.pre.Keys);
    forall n: nat | n in r.pre ensures 1 <= n <= k {
      assert PreOk(r, n);
    }
    forall n: nat | 1 <= n <= k ensures n in r.pre {
      Contiguous(su, i, r, n, k);
    }
    forall n | n in r.store ensures n in r.pre {
      assert StoredOk(r, n);
    }
  }

  lemma VotedIsPre(su: Setup, g: Group, v: Vote)
    requires Inv(su, g) && OneView(su, g) && v.node in su.honest && v.node < |g.replicas|
    requires v in g.net.prepares || v in g.net.commits
    ensures v.num in g.replicas[v.node].pre
  {
    assert VoteOk(su, g.replicas, v) && ReplicaOk(su, v.node, g.replicas[v.node]);
    assert EntryOk(su, g.net, g.replicas[v.node], v.num);
  }

  /***** One log for all *****/

  /** The leader has stored whatever it has enough commits for to hand out. */
  ghost predicate HandsOut(su: Setup, r: Replica.State) {
    forall n | n in r.collected :: n in r.log && (HasCommits(su, r.collected[n], r.log[n], n) ==> n in r.store)
  }

  ghost predicate LeaderStores(su: Setup, g: Group) {
    su.Leader(1) in su.honest && su.Leader(1) < |g.replicas| ==> HandsOut(su, g.replicas[su.Leader(1)])
  }

  ghost predicate BackupsFollow(su: Setup, g: Group) {
    var l := su.Leader(1);
    l in su.honest && l < |g.replicas| ==>
      forall i, n | i in su.honest && i < |g.replicas| && n in g.replicas[i].store :: n in g.replicas[l].store
  }

  /** Two non-faulty replicas have the same pre-prepare wherever both have one. */
  lemma SamePrePrepares(su: Setup, g: Group, a: nat, b: nat, n: nat)
    requires su.Valid() && Inv(su, g) && OneView(su, g) && su.Leader(1) in su.honest
    requires a in su.honest && b in su.honest && a < |g.replicas| && b < |g.replicas|
    requires n in g.replicas[a].log && n in g.replicas[b].log
    ensures n in g.replicas[a].pre && n in g.replicas[b].pre && g.replicas[a].pre[n] == g.replicas[b].pre[n]
    ensures g.replicas[a].log[n].digest == g.replicas[b].log[n].digest
    ensures g.replicas[a].log[n].view == g.replicas[b].log[n].view == 1
  {
    assert ReplicaOk(su, a, g.replicas[a]) && ReplicaOk(su, b, g.replicas[b]);
    assert EntryOk(su, g.net, g.replicas[a], n) && EntryOk(su, g.net, g.replicas[b], n);
    assert SameProposal(su, g.replicas[a].pre[n], g.replicas[b].pre[n]);
  }

  lemma SameHandsOut(su: Setup, r: Replica.State, r': Replica.State)
    requires HandsOut(su, r) && r'.collected == r.collected && r.store.Keys <= r'.store.Keys
    requires forall n | n in r.collected ::
              n in r'.log && r'.log[n].view == r.log[n].view && r'.log[n].digest == r.log[n].digest
    ensures HandsOut(su, r')
  {
    forall n | n in r'.collected ensures HasCommits(su, r'.collected[n], r'.log[n], n) ==> n in r'.store {
      assert HasCommits(su, r'.collected[n], r'.log[n], n) == HasCommits(su, r.collected[n], r.log[n], n);
    }
  }

  lemma LeaderCommits(su: Setup, r: Replica.State, num: nat, cert: set<Vote>, enough: bool)
    requires HandsOut(su, r) && num in r.log && num in r.pre && r.log[num].digest.Of?
    requires enough <==> HasCommits(su, cert, r.log[num], num)
    ensures HandsOut(su, AfterCommits(Keep(r, num, cert), num, enough))
  {
    var r' := AfterCommits(Keep(r, num, cert), num, enough);
    AfterCommitsSame(Keep(r, num, cert), num, enough);
    forall n | n in r'.collected
      ensures n in r'.log && (HasCommits(su, r'.collected[n], r'.log[n], n) ==> n in r'.store)
    {
      assert HasCommits(su, r'.collected[n], r'.log[n], n) == HasCommits(su, r'.collected[n], r.log[n], n);
    }
  }

  lemma LeaderLocal(su: Setup, r: Replica.State, a: Action)
    requires HandsOut(su, r) && IsLocal(a) && Guarded(su, r, a) && a.r == su.Leader(1) && r.view == 1
    requires a.Committed? ==> (a.enough <==> HasCommits(su, a.cert, r.log[a.num], a.num))
    ensures HandsOut(su, Local(su, r, a))
  {
    if a.Committed? {
      LeaderCommits(su, r, a.num, a.cert, a.enough);
    } else {
      if !a.Propose? {
        OtherSteps(su, r, a);
      }
      SameHandsOut(su, r, Local(su, r, a));
    }
  }

  lemma StepLeaderStores(su: Setup, g: Group, a: Action)
    requires su.Valid() && Inv(su, g) && OneView(su, g) && LeaderStores(su, g) && Enabled(su, g, a) && !a.AdoptView?
    ensures LeaderStores(su, Do(su, g, a))
  {
    if IsLocal(a) && a.r == su.Leader(1) {
      EnabledGuarded(su, g, a);
      LeaderLocal(su, g.replicas[a.r], a);
    }
  }

  lemma StoreGrows(su: Setup, r: Replica.State, a: Action)
    requires IsLocal(a)
    ensures forall n | n in r.store :: n in Local(su, r, a).store
    ensures forall n | n in Local(su, r, a).store :: n in r.store || (a.Committed? && n == a.num)
  {
    if a.Committed? {
      AfterCommitsStore(if a.r == su.Leader(r.view) then Keep(r, a.num, a.cert) else r, a.num, a.enough);
    }
  }

  lemma AfterCommitsStore(r: Replica.State, num: nat, enough: bool)
    ensures forall n | n in r.store :: n in AfterCommits(r, num, enough).store
    ensures forall n | n in AfterCommits(r, num, enough).store :: n in r.store || n == num
  {
  }

  /** A backup commits on what the leader handed out, and that made the leader commit. */
  lemma LeaderFirst(su: Setup, g: Group, a: Action)
    requires su.Valid() && Inv(su, g) && OneView(su, g) && LeaderStores(su, g) && Enabled(su, g, a)
    requires a.Committed? && su.Leader(1) in su.honest && a.r != su.Leader(1)
    ensures su.Leader(1) < |g.replicas| && a.num in g.replicas[su.Leader(1)].store
  {
    var l := su.Leader(1);
    assert l in su.All() && a.r in su.All();
    assert ReplicaOk(su, a.r, g.replicas[a.r]);
    SamePrePrepares(su, g, a.r, l, a.num);
    assert HasCommits(su, a.cert, g.replicas[a.r].log[a.num], a.num) ==
           HasCommits(su, a.cert, g.replicas[l].log[a.num], a.num);
  }

  lemma StepBackupsFollow(su: Setup, g: Group, a: Action)
    requires su.Valid() && Inv(su, g) && OneView(su, g) && LeaderStores(su, g) && BackupsFollow(su, g)
    requires Enabled(su, g, a) && !a.AdoptView?
    ensures BackupsFollow(su, Do(su, g, a))
  {
    if IsLocal(a) && su.Leader(1) in su.honest {
      if a.Committed? && a.r != su.Leader(1) {
        LeaderFirst(su, g, a);
      }
      StoreGrows(su, g.replicas[a.r], a);
      FollowOne(su, g, a.r, Local(su, g.replicas[a.r], a), if a.Committed? then {a.num} else {});
    }
  }

  lemma FollowOne(su: Setup, g: Group, i: nat, r': Replica.State, added: set<nat>)
    requires BackupsFollow(su, g) && i in su.honest && i < |g.replicas|
    requires forall n | n in g.replicas[i].store :: n in r'.store
    requires forall n | n in r'.store :: n in g.replicas[i].store || n in added
    requires i != su.Leader(1) && su.Leader(1) < |g.replicas| ==> forall n | n in added ::
             n in g.replicas[su.Leader(1)].store
    ensures BackupsFollow(su, Put(g, i, r'))
  {
  }

  /** All of the above. */
  ghost predicate Following(su: Setup, g: Group) {
    Inv(su, g) && OneView(su, g) && LeaderStores(su, g) && BackupsFollow(su, g)
  }

  lemma StepFollowing(su: Setup, g: Group, a: Action)
    requires su.Valid() && Following(su, g) && Enabled(su, g, a) && !a.AdoptView?
    ensures Following(su, Do(su, g, a))
  {
    StepInv(su, g, a);
    StepOneView(su, g, a);
    StepLeaderStores(su, g, a);
    StepBackupsFollow(su, g, a);
  }

  lemma InitFollowing(su: Setup)
    ensures Following(su, InitGroup(su))
  {
    InitOneView(su);
  }

  lemma RunFollow(su: Setup, run: Run, i: nat)
    requires su.Valid() && run.Of(su) && run.SingleView() && i < |run.groups|
    ensures Following(su, run.groups[i])
  {
    InitFollowing(su);
    forall g: Group, a: Action | Following(su, g) && !a.AdoptView? && Enabled(su, g, a)
      ensures Following(su, Do(su, g, a))
    {
      StepFollowing(su, g, a);
    }
    Throughout(su, run, (g: Group, a: Action) => !a.AdoptView?, g => Following(su, g), i);
  }

  /** With a non-faulty leader, whatever a non-faulty replica has stored is what the leader has
      stored: the same request in the same phase. */
  lemma StoresAgree(su: Setup, run: Run, i: nat, a: nat, n: nat)
    requires su.Valid() && run.Of(su) && run.SingleView() && i < |run.groups| && su.Leader(1) in su.honest
             && a in su.honest
    requires a < |run.groups[i].replicas| && n in run.groups[i].replicas[a].store
    ensures su.Leader(1) < |run.groups[i].replicas| && n in run.groups[i].replicas[su.Leader(1)].store
    ensures run.groups[i].replicas[a].store[n] == run.groups[i].replicas[su.Leader(1)].store[n]
  {
    RunFollow(su, run, i);
    StoredAlike(su, run.groups[i], a, n);
  }

  lemma StoredAlike(su: Setup, g: Group, a: nat, n: nat)
    requires su.Valid() && Following(su, g) && su.Leader(1) in su.honest && a in su.honest
    requires a < |g.replicas| && n in g.replicas[a].store
    ensures su.Leader(1) < |g.replicas| && n in g.replicas[su.Leader(1)].store
    ensures g.replicas[a].store[n] == g.replicas[su.Leader(1)].store[n]
  {
    var l := su.Leader(1);
    assert l in su.All();
    assert ReplicaOk(su, a, g.replicas[a]) && ReplicaOk(su, l, g.replicas[l]);
    assert StoredOk(g.replicas[a], n) && StoredOk(g.replicas[l], n);
    SamePrePrepares(su, g, a, l, n);
  }

  /***** Certificates behind the datastore *****/

  ghost predicate Committed(r: Replica.State, n: nat)
    requires n in r.store
  {
    n in r.log && r.log[n].stage >= COMMITTED
  }

  ghost predicate StoresCommitted(su: Setup, g: Group) {
    forall i, n | i in su.honest && i < |g.replicas| && n in g.replicas[i].store :: Committed(g.replicas[i], n)
  }

  /** A step without retransmission keeps every log entry of a replica, or moves it on. */
  lemma EntriesMoveOn(su: Setup, r: Replica.State, a: Action, n: nat)
    requires Guarded(su, r, a) && !a.Again? && r.view == 1 && n in r.log
    ensures n in Local(su, r, a).log
    ensures Local(su, r, a).log[n].stage >= r.log[n].stage && Local(su, r, a).log[n].digest == r.log[n].digest
  {
    if !a.Propose? && !a.Accept? {
      OtherSteps(su, r, a);
    }
  }

  lemma LocalCommitted(su: Setup, r: Replica.State, a: Action, n: nat)
    requires IsLocal(a) && Guarded(su, r, a) && !a.Again? && r.view == 1
    requires n in Local(su, r, a).store && (n in r.store ==> Committed(r, n))
    ensures Committed(Local(su, r, a), n)
  {
    if n in r.store {
      EntriesMoveOn(su, r, a, n);
    } else {
      StoreGrows(su, r, a);
    }
  }

  lemma StepCommitted(su: Setup, g: Group, a: Action)
    requires su.Valid() && Inv(su, g) && OneView(su, g) && StoresCommitted(su, g) && Enabled(su, g, a) && !a.AdoptView?
             && !a.Again?
    ensures StoresCommitted(su, Do(su, g, a))
  {
    var g' := Do(su, g, a);
    forall i, n | i in su.honest && i < |g'.replicas| && n in g'.replicas[i].store
      ensures Committed(g'.replicas[i], n)
    {
      if IsLocal(a) && a.r == i {
        EnabledGuarded(su, g, a);
        assert n in g.replicas[i].store ==> Committed(g.replicas[i], n);
        LocalCommitted(su, g.replicas[i], a, n);
      }
    }
  }

  ghost predicate Laddered(su: Setup, g: Group) {
    Inv(su, g) && OneView(su, g) && StoresCommitted(su, g)
  }

  lemma StepLaddered(su: Setup, g: Group, a: Action)
    requires su.Valid() && Laddered(su, g) && Enabled(su, g, a) && !a.AdoptView? && !a.Again?
    ensures Laddered(su, Do(su, g, a))
  {
    StepInv(su, g, a);
    StepOneView(su, g, a);
    StepCommitted(su, g, a);
  }

  lemma InitLaddered(su: Setup)
    ensures Laddered(su, InitGroup(su))
  {
    InitOneView(su);
  }

  lemma RunLaddered(su: Setup, run: Run, i: nat)
    requires su.Valid() && run.Of(su) && run.SingleView() && run.NoRetransmission() && i < |run.groups|
    ensures Laddered(su, run.groups[i])
  {
    InitLaddered(su);
    forall g: Group, a: Action | Laddered(su, g) && !a.AdoptView? && !a.Again? && Enabled(su, g, a)
      ensures Laddered(su, Do(su, g, a))
    {
      StepLaddered(su, g, a);
    }
    Throughout(su, run, (g: Group, a: Action) => !a.AdoptView? && !a.Again?, g => Laddered(su, g), i);
  }

  /** The certificate ladder: behind every stored entry stand a pre-prepare with the same status, a
      log entry of the same request at least committed, 2f prepares of distinct backups and 2f+1
      commits of distinct replicas for its digest. */
  lemma Ladder(su: Setup, run: Run, i: nat, r: nat, n: nat)
    requires su.Valid() && run.Of(su) && run.SingleView() && run.NoRetransmission() && i < |run.groups|
    requires r in su.honest && r < |run.groups[i].replicas| && n in run.groups[i].replicas[r].store
    ensures var s, net, e := run.groups[i].replicas[r], run.groups[i].net, run.groups[i].replicas[r].store[n];
            && n in s.pre && s.pre[n] == PrePrepare(1, n, Of(e.t), e.st) && s.pre[n] in net.pre
            && n in s.log && s.log[n].stage >= COMMITTED && s.log[n].digest == Of(e.t)
            && |Backers(su, net.prepares, 1, n, Of(e.t))| >= 2 * su.f
            && |Signers(su, net.commits, 1, n, Of(e.t))| >= 2 * su.f + 1
  {
    RunLaddered(su, run, i);
    var g := run.groups[i];
    assert ReplicaOk(su, r, g.replicas[r]) && StoredOk(g.replicas[r], n) && Committed(g.replicas[r], n);
    assert EntryOk(su, g.net, g.replicas[r], n);
  }

  /** Along a run, the log entry of a number never loses its digest and never falls back. */
  lemma {:induction false} StagesRise(su: Setup, run: Run, i: nat, j: nat, r: nat, n: nat)
    requires su.Valid() && run.Of(su) && run.SingleView() && run.NoRetransmission() && i <= j < |run.groups|
    requires r in su.honest && r < |run.groups[i].replicas| && n in run.groups[i].replicas[r].log
    ensures r < |run.groups[j].replicas| && n in run.groups[j].replicas[r].log
    ensures run.groups[j].replicas[r].log[n].digest == run.groups[i].replicas[r].log[n].digest
    ensures run.groups[j].replicas[r].log[n].stage >= run.groups[i].replicas[r].log[n].stage
    decreases j - i
  {
    if i < j {
      RunOneView(su, run, i);
      assert Step(su, run.groups[i], run.actions[i], run.groups[i + 1]);
      if IsLocal(run.actions[i]) && run.actions[i].r == r {
        EnabledGuarded(su, run.groups[i], run.actions[i]);
        EntriesMoveOn(su, run.groups[i].replicas[r], run.actions[i], n);
      }
      StagesRise(su, run, i + 1, j, r, n);
    }
  }
}

/** The consensus protocol of one cluster: 3f+1 replicas, at most f of them faulty, exchanging signed
    messages that stay available once sent. Each step is one handler of a non-faulty replica, or a
    faulty one sending anything it can sign. */
module Consensus {
  import opened Transfers
  import opened Messages
  import opened Replica

  datatype Setup = Setup(f: nat, honest: set<nat>) {
    function N(): nat {
      3 * f + 1
    }

    function All(): set<nat> {
      UpTo(N())
    }

    function Leader(view: nat): nat {
      (view - 1) % N()
    }

    ghost predicate Valid() {
      honest <= All() && |honest| >= 2 * f + 1
    }
  }

  datatype Net = Net(pre: set<PrePrepare>, prepares: set<Vote>, commits: set<Vote>, vcs: set<ViewChange>,
                     nvs: set<NewView>)

  datatype Group = Group(replicas: seq<Replica.State>, net: Net)

  datatype Action =
    | Propose(r: nat, digest: Digest, st: Status)
    | Accept(r: nat, pp: PrePrepare)
    | Again(r: nat, num: nat)
    | Prepared(r: nat, num: nat, cert: set<Vote>)
    | Committed(r: nat, num: nat, cert: set<Vote>, enough: bool)
    | StartView(r: nat, view: nat)
    | OfferView(nv: NewView)
    | AdoptView(r: nat, nv: NewView)
    | FaultyPrePrepare(pp: PrePrepare)
    | FaultyPrepare(v: Vote)
    | FaultyCommit(v: Vote)
    | FaultyViewChange(vc: ViewChange)

  function InitGroup(su: Setup): Group {
    Group(seq(su.N(), _ => Replica.Init()), Net({}, {}, {}, {}, {}))
  }

  /** The backups among the voters. */
  function Backers(su: Setup, votes: set<Vote>, view: nat, num: nat, digest: Digest): set<nat> {
    Voters(votes, view, num, digest) * su.All() - {su.Leader(view)}
  }

  function Signers(su: Setup, votes: set<Vote>, view: nat, num: nat, digest: Digest): set<nat> {
    Voters(votes, view, num, digest) * su.All()
  }

  ghost predicate HasPrepares(su: Setup, votes: set<Vote>, e: LogEntry, num: nat) {
    |Backers(su, votes, e.view, num, e.digest)| >= 2 * su.f
  }

  ghost predicate HasCommits(su: Setup, votes: set<Vote>, e: LogEntry, num: nat) {
    |Signers(su, votes, e.view, num, e.digest)| >= 2 * su.f + 1
  }

  /** The largest element, 0 if there is none. */
  ghost function Max(s: set<nat>): (m: nat)
    ensures forall x | x in s :: x <= m
    ensures if s == {} then m == 0 else m in s
  {
    if s == {} then 0
    else
      var x :| x in s;
      var m := Max(s - {x});
      assert s == s - {x} + {x};
      if x > m then x else m
  }

  /** The numbers that the view changes behind a new view report as prepared. */
  function Reported(nv: NewView): set<nat> {
    set vc, n | vc in nv.certs && n in vc.prepared :: n
  }

  /** The number above all that its view changes report. */
  ghost function NextOf(nv: NewView): nat {
    Max(Reported(nv)) + 1
  }

  function Senders(certs: set<ViewChange>): set<nat> {
    set vc | vc in certs :: vc.node
  }

  /** The list of the new view ends where its view changes do, and they are for this view. */
  ghost predicate Fits(nv: NewView) {
    NextAfter(nv.list) == NextOf(nv) && forall vc | vc in nv.certs :: vc.view == nv.view
  }

  ghost predicate Enabled(su: Setup, g: Group, a: Action) {
    match a
    case Propose(r, digest, st) =>
      r in su.honest && r < |g.replicas| && r == su.Leader(g.replicas[r].view) && !g.replicas[r].changing && digest.Of?
    case Accept(r, pp) =>
      && r in su.honest && r < |g.replicas| && r != su.Leader(pp.view)
      && pp in g.net.pre && CanAccept(g.replicas[r], pp)
      && !(pp.num in g.replicas[r].log && g.replicas[r].log[pp.num].view == pp.view)
    case Again(r, num) =>
      && r in su.honest && r < |g.replicas| && !g.replicas[r].changing
      && num in g.replicas[r].log && num in g.replicas[r].pre && g.replicas[r].log[num].view == g.replicas[r].view
    case Prepared(r, num, cert) =>
      && r in su.honest && r < |g.replicas| && Current(g.replicas[r], num)
      && cert <= g.net.prepares && HasPrepares(su, cert, g.replicas[r].log[num], num)
    case Committed(r, num, cert, enough) =>
      && r in su.honest && r < |g.replicas| && Current(g.replicas[r], num) && num in g.replicas[r].pre
      && g.replicas[r].log[num].stage >= PREPARED
      && cert <= g.net.commits
      && (enough <==> HasCommits(su, cert, g.replicas[r].log[num], num))
      && var leader := su.Leader(g.replicas[r].view);
         r != leader ==>
           && enough
           && (leader in su.honest && leader < |g.replicas| ==>
                 num in g.replicas[leader].collected && cert == g.replicas[leader].collected[num])
    case StartView(r, view) =>
      r in su.honest && r < |g.replicas| && CanStartView(g.replicas[r], view)
    case OfferView(nv) =>
      && nv.certs <= g.net.vcs && |Senders(nv.certs) * su.All()| >= 2 * su.f + 1
      && (nv.sender in su.honest && nv.sender < |g.replicas| ==>
            Fits(nv) && nv.view > g.replicas[nv.sender].view && nv.sender == su.Leader(g.replicas[nv.sender].view))
    case AdoptView(r, nv) =>
      && r in su.honest && r < |g.replicas| && nv in g.net.nvs && nv.sender == su.Leader(g.replicas[r].view)
      && nv.view > g.replicas[r].view && nv.view >= g.replicas[r].newView
    case FaultyPrePrepare(pp) => su.Leader(pp.view) !in su.honest
    case FaultyPrepare(v) => v.node !in su.honest
    case FaultyCommit(v) => v.node !in su.honest
    case FaultyViewChange(vc) => vc.node !in su.honest
  }

  /** The replica may vote: the entry is of its current view, and it is not changing views. */
  predicate Current(r: Replica.State, num: nat) {
    !r.changing && r.newView <= r.view && num in r.log && r.log[num].view == r.view
  }

  function Put(g: Group, r: nat, s: Replica.State): Group {
    if r < |g.replicas| then g.(replicas := g.replicas[r := s]) else g
  }

  /** The leader keeps what it has collected for its backups. */
  function Keep(r: Replica.State, num: nat, cert: set<Vote>): Replica.State {
    r.(collected := r.collected[num := cert])
  }

  /** The entry is committed if the commits are enough. */
  function AfterCommits(r: Replica.State, num: nat, enough: bool): Replica.State {
    if enough && num in r.pre then Commit(r, num, r.pre[num].st) else r
  }

  /** What the steps of a non-faulty replica make of its own state. */
  ghost function Local(su: Setup, r: Replica.State, a: Action): Replica.State {
    match a
    case Propose(_, digest, st) => Replica.Propose(r, digest, st)
    case Accept(_, pp) => Replica.Accept(r, pp)
    case Again(_, num) => if num in r.log then WriteLog(r, num, r.log[num].digest) else r
    case Prepared(_, num, _) => UpdateLog(r, num, PREPARED)
    case Committed(i, num, cert, enough) =>
      AfterCommits(if i == su.Leader(r.view) then Keep(r, num, cert) else r, num, enough)
    case StartView(_, view) => Replica.StartView(r, view)
    case AdoptView(_, nv) => Replica.AdoptView(r, nv.view, NextAfter(nv.list))
    case _ => r
  }

  /** What the step sends. */
  ghost function Sent(net: Net, r: Replica.State, a: Action): Net {
    match a
    case Propose(_, digest, st) => net.(pre := net.pre + {Proposal(r, digest, st)})
    case Accept(i, pp) => net.(prepares := net.prepares + {Vote(pp.view, pp.num, pp.digest, i)})
    case Prepared(i, num, _) =>
      if num in r.log then net.(commits := net.commits + {Vote(r.view, num, r.log[num].digest, i)}) else net
    case StartView(i, view) => net.(vcs := net.vcs + {ViewChange(view, i, PreparedOf(r))})
    case OfferView(nv) => net.(nvs := net.nvs + {nv})
    case FaultyPrePrepare(pp) => net.(pre := net.pre + {pp})
    case FaultyPrepare(v) => net.(prepares := net.prepares + {v})
    case FaultyCommit(v) => net.(commits := net.commits + {v})
    case FaultyViewChange(vc) => net.(vcs := net.vcs + {vc})
    case _ => net
  }

  predicate IsLocal(a: Action) {
    a.Propose? || a.Accept? || a.Again? || a.Prepared? || a.Committed? || a.StartView? || a.AdoptView?
  }

  ghost function Do(su: Setup, g: Group, a: Action): Group {
    if IsLocal(a) && a.r < |g.replicas|
    then Put(g, a.r, Local(su, g.replicas[a.r], a)).(net := Sent(g.net, g.replicas[a.r], a))
    else g.(net := Sent(g.net, Replica.Init(), a))
  }

  ghost predicate Step(su: Setup, g: Group, a: Action, g': Group) {
    Enabled(su, g, a) && g' == Do(su, g, a)
  }

  /** A faulty replica can send any vote and any view change, and as a leader any pre-prepare, at any time. */
  lemma FaultySends(su: Setup, g: Group, pp: PrePrepare, v: Vote, vc: ViewChange)
    ensures su.Leader(pp.view) !in su.honest ==>
            Step(su, g, FaultyPrePrepare(pp), g.(net := g.net.(pre := g.net.pre + {pp})))
    ensures v.node !in su.honest ==>
              && Step(su, g, FaultyPrepare(v), g.(net := g.net.(prepares := g.net.prepares + {v})))
              && Step(su, g, FaultyCommit(v), g.(net := g.net.(commits := g.net.commits + {v})))
    ensures vc.node !in su.honest ==> Step(su, g, FaultyViewChange(vc), g.(net := g.net.(vcs := g.net.vcs + {vc})))
  {
  }

  datatype Run = Run(groups: seq<Group>, actions: seq<Action>) {
    ghost predicate Of(su: Setup) {
      && |groups| == |actions| + 1
      && groups[0] == InitGroup(su)
      && (forall i | 0 <= i < |actions| :: Step(su, groups[i], actions[i], groups[i + 1]))
    }

    /** No request is sent again under its old number. */
    predicate NoRetransmission() {
      forall i | 0 <= i < |actions| :: !actions[i].Again?
    }

    predicate SingleView() {
      forall i | 0 <= i < |actions| :: !actions[i].AdoptView?
    }
  }

  /** What holds at the start and is kept by all steps of a kind holds throughout a run of such steps. */
  lemma {:induction false} Throughout(su: Setup, run: Run, kind: (Group, Action) -> bool, p: Group -> bool, i: nat)
    requires run.Of(su) && i < |run.groups|
    requires forall k | 0 <= k < |run.actions| :: kind(run.groups[k], run.actions[k])
    requires p(InitGroup(su))
    requires forall g, a | p(g) && kind(g, a) && Enabled(su, g, a) :: p(Do(su, g, a))
    ensures p(run.groups[i])
  {
    if i > 0 {
      Throughout(su, run, kind, p, i - 1);
      assert kind(run.groups[i - 1], run.actions[i - 1])
             && Step(su, run.groups[i - 1], run.actions[i - 1], run.groups[i]);
    }
  }

  /** A replica may vote on what it has just proposed, accepted or written again, unless it wants a later view. */
  lemma FreshIsCurrent(su: Setup, g: Group, a: Action)
    requires Enabled(su, g, a) && (a.Propose? || a.Accept? || a.Again?)
             && g.replicas[a.r].newView <= g.replicas[a.r].view
    ensures var r := Do(su, g, a).replicas[a.r];
            match a
            case Propose(_, _, _) => Current(r, g.replicas[a.r].next)
            case Accept(_, pp) => Current(r, pp.num)
            case Again(_, num) => Current(r, num)
            case _ => true
  {
  }

  /***** What every step keeps *****/

  ghost predicate EntryOk(su: Setup, net: Net, r: Replica.State, n: nat) {
    && n in r.log
    && var e := r.log[n];
    && n in r.pre && r.pre[n] in net.pre
    && r.pre[n].view == e.view && r.pre[n].num == n && r.pre[n].digest == e.digest
    && e.view <= r.view && e.digest.Of?
    && (e.stage >= PREPARED ==> HasPrepares(su, net.prepares, e, n))
    && (e.stage >= COMMITTED ==> HasCommits(su, net.commits, e, n))
  }

  /** A vote for the replica's current view matches its log. */
  predicate Backs(r: Replica.State, v: Vote) {
    v.view <= r.view && (v.view == r.view ==>
                         v.num in r.log && r.log[v.num].view == v.view && r.log[v.num].digest == v.digest)
  }

  ghost predicate VoteOk(su: Setup, replicas: seq<Replica.State>, v: Vote) {
    v.node in su.honest && v.node < |replicas| ==> Backs(replicas[v.node], v)
  }

  /** A non-faulty leader numbers its proposals upwards. */
  ghost predicate ProposalOk(su: Setup, replicas: seq<Replica.State>, pp: PrePrepare) {
    var l := su.Leader(pp.view);
    l in su.honest && l < |replicas| ==>
      pp.view <= replicas[l].view && (pp.view == replicas[l].view ==> pp.num < replicas[l].next)
  }

  ghost predicate SameDigest(su: Setup, v: Vote, w: Vote) {
    v.node in su.honest && v.node == w.node && v.view == w.view && v.num == w.num ==> v.digest == w.digest
  }

  ghost predicate SameProposal(su: Setup, p: PrePrepare, q: PrePrepare) {
    su.Leader(p.view) in su.honest && p.view == q.view && p.num == q.num ==> p == q
  }

  ghost predicate LogsOk(su: Setup, g: Group) {
    forall r, n | r in su.honest && r < |g.replicas| && n in g.replicas[r].log :: EntryOk(su, g.net, g.replicas[r], n)
  }

  ghost predicate VotesOk(su: Setup, g: Group) {
    && (forall v | v in g.net.prepares :: VoteOk(su, g.replicas, v))
    && (forall v | v in g.net.commits :: VoteOk(su, g.replicas, v))
    && (forall v, w | v in g.net.prepares && w in g.net.prepares :: SameDigest(su, v, w))
    && (forall v, w | v in g.net.commits && w in g.net.commits :: SameDigest(su, v, w))
  }

  ghost predicate ProposalsOk(su: Setup, g: Group) {
    && (forall pp | pp in g.net.pre :: ProposalOk(su, g.replicas, pp))
    && (forall p, q | p in g.net.pre && q in g.net.pre :: SameProposal(su, p, q))
  }

  ghost predicate Inv(su: Setup, g: Group) {
    |g.replicas| == su.N() && LogsOk(su, g) && VotesOk(su, g) && ProposalsOk(su, g)
  }

  lemma NetGrows(su: Setup, g: Group, a: Action)
    ensures var net, net' := g.net, Do(su, g, a).net;
            net.pre <= net'.pre && net.prepares <= net'.prepares && net.commits <= net'.commits && net.vcs <= net'.vcs
                && net.nvs <= net'.nvs
  {
  }

  lemma QuorumsGrow(su: Setup, votes: set<Vote>, more: set<Vote>, e: LogEntry, n: nat)
    requires votes <= more
    ensures HasPrepares(su, votes, e, n) ==> HasPrepares(su, more, e, n)
    ensures HasCommits(su, votes, e, n) ==> HasCommits(su, more, e, n)
  {
    VotersGrow(votes, more, e.view, n, e.digest);
    SubsetSize(Backers(su, votes, e.view, n, e.digest), Backers(su, more, e.view, n, e.digest));
    SubsetSize(Signers(su, votes, e.view, n, e.digest), Signers(su, more, e.view, n, e.digest));
  }

  lemma EntryStays(su: Setup, net: Net, net': Net, r: Replica.State, n: nat)
    requires net.pre <= net'.pre && net.prepares <= net'.prepares && net.commits <= net'.commits
    requires n in r.log && EntryOk(su, net, r, n)
    ensures EntryOk(su, net', r, n)
  {
    QuorumsGrow(su, net.prepares, net'.prepares, r.log[n], n);
    QuorumsGrow(su, net.commits, net'.commits, r.log[n], n);
  }

  /** The steps that write a fresh entry. */
  lemma FreshEntry(su: Setup, g: Group, a: Action, n: nat)
    requires Inv(su, g) && Enabled(su, g, a) && (a.Propose? || a.Accept? || a.Again?)
    requires n in Local(su, g.replicas[a.r], a).log
    ensures EntryOk(su, Sent(g.net, g.replicas[a.r], a), Local(su, g.replicas[a.r], a), n)
  {
    NetGrows(su, g, a);
    if n in g.replicas[a.r].log {
      assert EntryOk(su, g.net, g.replicas[a.r], n);
      EntryStays(su, g.net, Sent(g.net, g.replicas[a.r], a), g.replicas[a.r], n);
    }
  }

  /** Moving an entry on keeps it right if the quorum of its new stage is there. */
  lemma UpdatedEntry(su: Setup, net: Net, r: Replica.State, num: nat, stage: nat, n: nat)
    requires n in r.log && EntryOk(su, net, r, n)
    requires n == num && stage >= PREPARED ==> HasPrepares(su, net.prepares, r.log[n], n)
    requires n == num && stage >= COMMITTED ==> HasCommits(su, net.commits, r.log[n], n)
    ensures EntryOk(su, net, UpdateLog(r, num, stage), n)
  {
    assert r.log[n].(stage := stage).digest == r.log[n].digest;
  }

  /** The steps that move an entry on, or leave the view. */
  lemma LaterEntry(su: Setup, g: Group, a: Action, n: nat)
    requires Inv(su, g) && Enabled(su, g, a) && (a.Prepared? || a.Committed? || a.StartView? || a.AdoptView?)
    requires n in g.replicas[a.r].log
    ensures EntryOk(su, Sent(g.net, g.replicas[a.r], a), Local(su, g.replicas[a.r], a), n)
  {
    var r, net := g.replicas[a.r], Sent(g.net, g.replicas[a.r], a);
    NetGrows(su, g, a);
    assert EntryOk(su, g.net, r, n);
    EntryStays(su, g.net, net, r, n);
    if a.Committed? {
      assert EntryOk(su, g.net, r, a.num);
      EntryStays(su, g.net, net, r, a.num);
    }
    MovedEntry(su, net, r, a, n);
  }

  lemma MovedEntry(su: Setup, net: Net, r: Replica.State, a: Action, n: nat)
    requires a.Prepared? || a.Committed? || a.StartView? || a.AdoptView?
    requires n in r.log && EntryOk(su, net, r, n)
    requires a.Prepared? ==> a.num in r.log && a.cert <= net.prepares && HasPrepares(su, a.cert, r.log[a.num], a.num)
    requires a.Committed? ==> a.num in r.log && EntryOk(su, net, r, a.num) && r.log[a.num].stage >= PREPARED
    requires a.Committed? ==> a.cert <= net.commits && (a.enough ==> HasCommits(su, a.cert, r.log[a.num], a.num))
    requires a.AdoptView? ==> a.nv.view > r.view
    ensures EntryOk(su, net, Local(su, r, a), n)
  {
    if a.Prepared? {
      PreparedEntry(su, net, r, a.num, a.cert, n);
    } else if a.Committed? {
      CommittedEntry(su, net, if a.r == su.Leader(r.view) then Keep(r, a.num, a.cert)
                     else r, a.num, a.cert, a.enough, n);
    }
  }

  lemma PreparedEntry(su: Setup, net: Net, r: Replica.State, num: nat, cert: set<Vote>, n: nat)
    requires n in r.log && EntryOk(su, net, r, n) && num in r.log
    requires cert <= net.prepares && HasPrepares(su, cert, r.log[num], num)
    ensures EntryOk(su, net, UpdateLog(r, num, PREPARED), n)
  {
    QuorumsGrow(su, cert, net.prepares, r.log[num], num);
    UpdatedEntry(su, net, r, num, PREPARED, n);
  }

  lemma CommittedEntry(su: Setup, net: Net, r: Replica.State, num: nat, cert: set<Vote>, enough: bool, n: nat)
    requires n in r.log && EntryOk(su, net, r, n) && num in r.log && EntryOk(su, net, r, num)
    requires r.log[num].stage >= PREPARED && cert <= net.commits && (enough ==> HasCommits(su, cert, r.log[num], num))
    ensures EntryOk(su, net, AfterCommits(r, num, enough), n)
  {
    if enough {
      QuorumsGrow(su, cert, net.commits, r.log[num], num);
      UpdatedEntry(su, net, r, num, COMMITTED, n);
    }
  }

  lemma StepEntry(su: Setup, g: Group, a: Action, r: nat, n: nat)
    requires Inv(su, g) && Enabled(su, g, a) && r in su.honest && r < |g.replicas| && n in Do(su, g, a).replicas[r].log
    ensures EntryOk(su, Do(su, g, a).net, Do(su, g, a).replicas[r], n)
  {
    NetGrows(su, g, a);
    if !IsLocal(a) || a.r != r {
      assert EntryOk(su, g.net, g.replicas[r], n);
      EntryStays(su, g.net, Do(su, g, a).net, g.replicas[r], n);
    } else if a.Propose? || a.Accept? || a.Again? {
      FreshEntry(su, g, a, n);
    } else {
      LaterEntry(su, g, a, n);
    }
  }

  lemma StepLogs(su: Setup, g: Group, a: Action)
    requires Inv(su, g) && Enabled(su, g, a)
    ensures LogsOk(su, Do(su, g, a))
  {
    var g' := Do(su, g, a);
    forall r, n | r in su.honest && r < |g'.replicas| && n in g'.replicas[r].log
      ensures EntryOk(su, g'.net, g'.replicas[r], n)
    {
      StepEntry(su, g, a, r, n);
    }
  }

  lemma StepProposal(su: Setup, g: Group, a: Action, pp: PrePrepare)
    requires Inv(su, g) && Enabled(su, g, a) && pp in Do(su, g, a).net.pre
    ensures ProposalOk(su, Do(su, g, a).replicas, pp)
  {
    assert pp in g.net.pre ==> ProposalOk(su, g.replicas, pp);
    if IsLocal(a) {
      NextRises(su, g.replicas[a.r], a);
    }
  }

  /** Within a view, the next number only goes up. */
  lemma NextRises(su: Setup, r: Replica.State, a: Action)
    requires IsLocal(a) && (a.AdoptView? ==> a.nv.view > r.view)
    ensures Local(su, r, a).view > r.view || (Local(su, r, a).view == r.view && Local(su, r, a).next >= r.next)
  {
  }

  lemma StepProposals(su: Setup, g: Group, a: Action)
    requires Inv(su, g) && Enabled(su, g, a)
    ensures ProposalsOk(su, Do(su, g, a))
  {
    var g' := Do(su, g, a);
    forall pp | pp in g'.net.pre ensures ProposalOk(su, g'.replicas, pp) {
      StepProposal(su, g, a, pp);
    }
    forall p, q | p in g'.net.pre && q in g'.net.pre ensures SameProposal(su, p, q) {
      NewProposal(su, g, a, p, q);
    }
  }

  lemma NewProposal(su: Setup, g: Group, a: Action, p: PrePrepare, q: PrePrepare)
    requires Inv(su, g) && Enabled(su, g, a) && p in Do(su, g, a).net.pre && q in Do(su, g, a).net.pre
    ensures SameProposal(su, p, q)
  {
    if p in g.net.pre {
      assert ProposalOk(su, g.replicas, p);
    }
    if q in g.net.pre {
      assert ProposalOk(su, g.replicas, q);
    }
    if p in g.net.pre && q in g.net.pre {
      assert SameProposal(su, p, q);
    }
  }

  /** A step that overwrites a log entry overwrites one that no vote of the current view relies on. */
  lemma FreshNumber(su: Setup, g: Group, a: Action)
    requires Inv(su, g) && Enabled(su, g, a) && (a.Propose? || a.Accept?)
    ensures var r := g.replicas[a.r];
            var n := if a.Propose? then r.next else a.pp.num;
            n in r.log ==> r.log[n].view != r.view
  {
    var r := g.replicas[a.r];
    if a.Propose? && r.next in r.log {
      assert EntryOk(su, g.net, r, r.next);
      assert ProposalOk(su, g.replicas, r.pre[r.next]);
    }
  }

  lemma LocalBacks(su: Setup, r: Replica.State, a: Action, v: Vote)
    requires Backs(r, v) && IsLocal(a)
    requires a.Propose? ==> r.next in r.log ==> r.log[r.next].view != r.view
    requires a.Accept? ==> a.pp.num in r.log ==> r.log[a.pp.num].view != r.view
    requires a.AdoptView? ==> a.nv.view > r.view
    ensures Backs(Local(su, r, a), v)
  {
    match a
    case Committed(i, num, cert, enough) =>
      CommittedBacks(if i == su.Leader(r.view) then Keep(r, num, cert) else r, num, enough, v);
    case _ =>
  }

  lemma CommittedBacks(r: Replica.State, num: nat, enough: bool, v: Vote)
    requires Backs(r, v)
    ensures Backs(AfterCommits(r, num, enough), v)
  {
  }

  lemma StepVote(su: Setup, g: Group, a: Action, v: Vote)
    requires Inv(su, g) && Enabled(su, g, a) && VoteOk(su, g.replicas, v)
    ensures VoteOk(su, Do(su, g, a).replicas, v)
  {
    if IsLocal(a) && a.r == v.node && v.node in su.honest {
      if a.Propose? || a.Accept? {
        FreshNumber(su, g, a);
      }
      LocalBacks(su, g.replicas[a.r], a, v);
    }
  }

  lemma StepVotes(su: Setup, g: Group, a: Action)
    requires Inv(su, g) && Enabled(su, g, a)
    ensures VotesOk(su, Do(su, g, a))
  {
    var g' := Do(su, g, a);
    forall v | v in g'.net.prepares ensures VoteOk(su, g'.replicas, v) {
      if v in g.net.prepares {
        StepVote(su, g, a, v);
      }
    }
    forall v | v in g'.net.commits ensures VoteOk(su, g'.replicas, v) {
      if v in g.net.commits {
        StepVote(su, g, a, v);
      }
    }
    forall v, w | v in g'.net.prepares && w in g'.net.prepares ensures SameDigest(su, v, w) {
      NewPrepare(su, g, a, v, w);
    }
    forall v, w | v in g'.net.commits && w in g'.net.commits ensures SameDigest(su, v, w) {
      NewCommit(su, g, a, v, w);
    }
  }

  lemma NewPrepare(su: Setup, g: Group, a: Action, v: Vote, w: Vote)
    requires Inv(su, g) && Enabled(su, g, a) && v in Do(su, g, a).net.prepares && w in Do(su, g, a).net.prepares
    ensures SameDigest(su, v, w)
  {
    if v in g.net.prepares {
      assert VoteOk(su, g.replicas, v);
    }
    if w in g.net.prepares {
      assert VoteOk(su, g.replicas, w);
    }
    if v in g.net.prepares && w in g.net.prepares {
      assert SameDigest(su, v, w);
    }
  }

  lemma NewCommit(su: Setup, g: Group, a: Action, v: Vote, w: Vote)
    requires Inv(su, g) && Enabled(su, g, a) && v in Do(su, g, a).net.commits && w in Do(su, g, a).net.commits
    ensures SameDigest(su, v, w)
  {
    if v in g.net.commits {
      assert VoteOk(su, g.replicas, v);
    }
    if w in g.net.commits {
      assert VoteOk(su, g.replicas, w);
    }
    if v in g.net.commits && w in g.net.commits {
      assert SameDigest(su, v, w);
    }
  }

  lemma StepInv(su: Setup, g: Group, a: Action)
    requires Inv(su, g) && Enabled(su, g, a)
    ensures Inv(su, Do(su, g, a))
  {
    StepLogs(su, g, a);
    StepVotes(su, g, a);
    StepProposals(su, g, a);
  }

  lemma RunInv(su: Setup, run: Run, i: nat)
    requires su.Valid() && run.Of(su) && i < |run.groups|
    ensures Inv(su, run.groups[i])
  {
    forall g: Group, a: Action | Inv(su, g) && Enabled(su, g, a) ensures Inv(su, Do(su, g, a)) {
      StepInv(su, g, a);
    }
    Throughout(su, run, (g, a) => true, g => Inv(su, g), i);
  }

  lemma {:induction false} RunNetGrows(su: Setup, run: Run, i: nat, j: nat)
    requires run.Of(su) && i <= j < |run.groups|
    ensures run.groups[i].net.pre <= run.groups[j].net.pre
    ensures run.groups[i].net.prepares <= run.groups[j].net.prepares
    ensures run.groups[i].net.commits <= run.groups[j].net.commits
    ensures run.groups[i].net.nvs <= run.groups[j].net.nvs
    decreases j - i
  {
    if i < j {
      assert Step(su, run.groups[i], run.actions[i], run.groups[i + 1]);
      NetGrows(su, run.groups[i], run.actions[i]);
      RunNetGrows(su, run, i + 1, j);
    }
  }

  /***** Agreement *****/

  /** Two quorums have a non-faulty member in common. */
  lemma QuorumsMeet(su: Setup, a: set<nat>, b: set<nat>) returns (h: nat)
    requires su.Valid() && a <= su.All() && b <= su.All() && |a| >= 2 * su.f + 1 && |b| >= 2 * su.f + 1
    ensures h in a && h in b && h in su.honest
  {
    Overlap(a, b, su.All());
    Overlap(a * b, su.honest, su.All());
    h :| h in a * b * su.honest;
  }

  /** The replica's log has an entry of this view and stage. */
  predicate Reached(g: Group, r: nat, n: nat, view: nat, stage: nat) {
    r < |g.replicas| && n in g.replicas[r].log && g.replicas[r].log[n].view == view
        && g.replicas[r].log[n].stage >= stage
  }

  /** Two non-faulty replicas that commit the same number in the same view, whenever they do, commit
      the same digest, whatever up to f faulty replicas (the leader included) send. */
  lemma CommitAgreement(su: Setup, run: Run, i: nat, j: nat, a: nat, b: nat, n: nat, view: nat)
    requires su.Valid() && run.Of(su) && i < |run.groups| && j < |run.groups|
    requires a in su.honest && Reached(run.groups[i], a, n, view, COMMITTED)
    requires b in su.honest && Reached(run.groups[j], b, n, view, COMMITTED)
    ensures run.groups[i].replicas[a].log[n].digest == run.groups[j].replicas[b].log[n].digest
  {
    var k := |run.actions|;
    var e, e' := run.groups[i].replicas[a].log[n], run.groups[j].replicas[b].log[n];
    var net := run.groups[k].net;
    RunInv(su, run, i);
    RunInv(su, run, j);
    RunInv(su, run, k);
    RunNetGrows(su, run, i, k);
    RunNetGrows(su, run, j, k);
    assert EntryOk(su, run.groups[i].net, run.groups[i].replicas[a], n);
    assert EntryOk(su, run.groups[j].net, run.groups[j].replicas[b], n);
    QuorumsGrow(su, run.groups[i].net.commits, net.commits, e, n);
    QuorumsGrow(su, run.groups[j].net.commits, net.commits, e', n);
    var h := QuorumsMeet(su, Signers(su, net.commits, view, n, e.digest), Signers(su, net.commits, view, n, e'.digest));
    assert SameDigest(su, Vote(view, n, e.digest, h), Vote(view, n, e'.digest, h));
  }

  /** Two sets of 2f backups share a non-faulty one if the leader is faulty. */
  lemma BackersMeet(su: Setup, view: nat, a: set<nat>, b: set<nat>) returns (h: nat)
    requires su.Valid() && su.Leader(view) !in su.honest
    requires a <= su.All() - {su.Leader(view)} && b <= su.All() - {su.Leader(view)} && |a| >= 2 * su.f
             && |b| >= 2 * su.f
    ensures h in a && h in b && h in su.honest
  {
    var backups := su.All() - {su.Leader(view)};
    assert |backups| == 3 * su.f;
    Overlap(a, b, backups);
    assert su.honest <= backups;
    Overlap(a * b, su.honest, backups);
    SubsetSize(su.honest, backups);
    h :| h in a * b * su.honest;
  }

  /** Two non-faulty replicas cannot be prepared for different digests at one number of one view. */
  lemma PreparedUnique(su: Setup, run: Run, i: nat, j: nat, a: nat, b: nat, n: nat, view: nat)
    requires su.Valid() && run.Of(su) && i < |run.groups| && j < |run.groups|
    requires a in su.honest && Reached(run.groups[i], a, n, view, PREPARED)
    requires b in su.honest && Reached(run.groups[j], b, n, view, PREPARED)
    ensures run.groups[i].replicas[a].log[n].digest == run.groups[j].replicas[b].log[n].digest
  {
    var k := |run.actions|;
    var e, e' := run.groups[i].replicas[a].log[n], run.groups[j].replicas[b].log[n];
    var net := run.groups[k].net;
    RunInv(su, run, i);
    RunInv(su, run, j);
    RunInv(su, run, k);
    RunNetGrows(su, run, i, k);
    RunNetGrows(su, run, j, k);
    assert EntryOk(su, run.groups[i].net, run.groups[i].replicas[a], n);
    assert EntryOk(su, run.groups[j].net, run.groups[j].replicas[b], n);
    if su.Leader(view) in su.honest {
      assert SameProposal(su, run.groups[i].replicas[a].pre[n], run.groups[j].replicas[b].pre[n]);
    } else {
      QuorumsGrow(su, run.groups[i].net.prepares, net.prepares, e, n);
      QuorumsGrow(su, run.groups[j].net.prepares, net.prepares, e', n);
      var h := BackersMeet(su, view, Backers(su, net.prepares, view, n, e.digest),
                           Backers(su, net.prepares, view, n, e'.digest));
      assert SameDigest(su, Vote(view, n, e.digest, h), Vote(view, n, e'.digest, h));
    }
  }
}

/** The two layers together: in every cluster a group of replicas runs the consensus protocol, its
    leader handles the two-phase commit, and every replica executes what it has stored. One view,
    non-faulty leaders, arbitrary faulty backups; failed runs and resubmissions are included. */
module System {
  import opened Transfers
  import opened Messages
  import opened Ledger
  import opened Replay
  import opened Solvency
  import Replica
  import Cluster
  import TwoPhase
  import Consensus
  import SingleView
  import Certificates
  import Credit

  /** A backup's database and the next number its executor waits for. The leader's are in its cluster. */
  datatype Books = Books(db: Db, exec: nat)

  datatype World = World(cfg: Config, su: seq<Consensus.Setup>) {
    ghost predicate Valid() {
      && cfg.Valid() && |su| == |cfg.shards|
      && (forall c | 0 <= c < |su| :: su[c].Valid() && su[c].Leader(1) in su[c].honest)
      && (forall b, c | 0 <= b < |su| && 0 <= c < |su| :: su[b].f == su[c].f)
    }
  }

  datatype State = State(ledger: TwoPhase.State, groups: seq<Consensus.Group>, books: seq<seq<Books>>)

  /** A step of a leader with its part in the consensus, a consensus step elsewhere in the group, or
      a backup executing its next entry. The commits are those a participant was called with. */
  datatype Action =
    | Handle(c: nat, a: Cluster.Action, part: seq<Consensus.Action>, commits: seq<Certificates.Signed>)
    | Exchange(c: nat, b: Consensus.Action)
    | Execute(c: nat, r: nat)

  function InitSystem(w: World): State
    requires |w.su| == |w.cfg.shards|
  {
    State(TwoPhase.Init(w.cfg),
          seq(|w.su|, c requires 0 <= c < |w.su| => Consensus.InitGroup(w.su[c])),
          seq(|w.su|, c requires 0 <= c < |w.su| =>
            seq(w.su[c].N(), _ => Books(Db(Initial(w.cfg.shards[c]), {}, map[]), 1))))
  }

  /** A run of the leader starts with its pre-prepare, sent again for a resubmitted request, and ends with
      the commits it has collected: enough of them or not, or none if it never got prepared. */
  predicate Matches(cfg: Config, su: Consensus.Setup, s: Cluster.State, a: Cluster.Action, part: seq<Consensus.Action>)
  {
    var l := su.Leader(1);
    match a
    case Assign(t) =>
      && t < |cfg.txs| && t < |s.jobs|
      && part == [if s.jobs[t].first == 0 then Consensus.Propose(l, Of(t), cfg.txs[t].FirstStatus())
                  else Consensus.Again(l, s.jobs[t].first)]
    case Start(t, st) => part == [Consensus.Propose(l, Of(t), st)]
    case Commit(t) => |part| == 1 && EndsRun(l, s, t, part[0]) && part[0].enough
    case Fail(t) => part == [] || (|part| == 1 && EndsRun(l, s, t, part[0]) && !part[0].enough)
    case _ => part == []
  }

  predicate EndsRun(l: nat, s: Cluster.State, t: nat, b: Consensus.Action) {
    b.Committed? && b.r == l && t < |s.jobs| && s.jobs[t].pc.Running? && b.num == s.jobs[t].pc.n
  }

  /** The other consensus steps: those of backups, of faulty replicas, and the leader's voting. A
      backup commits a prepare once, since cross-shard requests are not resubmitted. */
  predicate Elsewhere(l: nat, g: Consensus.Group, b: Consensus.Action) {
    && !b.Propose? && !b.AdoptView? && (b.Again? ==> b.r != l)
    && (b.Committed? ==>
          b.r != l && b.r < |g.replicas|
          && (b.num in g.replicas[b.r].store ==> g.replicas[b.r].store[b.num].st == Plain))
  }

  /** A backup's write-ahead log is written when it commits a prepare. */
  function Noted(cfg: Config, g': Consensus.Group, b: Consensus.Action, bs: seq<Books>): seq<Books> {
    if b.Committed? && b.enough && b.r < |bs| && b.r < |g'.replicas| && b.num in g'.replicas[b.r].store
       && g'.replicas[b.r].store[b.num].t < |cfg.txs|
    then
      var e := g'.replicas[b.r].store[b.num];
      bs[b.r := bs[b.r].(db := Logged(bs[b.r].db, cfg.txs[e.t], e.st))]
    else bs
  }

  /** A participant numbers a transfer only if it was called with commits that pass its check. They did
      when the call came; what has been sent stays sent, so they still do. */
  ghost predicate Certified(w: World, s: State, c: nat, a: Cluster.Action, commits: seq<Certificates.Signed>)
    requires c < |w.su|
  {
    a.Assign? && a.t < |w.cfg.txs| && w.cfg.txs[a.t].Cross() && c == w.cfg.txs[a.t].clusterTo ==>
      var from := w.cfg.txs[a.t].clusterFrom;
      && from < |w.su| && from < |s.groups|
      && Credit.Passes(w.su[c].f, w.su[from], s.groups[from].net, a.t, commits)
  }

  ghost predicate HandleStep(w: World, s: State, c: nat, a: Cluster.Action, part: seq<Consensus.Action>,
                             commits: seq<Certificates.Signed>, s': State)
    requires c < |s.groups| && c < |s.ledger.cl| && c < |w.su|
  {
    && Certified(w, s, c, a, commits)
    && TwoPhase.Step(w.cfg, s.ledger, c, a, s'.ledger)
    && Matches(w.cfg, w.su[c], s.ledger.cl[c], a, part)
    && (part != [] ==> Consensus.Enabled(w.su[c], s.groups[c], part[0]))
    && s'.groups == s.groups[c := if part == [] then s.groups[c] else Consensus.Do(w.su[c], s.groups[c], part[0])]
    && s'.books == s.books
  }

  ghost predicate ExchangeStep(w: World, s: State, c: nat, b: Consensus.Action, s': State)
    requires c < |s.groups| && c < |s.books| && c < |w.su|
  {
    var g' := Consensus.Do(w.su[c], s.groups[c], b);
    && Elsewhere(w.su[c].Leader(1), s.groups[c], b) && Consensus.Enabled(w.su[c], s.groups[c], b)
    && s'.ledger == s.ledger
    && s'.groups == s.groups[c := g']
    && s'.books == s.books[c := Noted(w.cfg, g', b, s.books[c])]
  }

  ghost predicate ExecuteStep(w: World, s: State, c: nat, r: nat, s': State)
    requires c < |s.groups| && c < |s.books| && c < |w.su|
  {
    && r in w.su[c].honest && r != w.su[c].Leader(1) && r < |s.books[c]| && r < |s.groups[c].replicas|
    && CanExecute(w.cfg, s.groups[c].replicas[r].store, s.books[c][r])
    && s'.ledger == s.ledger && s'.groups == s.groups
    && s'.books == s.books[c := s.books[c][r := Executed(w.cfg, s.groups[c].replicas[r].store, s.books[c][r])]]
  }

  predicate CanExecute(cfg: Config, store: map<nat, Entry>, b: Books) {
    b.exec in store && store[b.exec].t < |cfg.txs|
  }

  /** A backup's executor takes its next entry. */
  function Executed(cfg: Config, store: map<nat, Entry>, b: Books): Books
    requires CanExecute(cfg, store, b)
  {
    Books(Ledger.Execute(b.db, cfg.txs[store[b.exec].t], store[b.exec].st), b.exec + 1)
  }

  ghost predicate Step(w: World, s: State, x: Action, s': State) {
    && Sized(w, s)
    && x.c < |w.su|
    && match x
       case Handle(c, a, part, commits) => HandleStep(w, s, c, a, part, commits, s')
       case Exchange(c, b) => ExchangeStep(w, s, c, b, s')
       case Execute(c, r) => ExecuteStep(w, s, c, r, s')
  }

  ghost predicate Sized(w: World, s: State) {
    |s.groups| == |s.books| == |s.ledger.cl| == |w.su|
  }

  datatype Run = Run(states: seq<State>, actions: seq<Action>) {
    ghost predicate Of(w: World)
      requires |w.su| == |w.cfg.shards|
    {
      && |states| == |actions| + 1
      && states[0] == InitSystem(w)
      && forall i | 0 <= i < |actions| :: Step(w, states[i], actions[i], states[i + 1])
    }

    /** Every consensus run that was given a sequence number commits. */
    predicate NoFailure() {
      forall i | 0 <= i < |actions| :: !Failing(actions[i])
    }

    /** No request is submitted a second time. */
    predicate NoResend() {
      forall i | 0 <= i < |actions| :: !Resending(actions[i])
    }
  }

  predicate Resending(x: Action) {
    x.Handle? && x.a.Resend?
  }

  predicate Failing(x: Action) {
    x.Handle? && x.a.Fail?
  }

  /***** How the layers fit together *****/

  predicate Proposed(r: Replica.State, n: nat, t: nat, st: Status) {
    n in r.pre && r.pre[n] == PrePrepare(1, n, Of(t), st)
  }

  /** The runs under way at the leader are the proposals its replica has logged, and so is every run
      that may be taken up again. */
  ghost predicate RunProposed(cfg: Config, s: Cluster.State, r: Replica.State, t: nat)
    requires t < |s.jobs| == |cfg.txs|
  {
    && (s.jobs[t].pc.Running? ==> Proposed(r, s.jobs[t].pc.n, t, s.jobs[t].pc.st))
    && (s.jobs[t].first != 0 ==> Proposed(r, s.jobs[t].first, t, cfg.txs[t].FirstStatus()))
  }

  /** The leader's replica and the leader's handlers are one node. */
  ghost predicate OneNode(cfg: Config, s: Cluster.State, r: Replica.State) {
    && |s.jobs| == |cfg.txs|
    && r.next == s.next
    && r.store == s.log
    && (forall t | 0 <= t < |s.jobs| :: RunProposed(cfg, s, r, t))
  }

  ghost predicate Joined(cfg: Config, su: Consensus.Setup, s: Cluster.State, g: Consensus.Group) {
    && SingleView.Following(su, g)
    && su.Leader(1) < |g.replicas|
    && OneNode(cfg, s, g.replicas[su.Leader(1)])
  }

  lemma InitJoined(cfg: Config, su: Consensus.Setup, c: nat)
    requires su.Valid() && c < |cfg.shards|
    ensures Joined(cfg, su, Cluster.Init(cfg, c), Consensus.InitGroup(su))
  {
    SingleView.InitFollowing(su);
  }

  /** The leader's replica after a proposal or after the end of a run. */
  lemma ProposedNode(su: Consensus.Setup, r: Replica.State, digest: Digest, st: Status)
    ensures var r' := Consensus.Local(su, r, Consensus.Propose(su.Leader(1), digest, st));
            && r'.next == r.next + 1 && r'.store == r.store
            && r'.pre == r.pre[r.next := PrePrepare(r.view, r.next, digest, st)]
  {
  }

  lemma EndedNode(su: Consensus.Setup, r: Replica.State, b: Consensus.Action)
    requires b.Committed? && b.num in r.log && b.num in r.pre && r.log[b.num].digest.Of?
    ensures var r' := Consensus.Local(su, r, b);
            && r'.next == r.next && r'.pre == r.pre
            && r'.store == if b.enough then r.store[b.num := Entry(r.log[b.num].digest.t, r.pre[b.num].st)] else r.store
  {
    CommittedNode(if b.r == su.Leader(r.view) then Consensus.Keep(r, b.num, b.cert) else r, b.num, b.enough);
  }

  lemma CommittedNode(r: Replica.State, num: nat, enough: bool)
    requires num in r.log && num in r.pre && r.log[num].digest.Of?
    ensures var r' := Consensus.AfterCommits(r, num, enough);
            && r'.next == r.next && r'.pre == r.pre
            && r'.store == if enough then r.store[num := Entry(r.log[num].digest.t, r.pre[num].st)] else r.store
  {
  }

  lemma AgainNode(su: Consensus.Setup, r: Replica.State, num: nat)
    ensures var r' := Consensus.Local(su, r, Consensus.Again(su.Leader(1), num));
            r'.next == r.next && r'.store == r.store && r'.pre == r.pre
  {
  }

  lemma HandleNode(cfg: Config, su: Consensus.Setup, c: nat, s: Cluster.State, r: Replica.State, a: Cluster.Action,
                   part: seq<Consensus.Action>)
    requires cfg.Valid() && Cluster.Basic(cfg, c, s) && Cluster.Enabled(cfg, c, s, a)
    requires Matches(cfg, su, s, a, part) && OneNode(cfg, s, r) && r.view == 1
    requires a.Commit? || a.Fail? ==> s.jobs[a.t].pc.n in r.log && r.log[s.jobs[a.t].pc.n].digest == Of(a.t)
    ensures OneNode(cfg, Cluster.Do(cfg, s, a), if part == [] then r else Consensus.Local(su, r, part[0]))
  {
    var s', r' := Cluster.Do(cfg, s, a), if part == [] then r else Consensus.Local(su, r, part[0]);
    if !a.Exec? {
      assert RunProposed(cfg, s, r, a.t) && Cluster.SideOk(cfg.txs[a.t], c, s, a.t);
    }
    if part != [] {
      if part[0].Propose? {
        ProposedNode(su, r, part[0].digest, part[0].st);
      } else if part[0].Again? {
        AgainNode(su, r, part[0].num);
      } else {
        EndedNode(su, r, part[0]);
      }
    }
    HandleRuns(cfg, c, s, r, r', a);
  }

  lemma HandleRuns(cfg: Config, c: nat, s: Cluster.State, r: Replica.State, r': Replica.State, a: Cluster.Action)
    requires cfg.Valid() && Cluster.Basic(cfg, c, s) && Cluster.Enabled(cfg, c, s, a) && OneNode(cfg, s, r)
             && r.view == 1
    requires if a.Start? then r'.pre == r.pre[r.next := PrePrepare(r.view, r.next, Of(a.t), a.st)]
             else if a.Assign? && s.jobs[a.t].first == 0
                 then r'.pre == r.pre[r.next := PrePrepare(r.view, r.next, Of(a.t), cfg.txs[a.t].FirstStatus())]
             else r'.pre == r.pre
    ensures var s' := Cluster.Do(cfg, s, a); forall t | 0 <= t < |s'.jobs| :: RunProposed(cfg, s', r', t)
  {
    var s' := Cluster.Do(cfg, s, a);
    forall t | 0 <= t < |s.jobs| ensures |s'.jobs| == |s.jobs| && RunProposed(cfg, s', r', t) {
      assert RunProposed(cfg, s, r, t) && Cluster.SideOk(cfg.txs[t], c, s, t);
      if !a.Exec? && a.t == t {
        OwnRun(cfg, c, s, r, r', a);
      } else if !a.Exec? {
        Cluster.OtherJobs(cfg, c, s, a, t);
      }
    }
    assert a.Exec? || a.t < |s.jobs|;
  }

  lemma OwnRun(cfg: Config, c: nat, s: Cluster.State, r: Replica.State, r': Replica.State, a: Cluster.Action)
    requires Cluster.Enabled(cfg, c, s, a) && !a.Exec? && |s.jobs| == |cfg.txs| && r.next == s.next && r.view == 1
    requires RunProposed(cfg, s, r, a.t) && Cluster.SideOk(cfg.txs[a.t], c, s, a.t)
    requires if a.Start? then r'.pre == r.pre[r.next := PrePrepare(r.view, r.next, Of(a.t), a.st)]
             else if a.Assign? && s.jobs[a.t].first == 0
                 then r'.pre == r.pre[r.next := PrePrepare(r.view, r.next, Of(a.t), cfg.txs[a.t].FirstStatus())]
             else r'.pre == r.pre
    ensures |Cluster.Do(cfg, s, a).jobs| == |s.jobs| && RunProposed(cfg, Cluster.Do(cfg, s, a), r', a.t)
  {
  }

  lemma HandleJoined(cfg: Config, su: Consensus.Setup, c: nat, s: Cluster.State, g: Consensus.Group, a: Cluster.Action,
                     part: seq<Consensus.Action>)
    requires cfg.Valid() && su.Valid() && su.Leader(1) in su.honest
    requires Cluster.Basic(cfg, c, s) && Cluster.Enabled(cfg, c, s, a)
    requires Joined(cfg, su, s, g) && Matches(cfg, su, s, a, part) && (part != [] ==> Consensus.Enabled(su, g, part[0]))
    ensures Joined(cfg, su, Cluster.Do(cfg, s, a), if part == [] then g else Consensus.Do(su, g, part[0]))
  {
    var l := su.Leader(1);
    if a.Commit? || a.Fail? {
      RunningDigest(cfg, su, s, g, a.t);
    }
    assert SingleView.ReplicaOk(su, l, g.replicas[l]);
    HandleNode(cfg, su, c, s, g.replicas[l], a, part);
    if part != [] {
      SingleView.StepFollowing(su, g, part[0]);
    }
  }

  lemma RunningDigest(cfg: Config, su: Consensus.Setup, s: Cluster.State, g: Consensus.Group, t: nat)
    requires su.Leader(1) in su.honest && Joined(cfg, su, s, g) && t < |s.jobs| && s.jobs[t].pc.Running?
    ensures var r := g.replicas[su.Leader(1)]; s.jobs[t].pc.n in r.log && r.log[s.jobs[t].pc.n].digest == Of(t)
  {
    var l, n := su.Leader(1), s.jobs[t].pc.n;
    assert RunProposed(cfg, s, g.replicas[l], t) && SingleView.ReplicaOk(su, l, g.replicas[l]);
    assert SingleView.PreOk(g.replicas[l], n);
    assert Consensus.EntryOk(su, g.net, g.replicas[l], n);
  }

  lemma ExchangeJoined(cfg: Config, su: Consensus.Setup, s: Cluster.State, g: Consensus.Group, b: Consensus.Action)
    requires su.Valid() && su.Leader(1) in su.honest && Joined(cfg, su, s, g)
    requires Elsewhere(su.Leader(1), g, b) && Consensus.Enabled(su, g, b)
    ensures Joined(cfg, su, s, Consensus.Do(su, g, b))
  {
    SingleView.StepFollowing(su, g, b);
    var l := su.Leader(1);
    if Consensus.IsLocal(b) && b.r == l {
      assert SingleView.ReplicaOk(su, l, g.replicas[l]);
      LeaderVotes(su, g.replicas[l], b);
      SameNode(cfg, s, g.replicas[l], Consensus.Local(su, g.replicas[l], b));
    }
  }

  lemma LeaderVotes(su: Consensus.Setup, r: Replica.State, b: Consensus.Action)
    requires b.Prepared? || b.StartView? || b.Accept?
    ensures var r' := Consensus.Local(su, r, b);
            r'.next == r.next && r'.store == r.store && (!b.Accept? ==> r'.pre == r.pre)
  {
  }

  lemma SameNode(cfg: Config, s: Cluster.State, r: Replica.State, r': Replica.State)
    requires OneNode(cfg, s, r) && r'.next == r.next && r'.store == r.store && r'.pre == r.pre
    ensures OneNode(cfg, s, r')
  {
    forall t | 0 <= t < |s.jobs| ensures RunProposed(cfg, s, r', t) {
      assert RunProposed(cfg, s, r, t);
    }
  }

  /***** The backups' books *****/

  ghost predicate PreparedIn(store: map<nat, Entry>, t: nat) {
    exists n | n in store :: store[n] == Entry(t, P)
  }

  /** A backup's write-ahead log holds the transfers whose prepare it has committed, once each,
      in whatever order the commits arrived. */
  ghost predicate WalFits(cfg: Config, store: map<nat, Entry>, db: Db, t: nat)
    requires t < |cfg.txs|
  {
    var k := cfg.txs[t].clientSeq;
    if PreparedIn(store, t) then k in db.wal && db.wal[k] == [cfg.txs[t]] else k !in db.wal
  }

  ghost predicate Within(store: map<nat, Entry>, log: map<nat, Entry>) {
    forall n | n in store :: n in log && store[n] == log[n]
  }

  /** A backup has executed exactly the entries below `exec` of the common log. */
  ghost predicate BooksOk(cfg: Config, c: nat, log: map<nat, Entry>, store: map<nat, Entry>, b: Books)
    requires c < |cfg.shards|
  {
    && b.exec >= 1
    && (forall n | 1 <= n < b.exec :: n in store)
    && b.db.bal == After(cfg.txs, Initial(cfg.shards[c]), log, b.exec)
    && (forall t | 0 <= t < |cfg.txs| :: WalFits(cfg, store, b.db, t))
  }

  lemma BooksFrame(cfg: Config, c: nat, log: map<nat, Entry>, log': map<nat, Entry>, store: map<nat, Entry>, b: Books)
    requires c < |cfg.shards| && BooksOk(cfg, c, log, store, b) && Within(store, log)
    requires forall n | n in log :: n in log' && log'[n] == log[n]
    ensures BooksOk(cfg, c, log', store, b) && Within(store, log')
  {
    AfterFrame(cfg.txs, Initial(cfg.shards[c]), log, log', b.exec);
  }

  /** A transfer has one prepare entry in the common log: a backup that stores it had none before. */
  lemma FirstPrepare(cfg: Config, c: nat, s: Cluster.State, store: map<nat, Entry>, num: nat)
    requires Cluster.Basic(cfg, c, s) && Within(store, s.log)
    requires num !in store && num in s.log && s.log[num].st == P
    ensures !PreparedIn(store, s.log[num].t)
  {
    forall m | m in store ensures store[m] != s.log[num] {
      Cluster.EntryOwned(cfg, c, s, m);
      Cluster.EntryOwned(cfg, c, s, num);
    }
  }

  lemma PreparedAfter(store: map<nat, Entry>, num: nat, e: Entry, t: nat)
    requires num !in store
    ensures PreparedIn(store[num := e], t) <==> PreparedIn(store, t) || e == Entry(t, P)
  {
    var store' := store[num := e];
    if PreparedIn(store, t) {
      var m :| m in store && store[m] == Entry(t, P);
      assert store'[m] == Entry(t, P);
    }
    assert store'[num] == e;
  }

  lemma NotedBooks(cfg: Config, c: nat, s: Cluster.State, store: map<nat, Entry>, num: nat, e: Entry, b: Books)
    requires cfg.Valid() && Cluster.Basic(cfg, c, s) && BooksOk(cfg, c, s.log, store, b) && Within(store, s.log)
    requires num !in store && num in s.log && s.log[num] == e && e.t < |cfg.txs|
    ensures BooksOk(cfg, c, s.log, store[num := e], b.(db := Logged(b.db, cfg.txs[e.t], e.st)))
  {
    var db' := Logged(b.db, cfg.txs[e.t], e.st);
    if e.st == P {
      FirstPrepare(cfg, c, s, store, num);
    }
    var store' := store[num := e];
    forall t | 0 <= t < |cfg.txs| ensures WalFits(cfg, store', db', t) {
      assert WalFits(cfg, store, b.db, t);
      PreparedAfter(store, num, e, t);
      assert t != e.t ==> cfg.txs[t].clientSeq != cfg.txs[e.t].clientSeq;
    }
  }

  /** When an abort is next, the executor's own write-ahead log decides what the common log says. */
  lemma AbortEffect(cfg: Config, c: nat, s: Cluster.State, store: map<nat, Entry>, b: Books)
    requires cfg.Valid() && Cluster.Basic(cfg, c, s) && BooksOk(cfg, c, s.log, store, b) && Within(store, s.log)
    requires b.exec in store && store[b.exec].t < |cfg.txs| && store[b.exec].st == A
    ensures PreparedBelow(s.log, store[b.exec].t, b.exec)
    ensures WalOf(b.db, cfg.txs[store[b.exec].t].clientSeq) == [cfg.txs[store[b.exec].t]]
  {
    var t := store[b.exec].t;
    Cluster.EntryOwned(cfg, c, s, b.exec);
    assert Cluster.SideOk(cfg.txs[t], c, s, t);
    var first := s.jobs[t].first;
    assert first in store;
    assert s.log[first] == Entry(t, P);
    assert WalFits(cfg, store, b.db, t) && store[first] == Entry(t, P);
  }

  lemma ExecutedEffect(cfg: Config, c: nat, s: Cluster.State, store: map<nat, Entry>, b: Books)
    requires cfg.Valid() && Cluster.Basic(cfg, c, s) && BooksOk(cfg, c, s.log, store, b) && Within(store, s.log)
    requires CanExecute(cfg, store, b)
    ensures Executed(cfg, store, b).db.bal == Effect(cfg.txs, s.log, b.exec, b.db.bal)
  {
    if store[b.exec].st == A {
      AbortEffect(cfg, c, s, store, b);
      UndoOne(b.db.bal, cfg.txs[store[b.exec].t]);
    }
  }

  lemma ExecutedBooks(cfg: Config, c: nat, s: Cluster.State, store: map<nat, Entry>, b: Books)
    requires cfg.Valid() && Cluster.Basic(cfg, c, s) && BooksOk(cfg, c, s.log, store, b) && Within(store, s.log)
    requires CanExecute(cfg, store, b)
    ensures BooksOk(cfg, c, s.log, store, Executed(cfg, store, b))
  {
    var e := store[b.exec];
    var db' := Executed(cfg, store, b).db;
    ExecutedEffect(cfg, c, s, store, b);
    forall t | 0 <= t < |cfg.txs| ensures WalFits(cfg, store, db', t) {
      assert WalFits(cfg, store, b.db, t);
    }
  }

  /***** Invariants of all runs of the system *****/

  ghost predicate BackupOk(cfg: Config, su: Consensus.Setup, c: nat, log: map<nat, Entry>, g: Consensus.Group,
                           bs: seq<Books>, r: nat)
    requires c < |cfg.shards|
  {
    r in su.honest && r != su.Leader(1) ==>
      r < |g.replicas| && r < |bs| && BooksOk(cfg, c, log, g.replicas[r].store, bs[r])
  }

  ghost predicate BackupsOk(cfg: Config, su: Consensus.Setup, c: nat, log: map<nat, Entry>, g: Consensus.Group,
                            bs: seq<Books>)
    requires c < |cfg.shards|
  {
    forall r | r in su.honest :: BackupOk(cfg, su, c, log, g, bs, r)
  }

  /** One cluster: its leader, its group and its backups. */
  ghost predicate ClusterOk(cfg: Config, su: Consensus.Setup, c: nat, s: Cluster.State, g: Consensus.Group,
                            bs: seq<Books>)
    requires c < |cfg.shards|
  {
    Joined(cfg, su, s, g) && BackupsOk(cfg, su, c, s.log, g, bs)
  }

  ghost predicate SystemInv(w: World, s: State)
    requires w.Valid()
  {
    && Sized(w, s)
    && TwoPhase.Core(w.cfg, s.ledger)
    && (forall c | 0 <= c < |w.su| :: ClusterOk(w.cfg, w.su[c], c, s.ledger.cl[c], s.groups[c], s.books[c]))
  }

  /** What a non-faulty replica has stored is in the common log. */
  lemma StoredInLog(cfg: Config, su: Consensus.Setup, s: Cluster.State, g: Consensus.Group, r: nat)
    requires su.Valid() && su.Leader(1) in su.honest && Joined(cfg, su, s, g) && r in su.honest
    ensures r < |g.replicas| && Within(g.replicas[r].store, s.log)
  {
    assert r in su.All();
    forall n | n in g.replicas[r].store ensures n in s.log && g.replicas[r].store[n] == s.log[n] {
      SingleView.StoredAlike(su, g, r, n);
    }
  }

  lemma HandleBackups(cfg: Config, su: Consensus.Setup, c: nat, s: Cluster.State, a: Cluster.Action, g: Consensus.Group,
                      g': Consensus.Group, bs: seq<Books>)
    requires cfg.Valid() && su.Valid() && su.Leader(1) in su.honest
    requires Cluster.Basic(cfg, c, s) && Cluster.Enabled(cfg, c, s, a) && Joined(cfg, su, s, g)
    requires BackupsOk(cfg, su, c, s.log, g, bs) && SameStores(su, g, g')
    ensures BackupsOk(cfg, su, c, Cluster.Do(cfg, s, a).log, g', bs)
  {
    var log' := Cluster.Do(cfg, s, a).log;
    TwoPhase.LogStays(cfg, c, s, a);
    forall r | r in su.honest ensures BackupOk(cfg, su, c, log', g', bs, r) {
      assert BackupOk(cfg, su, c, s.log, g, bs, r);
      if r != su.Leader(1) {
        StoredInLog(cfg, su, s, g, r);
        BooksFrame(cfg, c, s.log, log', g.replicas[r].store, bs[r]);
      }
    }
  }

  /** The backups have stored the same in both. */
  ghost predicate SameStores(su: Consensus.Setup, g: Consensus.Group, g': Consensus.Group) {
    |g.replicas| == |g'.replicas| &&
    forall r | r in su.honest && r != su.Leader(1) && r < |g.replicas| :: g'.replicas[r].store == g.replicas[r].store
  }

  lemma HandleCluster(cfg: Config, su: Consensus.Setup, c: nat, s: Cluster.State, a: Cluster.Action,
                      part: seq<Consensus.Action>, g: Consensus.Group, bs: seq<Books>)
    requires cfg.Valid() && su.Valid() && su.Leader(1) in su.honest
    requires Cluster.Basic(cfg, c, s) && BalancesOk(cfg, c, s) && Cluster.Enabled(cfg, c, s, a)
    requires ClusterOk(cfg, su, c, s, g, bs) && Matches(cfg, su, s, a, part)
             && (part != [] ==> Consensus.Enabled(su, g, part[0]))
    ensures ClusterOk(cfg, su, c, Cluster.Do(cfg, s, a), if part == [] then g else Consensus.Do(su, g, part[0]), bs)
  {
    HandleJoined(cfg, su, c, s, g, a, part);
    PartStores(cfg, su, s, a, part, g);
    HandleBackups(cfg, su, c, s, a, g, if part == [] then g else Consensus.Do(su, g, part[0]), bs);
  }

  lemma HandleInv(w: World, s: State, x: Action, s': State)
    requires w.Valid() && SystemInv(w, s) && Sized(w, s) && x.Handle? && x.c < |w.su|
             && HandleStep(w, s, x.c, x.a, x.part, x.commits, s')
    ensures SystemInv(w, s')
  {
    var c := x.c;
    TwoPhase.StepCore(w.cfg, s.ledger, c, x.a, s'.ledger);
    assert ClusterOk(w.cfg, w.su[c], c, s.ledger.cl[c], s.groups[c], s.books[c]);
    HandleCluster(w.cfg, w.su[c], c, s.ledger.cl[c], x.a, x.part, s.groups[c], s.books[c]);
    OneCluster(w, s, s', c);
  }

  lemma PartStores(cfg: Config, su: Consensus.Setup, s: Cluster.State, a: Cluster.Action, part: seq<Consensus.Action>,
                   g: Consensus.Group)
    requires Matches(cfg, su, s, a, part)
    ensures SameStores(su, g, if part == [] then g else Consensus.Do(su, g, part[0]))
  {
  }

  lemma OnlyCommitStores(su: Consensus.Setup, g: Consensus.Group, b: Consensus.Action, r: nat)
    requires r < |g.replicas| && Consensus.Enabled(su, g, b)
    requires b.Committed? ==> b.r != r
    ensures r < |Consensus.Do(su, g, b).replicas| && Consensus.Do(su, g, b).replicas[r].store == g.replicas[r].store
  {
  }

  lemma CommitStores(su: Consensus.Setup, g: Consensus.Group, b: Consensus.Action)
    requires su.Valid() && su.Leader(1) in su.honest && SingleView.Following(su, g) && Consensus.Enabled(su, g, b)
    requires b.Committed? && b.r != su.Leader(1)
    ensures b.enough && b.num in Consensus.Do(su, g, b).replicas[b.r].store
    ensures var e := Consensus.Do(su, g, b).replicas[b.r].store[b.num];
            Consensus.Do(su, g, b).replicas[b.r].store == g.replicas[b.r].store[b.num := e]
  {
    assert SingleView.ReplicaOk(su, b.r, g.replicas[b.r]);
    assert Consensus.EntryOk(su, g.net, g.replicas[b.r], b.num);
    EndedNode(su, g.replicas[b.r], b);
  }

  /** A backup commits an entry of the common log. */
  lemma BackupCommits(cfg: Config, su: Consensus.Setup, c: nat, s: Cluster.State, g: Consensus.Group,
                      b: Consensus.Action, bs: seq<Books>)
    requires cfg.Valid() && su.Valid() && su.Leader(1) in su.honest
    requires Cluster.Basic(cfg, c, s) && Joined(cfg, su, s, g) && Joined(cfg, su, s, Consensus.Do(su, g, b))
    requires Elsewhere(su.Leader(1), g, b) && Consensus.Enabled(su, g, b) && b.Committed?
    requires BackupOk(cfg, su, c, s.log, g, bs, b.r)
    ensures var g' := Consensus.Do(su, g, b); BackupOk(cfg, su, c, s.log, g', Noted(cfg, g', b, bs), b.r)
  {
    var g' := Consensus.Do(su, g, b);
    CommitStores(su, g, b);
    StoredInLog(cfg, su, s, g, b.r);
    StoredInLog(cfg, su, s, g', b.r);
    NotedBackup(cfg, su, c, s, g, g', b, bs);
  }

  lemma NotedBackup(cfg: Config, su: Consensus.Setup, c: nat, s: Cluster.State, g: Consensus.Group, g': Consensus.Group,
                    b: Consensus.Action, bs: seq<Books>)
    requires cfg.Valid() && Cluster.Basic(cfg, c, s) && b.Committed? && b.enough && b.r in su.honest
             && b.r != su.Leader(1)
    requires b.r < |g.replicas| && b.r < |g'.replicas| && BackupOk(cfg, su, c, s.log, g, bs, b.r)
    requires Within(g.replicas[b.r].store, s.log) && Within(g'.replicas[b.r].store, s.log)
    requires b.num in g.replicas[b.r].store ==> g.replicas[b.r].store[b.num].st == Plain
    requires b.num in g'.replicas[b.r].store
    requires g'.replicas[b.r].store == g.replicas[b.r].store[b.num := g'.replicas[b.r].store[b.num]]
    ensures BackupOk(cfg, su, c, s.log, g', Noted(cfg, g', b, bs), b.r)
  {
    var store, store' := g.replicas[b.r].store, g'.replicas[b.r].store;
    Cluster.EntryOwned(cfg, c, s, b.num);
    if b.num in store {
      assert store' == store;
    } else {
      NotedBooks(cfg, c, s, store, b.num, s.log[b.num], bs[b.r]);
    }
  }

  lemma ExchangeBackups(cfg: Config, su: Consensus.Setup, c: nat, s: Cluster.State, g: Consensus.Group,
                        b: Consensus.Action, bs: seq<Books>)
    requires cfg.Valid() && su.Valid() && su.Leader(1) in su.honest
    requires Cluster.Basic(cfg, c, s) && Joined(cfg, su, s, g) && Joined(cfg, su, s, Consensus.Do(su, g, b))
    requires Elsewhere(su.Leader(1), g, b) && Consensus.Enabled(su, g, b)
    requires BackupsOk(cfg, su, c, s.log, g, bs)
    ensures var g' := Consensus.Do(su, g, b); BackupsOk(cfg, su, c, s.log, g', Noted(cfg, g', b, bs))
  {
    var g' := Consensus.Do(su, g, b);
    forall r | r in su.honest ensures BackupOk(cfg, su, c, s.log, g', Noted(cfg, g', b, bs), r) {
      assert BackupOk(cfg, su, c, s.log, g, bs, r);
      if b.Committed? && b.r == r {
        BackupCommits(cfg, su, c, s, g, b, bs);
      } else if r != su.Leader(1) {
        OnlyCommitStores(su, g, b, r);
      }
    }
  }

  lemma ExchangeInv(w: World, s: State, x: Action, s': State)
    requires w.Valid() && SystemInv(w, s) && Sized(w, s) && x.Exchange? && x.c < |w.su|
             && ExchangeStep(w, s, x.c, x.b, s')
    ensures SystemInv(w, s')
  {
    var c, su, cl, g := x.c, w.su[x.c], s.ledger.cl[x.c], s.groups[x.c];
    assert ClusterOk(w.cfg, w.su[c], c, s.ledger.cl[c], s.groups[c], s.books[c]);
    ExchangeJoined(w.cfg, su, cl, g, x.b);
    ExchangeBackups(w.cfg, su, c, cl, g, x.b, s.books[c]);
    OneCluster(w, s, s', c);
  }

  lemma ExecuteBackups(cfg: Config, su: Consensus.Setup, c: nat, s: Cluster.State, g: Consensus.Group, bs: seq<Books>,
                       i: nat)
    requires cfg.Valid() && su.Valid() && su.Leader(1) in su.honest
    requires Cluster.Basic(cfg, c, s) && Joined(cfg, su, s, g) && BackupsOk(cfg, su, c, s.log, g, bs)
    requires i in su.honest && i != su.Leader(1) && i < |bs| && i < |g.replicas|
             && CanExecute(cfg, g.replicas[i].store, bs[i])
    ensures BackupsOk(cfg, su, c, s.log, g, bs[i := Executed(cfg, g.replicas[i].store, bs[i])])
  {
    var bs' := bs[i := Executed(cfg, g.replicas[i].store, bs[i])];
    forall r | r in su.honest ensures BackupOk(cfg, su, c, s.log, g, bs', r) {
      assert BackupOk(cfg, su, c, s.log, g, bs, r);
      if r == i {
        StoredInLog(cfg, su, s, g, i);
        ExecutedBooks(cfg, c, s, g.replicas[i].store, bs[i]);
      }
    }
  }

  /** A step that touches one cluster leaves the others as they are. */
  lemma OneCluster(w: World, s: State, s': State, c: nat)
    requires w.Valid() && Sized(w, s) && Sized(w, s') && c < |w.su|
    requires TwoPhase.Core(w.cfg, s'.ledger)
    requires forall d | 0 <= d < |w.su| :: ClusterOk(w.cfg, w.su[d], d, s.ledger.cl[d], s.groups[d], s.books[d])
    requires ClusterOk(w.cfg, w.su[c], c, s'.ledger.cl[c], s'.groups[c], s'.books[c])
    requires forall d | 0 <= d < |w.su| && d != c ::
              s'.ledger.cl[d] == s.ledger.cl[d] && s'.groups[d] == s.groups[d] && s'.books[d] == s.books[d]
    ensures SystemInv(w, s')
  {
    forall d | 0 <= d < |w.su| ensures ClusterOk(w.cfg, w.su[d], d, s'.ledger.cl[d], s'.groups[d], s'.books[d]) {
      assert ClusterOk(w.cfg, w.su[d], d, s.ledger.cl[d], s.groups[d], s.books[d]);
    }
  }

  lemma ExecuteInv(w: World, s: State, x: Action, s': State)
    requires w.Valid() && SystemInv(w, s) && Sized(w, s) && x.Execute? && x.c < |w.su|
             && ExecuteStep(w, s, x.c, x.r, s')
    ensures SystemInv(w, s')
  {
    var c := x.c;
    assert ClusterOk(w.cfg, w.su[c], c, s.ledger.cl[c], s.groups[c], s.books[c]);
    ExecuteBackups(w.cfg, w.su[c], c, s.ledger.cl[c], s.groups[c], s.books[c], x.r);
    OneCluster(w, s, s', c);
  }

  lemma InitBackups(cfg: Config, su: Consensus.Setup, c: nat, bs: seq<Books>)
    requires su.Valid() && c < |cfg.shards|
    requires bs == seq(su.N(), _ => Books(Db(Initial(cfg.shards[c]), {}, map[]), 1))
    ensures BackupsOk(cfg, su, c, map[], Consensus.InitGroup(su), bs)
  {
    forall r | r in su.honest ensures BackupOk(cfg, su, c, map[], Consensus.InitGroup(su), bs, r) {
      assert r in su.All();
    }
  }

  lemma InitInv(w: World)
    requires w.Valid()
    ensures SystemInv(w, InitSystem(w))
  {
    var s := InitSystem(w);
    TwoPhase.InitCore(w.cfg);
    forall c | 0 <= c < |w.su| ensures ClusterOk(w.cfg, w.su[c], c, s.ledger.cl[c], s.groups[c], s.books[c]) {
      InitJoined(w.cfg, w.su[c], c);
      InitBackups(w.cfg, w.su[c], c, s.books[c]);
    }
  }

  lemma StepInv(w: World, s: State, x: Action, s': State)
    requires w.Valid() && SystemInv(w, s) && Step(w, s, x, s')
    ensures SystemInv(w, s')
  {
    match x
    case Handle(_, _, _, _) => HandleInv(w, s, x, s');
    case Exchange(_, _) => ExchangeInv(w, s, x, s');
    case Execute(_, _) => ExecuteInv(w, s, x, s');
  }

  lemma {:induction false} Throughout(w: World, run: Run, kind: (State, Action) -> bool, p: State -> bool, i: nat)
    requires w.Valid() && run.Of(w) && i < |run.states| && p(InitSystem(w))
    requires forall k | 0 <= k < |run.actions| :: kind(run.states[k], run.actions[k])
    requires forall s, x, s' | p(s) && kind(s, x) && Step(w, s, x, s') :: p(s')
    ensures p(run.states[i])
  {
    if i > 0 {
      Throughout(w, run, kind, p, i - 1);
      assert kind(run.states[i - 1], run.actions[i - 1])
             && Step(w, run.states[i - 1], run.actions[i - 1], run.states[i]);
    }
  }

  lemma RunSystem(w: World, run: Run, i: nat)
    requires w.Valid() && run.Of(w) && i < |run.states|
    ensures SystemInv(w, run.states[i])
  {
    InitInv(w);
    forall s: State, x: Action, s': State | SystemInv(w, s) && Step(w, s, x, s') ensures SystemInv(w, s') {
      StepInv(w, s, x, s');
    }
    Throughout(w, run, (_, _) => true, s => SystemInv(w, s), i);
  }
}

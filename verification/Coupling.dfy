/** A node and the machines that specify it: what has to agree between the fields of a node and the
    states of its cluster, its replica and its books, and for each handler of the node the steps the
    machines take with it, after which all of it agrees again. */
module Coupling {
  import opened Transfers
  import opened Messages
  import opened Ledger
  import opened Databases
  import opened Certificates
  import opened NewViews
  import opened Nodes
  import opened Refinement
  import Replica
  import Cluster
  import TwoPhase
  import Consensus
  import SingleView
  import System

  /***** What agrees *****/

  /** An entry of the node and of the protocol, which does not have the executor's mark. */
  predicate SameEntry(a: Replica.LogEntry, b: Replica.LogEntry) {
    && a.view == b.view && a.digest == b.digest
    && (a.stage == b.stage || (a.stage == Replica.EXECUTED && b.stage >= Replica.COMMITTED))
  }

  ghost predicate SameLog(a: map<nat, Replica.LogEntry>, b: map<nat, Replica.LogEntry>) {
    a.Keys == b.Keys && forall n | n in b :: SameEntry(a[n], b[n])
  }

  /** A backup's own commit lists play no part in the protocol. */
  ghost predicate Agrees(x: Replica.State, y: Replica.State, leader: bool) {
    && x.view == y.view && x.next == y.next && x.changing == y.changing && x.newView == y.newView
    && x.pre == y.pre && x.store == y.store && SameLog(x.log, y.log)
    && (leader ==> x.collected == y.collected)
  }

  /** The node is the non-faulty replica `r` of the group. */
  ghost predicate Member(su: Consensus.Setup, g: Consensus.Group, r: nat, n: Node)
    reads n
  {
    && n.Valid() && n.id == r && n.f == su.f && !n.byzantine
    && r in su.honest && r < |g.replicas|
    && Agrees(n.State(), g.replicas[r], r == su.Leader(g.replicas[r].view))
  }

  /** Its database and its executor are where these books are; locks only delay a backup. */
  ghost predicate Keeps(cfg: Config, n: Node, b: System.Books)
    reads n, n.db
  {
    n.txs == cfg.txs && n.db.balances == b.db.bal && n.db.wal == b.db.wal && n.executorSeq == b.exec
  }

  /** An intra-shard request is known under the number of its run. */
  ghost predicate Known(cfg: Config, s: Cluster.State, requestLog: map<nat, nat>) {
    |s.jobs| == |cfg.txs| &&
    forall t | 0 <= t < |cfg.txs| && !cfg.txs[t].Cross() ::
      if s.jobs[t].first == 0 then t !in requestLog else t in requestLog && requestLog[t] == s.jobs[t].first
  }

  /** A cluster and its group with a non-faulty leader, as every run of the system keeps them. */
  ghost predicate Together(cfg: Config, su: Consensus.Setup, c: nat, s: Cluster.State, g: Consensus.Group) {
    && cfg.Valid() && su.Valid() && su.Leader(1) in su.honest
    && Cluster.Basic(cfg, c, s) && System.Joined(cfg, su, s, g)
  }

  /** The node's database, executor and request log are those of cluster `c`. */
  ghost predicate Runs(cfg: Config, c: nat, s: Cluster.State, n: Node)
    reads n, n.db
  {
    n.cluster == c && n.txs == cfg.txs && At(cfg, s, n.db.Contents(), n.executorSeq, n.requestLog)
  }

  ghost predicate At(cfg: Config, s: Cluster.State, db: Db, exec: nat, requestLog: map<nat, nat>) {
    db == s.db && exec == s.exec && Known(cfg, s, requestLog)
  }

  /** The node leads cluster `c`, whose state is `s`, and its group. */
  ghost predicate Leads(cfg: Config, su: Consensus.Setup, c: nat, s: Cluster.State, g: Consensus.Group, n: Node)
    reads n, n.db
  {
    Together(cfg, su, c, s, g) && Member(su, g, su.Leader(1), n) && Runs(cfg, c, s, n)
  }

  /** The node is a backup that keeps these books. */
  ghost predicate Follows(cfg: Config, su: Consensus.Setup, g: Consensus.Group, r: nat, n: Node, b: System.Books)
    reads n, n.db
  {
    Member(su, g, r, n) && r != su.Leader(g.replicas[r].view) && Keeps(cfg, n, b)
  }

  /** The leader can take this step together with its part in the consensus. */
  ghost predicate Open(cfg: Config, su: Consensus.Setup, c: nat, s: Cluster.State, g: Consensus.Group,
                       a: Cluster.Action, part: seq<Consensus.Action>) {
    && Cluster.Enabled(cfg, c, s, a) && System.Matches(cfg, su, s, a, part)
    && (part != [] ==> Consensus.Enabled(su, g, part[0]))
  }

  ghost function GroupAfter(su: Consensus.Setup, g: Consensus.Group, part: seq<Consensus.Action>): Consensus.Group {
    if part == [] then g else Consensus.Do(su, g, part[0])
  }

  lemma LeaderIs(su: Consensus.Setup, g: Consensus.Group)
    requires su.Valid() && su.Leader(1) in su.honest && SingleView.Following(su, g) && su.Leader(1) < |g.replicas|
    ensures g.replicas[su.Leader(1)].view == 1
  {
    assert SingleView.ReplicaOk(su, su.Leader(1), g.replicas[su.Leader(1)]);
  }

  /** After an open step everything holds again, once the node's fields agree. */
  lemma StillLeads(cfg: Config, su: Consensus.Setup, c: nat, s: Cluster.State, g: Consensus.Group, a: Cluster.Action,
                   part: seq<Consensus.Action>)
    requires Together(cfg, su, c, s, g) && Open(cfg, su, c, s, g, a, part)
    ensures Together(cfg, su, c, Cluster.Do(cfg, s, a), GroupAfter(su, g, part))
  {
    Cluster.StepBasic(cfg, c, s, a);
    System.HandleJoined(cfg, su, c, s, g, a, part);
  }

  /** In every run of the system each cluster and its group are as the leader's handlers need them, */
  lemma RunsTogether(w: System.World, run: System.Run, i: nat, c: nat)
    requires w.Valid() && run.Of(w) && i < |run.states| && c < |w.su|
    ensures System.Sized(w, run.states[i])
    ensures Together(w.cfg, w.su[c], c, run.states[i].ledger.cl[c], run.states[i].groups[c])
  {
    System.RunSystem(w, run, i);
    var s := run.states[i];
    assert System.ClusterOk(w.cfg, w.su[c], c, s.ledger.cl[c], s.groups[c], s.books[c]);
  }

  /** and a step that is open to a leader is a step of the system, if what it knows of the other leader
      and the certificate it was called with allow it. */
  lemma OpenIsStep(w: System.World, s: System.State, c: nat, a: Cluster.Action, part: seq<Consensus.Action>,
                   commits: seq<Signed>)
    returns (s': System.State)
    requires w.Valid() && System.Sized(w, s) && c < |w.su|
             && Open(w.cfg, w.su[c], c, s.ledger.cl[c], s.groups[c], a, part)
    requires TwoPhase.Guard(w.cfg, s.ledger, c, a) && System.Certified(w, s, c, a, commits)
    ensures System.Step(w, s, System.Handle(c, a, part, commits), s')
    ensures s'.ledger.cl == s.ledger.cl[c := Cluster.Do(w.cfg, s.ledger.cl[c], a)]
    ensures s'.groups == s.groups[c := GroupAfter(w.su[c], s.groups[c], part)] && s'.books == s.books
  {
    var cl := s.ledger.cl[c := Cluster.Do(w.cfg, s.ledger.cl[c], a)];
    var ledger := TwoPhase.State(cl, s.ledger.order + TwoPhase.Verdict(w.cfg, s.ledger, c, a));
    s' := System.State(ledger, s.groups[c := GroupAfter(w.su[c], s.groups[c], part)], s.books);
  }

  /** So is every step of the consensus that the leader's handlers do not take: what the backups do, what faulty
      replicas send, and the leader's votes and view changes. */
  lemma ExchangeIsStep(w: System.World, s: System.State, c: nat, b: Consensus.Action) returns (s': System.State)
    requires w.Valid() && System.Sized(w, s) && c < |w.su| && Consensus.Enabled(w.su[c], s.groups[c], b)
    requires !b.Propose? && !b.AdoptView? && (b.Again? || b.Committed? ==> b.r != w.su[c].Leader(1))
    requires b.Committed? && b.num in s.groups[c].replicas[b.r].store ==>
               s.groups[c].replicas[b.r].store[b.num].st == Plain
    ensures System.Step(w, s, System.Exchange(c, b), s')
    ensures s'.ledger == s.ledger && s'.groups == s.groups[c := Consensus.Do(w.su[c], s.groups[c], b)]
    ensures s'.books == s.books[c := System.Noted(w.cfg, s'.groups[c], b, s.books[c])]
  {
    var g := Consensus.Do(w.su[c], s.groups[c], b);
    s' := System.State(s.ledger, s.groups[c := g], s.books[c := System.Noted(w.cfg, g, b, s.books[c])]);
  }

  /** A backup that has stored its next entry can execute it. */
  lemma ExecuteIsStep(w: System.World, s: System.State, c: nat, r: nat) returns (s': System.State)
    requires w.Valid() && System.Sized(w, s) && c < |w.su| && r in w.su[c].honest && r != w.su[c].Leader(1)
    requires r < |s.books[c]| && r < |s.groups[c].replicas|
    requires var store, b := s.groups[c].replicas[r].store, s.books[c][r];
             b.exec in store && store[b.exec].t < |w.cfg.txs|
    ensures System.Step(w, s, System.Execute(c, r), s')
    ensures s'.books == s.books[c := s.books[c][r :=
                                       System.Executed(w.cfg, s.groups[c].replicas[r].store, s.books[c][r])]]
  {
    var b := System.Executed(w.cfg, s.groups[c].replicas[r].store, s.books[c][r]);
    s' := System.State(s.ledger, s.groups, s.books[c := s.books[c][r := b]]);
  }

  /** A new node agrees with the initial states. */
  method StartLeader(cfg: Config, su: Consensus.Setup, c: nat) returns (n: Node)
    requires cfg.Valid() && su.Valid() && su.Leader(1) in su.honest && c < |cfg.shards|
    ensures fresh(n) && fresh(n.db) && Leads(cfg, su, c, Cluster.Init(cfg, c), Consensus.InitGroup(su), n)
    ensures n.live && !n.changing && Told(cfg, TwoPhase.Init(cfg), n.pcCommits)
  {
    n := new Node(su.Leader(1), c, su.f, cfg.txs, cfg.shards[c]);
    Cluster.InitBasic(cfg, c);
    System.InitJoined(cfg, su, c);
    ToldFirst(cfg);
  }

  method StartBackup(cfg: Config, su: Consensus.Setup, c: nat, r: nat) returns (n: Node)
    requires cfg.Valid() && su.Valid() && r in su.honest && r != su.Leader(1) && c < |cfg.shards|
    ensures fresh(n) && fresh(n.db)
    ensures Follows(cfg, su, Consensus.InitGroup(su), r, n, System.Books(Db(Initial(cfg.shards[c]), {}, map[]), 1))
    ensures n.live && !n.changing && n.db.locks == {}
  {
    n := new Node(r, c, su.f, cfg.txs, cfg.shards[c]);
    assert r in su.All();
  }

  lemma WriteAgrees(x: Replica.State, y: Replica.State, leader: bool, num: nat, digest: Digest)
    requires Agrees(x, y, leader)
    ensures Agrees(Replica.WriteLog(x, num, digest), Replica.WriteLog(y, num, digest), leader)
  {
  }

  lemma UpdateAgrees(x: Replica.State, y: Replica.State, leader: bool, num: nat, stage: nat)
    requires Agrees(x, y, leader) && stage <= Replica.COMMITTED
    ensures Agrees(Replica.UpdateLog(x, num, stage), Replica.UpdateLog(y, num, stage), leader)
  {
  }

  lemma CommitAgrees(x: Replica.State, y: Replica.State, leader: bool, num: nat, st: Status)
    requires Agrees(x, y, leader)
    ensures Agrees(Replica.Commit(x, num, st), Replica.Commit(y, num, st), leader)
  {
    UpdateAgrees(x, y, leader, num, Replica.COMMITTED);
    SaveAgrees(Replica.UpdateLog(x, num, Replica.COMMITTED), Replica.UpdateLog(y, num, Replica.COMMITTED), leader, num,
               st);
  }

  lemma SaveAgrees(x: Replica.State, y: Replica.State, leader: bool, num: nat, st: Status)
    requires Agrees(x, y, leader)
    ensures Agrees(Replica.Save(x, num, st), Replica.Save(y, num, st), leader)
  {
  }

  lemma MarkAgrees(x: Replica.State, y: Replica.State, leader: bool, num: nat)
    requires Agrees(x, y, leader) && (num in y.log ==> y.log[num].stage >= Replica.COMMITTED)
    ensures Agrees(Replica.UpdateLog(x, num, Replica.EXECUTED), y, leader)
  {
  }

  lemma SameReports(x: Replica.State, y: Replica.State, leader: bool)
    requires Agrees(x, y, leader)
    ensures Replica.PreparedOf(x) == Replica.PreparedOf(y)
  {
  }

  /***** The leader's handlers *****/

  /** A request comes in: an intra-shard one is handled under the number its earlier run had, and as soon
      as its last handler has returned, that is the step that resubmits it. */
  method AdmitRequest(n: Node, t: nat, clientVerified: bool, ghost cfg: Config, ghost su: Consensus.Setup, ghost c: nat,
                      ghost s: Cluster.State, ghost g: Consensus.Group) returns (r: Admission)
    requires Leads(cfg, su, c, s, g, n) && t < |cfg.txs| && !cfg.txs[t].Cross()
    ensures !r.Forward?
    ensures r.Handle? ==> r.oldSeq == s.jobs[t].first
    ensures r.Handle? && (s.jobs[t].pc.Done? || s.jobs[t].pc.Rejected?) ==>
              Open(cfg, su, c, s, g, Cluster.Resend(t), [])
                  && Leads(cfg, su, c, Cluster.Do(cfg, s, Cluster.Resend(t)), g, n)
  {
    LeaderIs(su, g);
    r := n.Admit(t, clientVerified);
    if r.Handle? && (s.jobs[t].pc.Done? || s.jobs[t].pc.Rejected?) {
      ResendAt(cfg, c, s, t, n.db.Contents(), n.executorSeq, n.requestLog);
      StillLeads(cfg, su, c, s, g, Cluster.Resend(t), []);
    }
  }

  lemma ResendAt(cfg: Config, c: nat, s: Cluster.State, t: nat, db: Db, exec: nat, requestLog: map<nat, nat>)
    requires At(cfg, s, db, exec, requestLog) && Cluster.Enabled(cfg, c, s, Cluster.Resend(t))
    ensures At(cfg, Cluster.Do(cfg, s, Cluster.Resend(t)), db, exec, requestLog)
  {
  }

  /** One attempt to take the locks: while it is busy no step is open; when the balance does not cover
      the request, the locks are taken, the check turns it down and the database is as before; and
      else the locks are taken and the check is passed. */
  method LockRequest(n: Node, t: nat, ghost cfg: Config, ghost su: Consensus.Setup, ghost c: nat,
                     ghost s: Cluster.State, ghost g: Consensus.Group) returns (r: LockOutcome)
    requires Leads(cfg, su, c, s, g, n) && t < |cfg.txs| && cfg.txs[t].Involves(c) && s.jobs[t].pc.Idle?
    modifies n.db`locks
    ensures r.Busy? <==> !Cluster.Enabled(cfg, c, s, Cluster.Acquire(t))
    ensures r.Busy? ==> Leads(cfg, su, c, s, g, n)
    ensures !r.Busy? ==>
              var s' := Cluster.Do(cfg, s, Cluster.Acquire(t));
              var a := if r.Refused? then Cluster.Reject(t) else Cluster.Check(t);
              && Open(cfg, su, c, s, g, Cluster.Acquire(t), []) && Open(cfg, su, c, s', g, a, [])
              && Leads(cfg, su, c, Cluster.Do(cfg, s', a), g, n)
    ensures r.Refused? ==> n.db.Contents() == s.db
  {
    r := n.TryLocks(t, n.txs[t].FirstStatus());
    if !r.Busy? {
      LockSteps(cfg, su, c, s, g, t, r.Refused?);
      LockedKnown(cfg, s, t, r.Refused?, n.requestLog);
    }
  }

  lemma LockSteps(cfg: Config, su: Consensus.Setup, c: nat, s: Cluster.State, g: Consensus.Group, t: nat, refused: bool)
    requires Together(cfg, su, c, s, g) && t < |cfg.txs| && cfg.txs[t].Involves(c) && s.jobs[t].pc.Idle?
             && Free(s.db, cfg.txs[t])
    requires refused <==> cfg.txs[t].clusterFrom == c && !Cluster.Covered(cfg, s, t)
    ensures var s', a := Cluster.Do(cfg, s, Cluster.Acquire(t)), if refused then Cluster.Reject(t)
            else Cluster.Check(t);
            && Open(cfg, su, c, s, g, Cluster.Acquire(t), []) && Open(cfg, su, c, s', g, a, [])
            && Together(cfg, su, c, Cluster.Do(cfg, s', a), g)
  {
    ghost var s' := Cluster.Do(cfg, s, Cluster.Acquire(t));
    StillLeads(cfg, su, c, s, g, Cluster.Acquire(t), []);
    StillLeads(cfg, su, c, s', g, if refused then Cluster.Reject(t) else Cluster.Check(t), []);
  }

  lemma LockedKnown(cfg: Config, s: Cluster.State, t: nat, refused: bool, requestLog: map<nat, nat>)
    requires Known(cfg, s, requestLog) && t < |cfg.txs|
    ensures var s', a := Cluster.Do(cfg, s, Cluster.Acquire(t)), if refused then Cluster.Reject(t)
            else Cluster.Check(t);
            Known(cfg, Cluster.Do(cfg, s', a), requestLog)
  {
  }

  /** The step that numbers a request: its first run after the balance check, or a decision. */
  ghost predicate Numbering(cfg: Config, c: nat, s: Cluster.State, t: nat, st: Status, a: Cluster.Action)
    requires t < |cfg.txs| && t < |s.jobs|
  {
    if st == Plain || st == P then a == Cluster.Assign(t) && s.jobs[t].pc.Checked? && st == cfg.txs[t].FirstStatus()
    else a == Cluster.Start(t, st) && Cluster.MayStart(cfg.txs[t], c, s.jobs[t].pc, st)
  }

  function Numbered(su: Consensus.Setup, t: nat, st: Status, oldSeq: nat): Consensus.Action {
    if oldSeq == 0 then Consensus.Propose(su.Leader(1), Of(t), st) else Consensus.Again(su.Leader(1), oldSeq)
  }

  /** Giving a run its number proposes the request to the group, or sends its pre-prepare again. */
  method NumberRequest(n: Node, t: nat, st: Status, oldSeq: nat, ghost cfg: Config, ghost su: Consensus.Setup,
                       ghost c: nat, ghost s: Cluster.State, ghost g: Consensus.Group, ghost a: Cluster.Action)
    returns (pp: PrePrepare)
    requires Leads(cfg, su, c, s, g, n) && !n.changing && t < |cfg.txs| && Numbering(cfg, c, s, t, st, a)
    requires oldSeq == if a.Assign? then s.jobs[t].first else 0
    modifies n`next, n`log, n`maxSeq, n`prePrepares, n`requestLog
    ensures NumberOpen(cfg, su, c, s, g, t, st, oldSeq, a, pp)
    ensures Leads(cfg, su, c, Cluster.Do(cfg, s, a), Consensus.Do(su, g, Numbered(su, t, st, oldSeq)), n)
  {
    OldNumber(cfg, su, c, s, g, t, st, oldSeq, a);
    pp := NumberAsMember(n, t, st, oldSeq, su, g);
    NumberSteps(cfg, su, c, s, g, t, st, oldSeq, a, pp, n.db.Contents(), n.executorSeq, old(n.requestLog));
  }

  /** A decision's run waits for no lock: whichever are held, those of its own prepare among them, it starts
      at once, and that is the system's step. */
  method StartDecision(n: Node, t: nat, st: Status, ghost cfg: Config, ghost su: Consensus.Setup, ghost c: nat,
                       ghost s: Cluster.State, ghost g: Consensus.Group) returns (r: LockOutcome, pp: PrePrepare)
    requires Leads(cfg, su, c, s, g, n) && !n.changing && t < |cfg.txs|
             && Cluster.MayStart(cfg.txs[t], c, s.jobs[t].pc, st)
    modifies n`next, n`log, n`maxSeq, n`prePrepares, n`requestLog, n.db`locks
    ensures r.Ready? && n.db.Contents() == old(n.db.Contents())
    ensures NumberOpen(cfg, su, c, s, g, t, st, 0, Cluster.Start(t, st), pp)
    ensures Leads(cfg, su, c, Cluster.Do(cfg, s, Cluster.Start(t, st)),
                  Consensus.Do(su, g, Consensus.Propose(su.Leader(1), Of(t), st)), n)
  {
    r := n.TryLocks(t, st);
    pp := NumberRequest(n, t, st, 0, cfg, su, c, s, g, Cluster.Start(t, st));
  }

  /** The step is open, and what it runs under and sends is this pre-prepare. */
  ghost predicate NumberOpen(cfg: Config, su: Consensus.Setup, c: nat, s: Cluster.State, g: Consensus.Group, t: nat,
                             st: Status, oldSeq: nat, a: Cluster.Action, pp: PrePrepare) {
    && Open(cfg, su, c, s, g, a, [Numbered(su, t, st, oldSeq)])
    && pp in Consensus.Do(su, g, Numbered(su, t, st, oldSeq)).net.pre && pp.digest == Of(t) && pp.st == st
    && t < |s.jobs| && Cluster.Do(cfg, s, a).jobs[t].pc == Cluster.Running(st, pp.num)
  }

  /** So numbering is a step of the system, if what the leader knows of the other one and the certificate it was
      called with allow it. */
  lemma NumberIsStep(w: System.World, s: System.State, c: nat, t: nat, st: Status, oldSeq: nat, a: Cluster.Action,
                     pp: PrePrepare, commits: seq<Signed>) returns (s': System.State)
    requires w.Valid() && System.Sized(w, s) && c < |w.su|
             && NumberOpen(w.cfg, w.su[c], c, s.ledger.cl[c], s.groups[c], t, st, oldSeq, a, pp)
    requires TwoPhase.Guard(w.cfg, s.ledger, c, a) && System.Certified(w, s, c, a, commits)
    ensures System.Step(w, s, System.Handle(c, a, [Numbered(w.su[c], t, st, oldSeq)], commits), s')
    ensures pp in s'.groups[c].net.pre && t < |s'.ledger.cl[c].jobs|
    ensures s'.ledger.cl[c].jobs[t].pc == Cluster.Running(st, pp.num)
  {
    s' := OpenIsStep(w, s, c, a, [Numbered(w.su[c], t, st, oldSeq)], commits);
  }

  /** The same for the node's part in its group. */
  method NumberAsMember(n: Node, t: nat, st: Status, oldSeq: nat, ghost su: Consensus.Setup, ghost g: Consensus.Group)
    returns (pp: PrePrepare)
    requires Member(su, g, su.Leader(1), n) && t < |n.txs|
    requires var r := g.replicas[su.Leader(1)];
             && r.view == 1 && r.next >= 1
             && (oldSeq != 0 ==> oldSeq in r.log && r.log[oldSeq].digest == Of(t) && System.Proposed(r, oldSeq, t, st))
    modifies n`next, n`log, n`maxSeq, n`prePrepares, n`requestLog
    ensures Member(su, Consensus.Do(su, g, Numbered(su, t, st, oldSeq)), su.Leader(1), n)
    ensures pp == PrePrepare(1, if oldSeq == 0 then g.replicas[su.Leader(1)].next else oldSeq, Of(t), st)
    ensures n.requestLog == old(n.requestLog)[t := pp.num]
  {
    NumberedAgrees(su, n.State(), g, t, st, oldSeq);
    pp := n.Number(t, st, oldSeq);
  }

  lemma NumberSteps(cfg: Config, su: Consensus.Setup, c: nat, s: Cluster.State, g: Consensus.Group, t: nat, st: Status,
                    oldSeq: nat, a: Cluster.Action, pp: PrePrepare, db: Db, exec: nat, requestLog: map<nat, nat>)
    requires Together(cfg, su, c, s, g) && t < |cfg.txs| && Numbering(cfg, c, s, t, st, a)
    requires oldSeq == if a.Assign? then s.jobs[t].first else 0
    requires !g.replicas[su.Leader(1)].changing
    requires pp == PrePrepare(1, if oldSeq == 0 then g.replicas[su.Leader(1)].next else oldSeq, Of(t), st)
    requires At(cfg, s, db, exec, requestLog)
    ensures NumberOpen(cfg, su, c, s, g, t, st, oldSeq, a, pp)
    ensures Together(cfg, su, c, Cluster.Do(cfg, s, a), Consensus.Do(su, g, Numbered(su, t, st, oldSeq)))
    ensures At(cfg, Cluster.Do(cfg, s, a), db, exec, requestLog[t := pp.num])
  {
    OldNumber(cfg, su, c, s, g, t, st, oldSeq, a);
    NumberAt(cfg, s, t, st, a, pp.num, db, exec, requestLog);
    NumberIsOpen(cfg, su, c, s, g, t, st, oldSeq, a, pp);
    StillLeads(cfg, su, c, s, g, a, [Numbered(su, t, st, oldSeq)]);
  }

  lemma NumberIsOpen(cfg: Config, su: Consensus.Setup, c: nat, s: Cluster.State, g: Consensus.Group, t: nat, st: Status,
                     oldSeq: nat, a: Cluster.Action, pp: PrePrepare)
    requires t < |cfg.txs| && t < |s.jobs| && Numbering(cfg, c, s, t, st, a) && su.Leader(1) in su.honest
    requires oldSeq == if a.Assign? then s.jobs[t].first else 0
    requires su.Leader(1) < |g.replicas| && !g.replicas[su.Leader(1)].changing && g.replicas[su.Leader(1)].view == 1
    requires var r := g.replicas[su.Leader(1)];
             && r.next == s.next && pp == PrePrepare(1, if oldSeq == 0 then r.next else oldSeq, Of(t), st)
             && (oldSeq != 0 ==> oldSeq in r.log && r.log[oldSeq].view == 1 && oldSeq in r.pre && pp in g.net.pre)
    ensures NumberOpen(cfg, su, c, s, g, t, st, oldSeq, a, pp)
  {
  }

  lemma NumberAt(cfg: Config, s: Cluster.State, t: nat, st: Status, a: Cluster.Action, num: nat, db: Db, exec: nat,
                 requestLog: map<nat, nat>)
    requires At(cfg, s, db, exec, requestLog) && t < |cfg.txs|
             && (a == Cluster.Assign(t) || (a.Start? && a.t == t && cfg.txs[t].Cross()))
    requires a.Assign? ==> num == if s.jobs[t].first == 0 then s.next else s.jobs[t].first
    requires num >= 1
    ensures At(cfg, Cluster.Do(cfg, s, a), db, exec, requestLog[t := num])
  {
  }

  lemma OldNumber(cfg: Config, su: Consensus.Setup, c: nat, s: Cluster.State, g: Consensus.Group, t: nat, st: Status,
                  oldSeq: nat, a: Cluster.Action)
    requires Together(cfg, su, c, s, g)
    requires t < |cfg.txs| && Numbering(cfg, c, s, t, st, a) && oldSeq == if a.Assign? then s.jobs[t].first else 0
    ensures var r := g.replicas[su.Leader(1)];
            && r.view == 1 && r.next >= 1
            && (oldSeq != 0 ==> oldSeq in r.log && r.log[oldSeq].digest == Of(t) && r.log[oldSeq].view == 1
                                && System.Proposed(r, oldSeq, t, st) && r.pre[oldSeq] in g.net.pre)
  {
    LeaderIs(su, g);
    var r := g.replicas[su.Leader(1)];
    assert System.RunProposed(cfg, s, r, t) && Cluster.SideOk(cfg.txs[t], c, s, t);
    assert SingleView.ReplicaOk(su, su.Leader(1), r);
    if oldSeq != 0 {
      assert SingleView.PreOk(r, oldSeq);
      assert Consensus.EntryOk(su, g.net, r, oldSeq);
    }
  }

  lemma NumberedAgrees(su: Consensus.Setup, x: Replica.State, g: Consensus.Group, t: nat, st: Status, oldSeq: nat)
    requires su.Leader(1) < |g.replicas| && Agrees(x, g.replicas[su.Leader(1)], true)
    requires g.replicas[su.Leader(1)].view == 1 && (oldSeq != 0 ==> oldSeq in g.replicas[su.Leader(1)].log)
    ensures oldSeq != 0 ==> oldSeq in x.log && x.log[oldSeq].digest == g.replicas[su.Leader(1)].log[oldSeq].digest
    ensures var g' := Consensus.Do(su, g, Numbered(su, t, st, oldSeq));
            && |g'.replicas| == |g.replicas| && g'.replicas[su.Leader(1)].view == 1
            && Agrees(if oldSeq == 0 then Replica.Propose(x, Of(t), st)
                      else Replica.WriteLog(x, oldSeq, x.log[oldSeq].digest),
                      g'.replicas[su.Leader(1)], true)
  {
  }
  /***** The end of a run at the leader *****/

  /** What the leader has collected for a run is honest: prepares of backups, and commits among them its
      own, one vote of each signer. */
  ghost predicate Collected(su: Consensus.Setup, g: Consensus.Group, num: nat, prepares: seq<Signed>,
                            commits: seq<Signed>)
    requires su.Leader(1) < |g.replicas| && num in g.replicas[su.Leader(1)].log
  {
    var l, e := su.Leader(1), g.replicas[su.Leader(1)].log[num];
    && Honest(su, g.net.prepares, e, num, prepares) && (forall s | s in prepares :: s.vote.node != l)
    && Honest(su, g.net.commits + {Vote(1, num, e.digest, l)}, e, num, commits)
  }

  /** Where quorums have been sent, its own commit among them, the leader can collect lists with which its run
      ends with a commit. */
  lemma RunCommits(su: Consensus.Setup, g: Consensus.Group, num: nat)
    returns (prepares: seq<Signed>, commits: seq<Signed>)
    requires su.Leader(1) < |g.replicas| && num in g.replicas[su.Leader(1)].log
    requires g.replicas[su.Leader(1)].log[num].view == 1
    requires var e := g.replicas[su.Leader(1)].log[num];
             && Consensus.HasPrepares(su, g.net.prepares, e, num)
             && Consensus.HasCommits(su, g.net.commits + {Vote(1, num, e.digest, su.Leader(1))}, e, num)
    ensures Collected(su, g, num, prepares, commits)
    ensures var e := g.replicas[su.Leader(1)].log[num];
            |Matching(prepares, e.digest)| >= 2 * su.f && |Matching(commits, e.digest)| >= 2 * su.f + 1
  {
    var e := g.replicas[su.Leader(1)].log[num];
    prepares := PreparesCollected(su, g.net.prepares, e, num);
    commits := CommitsCollected(su, g.net.commits + {Vote(1, num, e.digest, su.Leader(1))}, e, num);
  }

  /** The commit or the failure that ends a run with these commits. */
  ghost function EndPart(su: Consensus.Setup, num: nat, digest: Digest, commits: seq<Signed>, ok: bool)
    : Consensus.Action {
    Consensus.Committed(su.Leader(1), num, VotesOf(if ok then Matching(commits, digest) else commits), ok)
  }

  function EndOf(t: nat, ok: bool): Cluster.Action {
    if ok then Cluster.Commit(t) else Cluster.Fail(t)
  }

  ghost function GroupAfterRun(su: Consensus.Setup, g: Consensus.Group, t: nat, num: nat, prepares: seq<Signed>,
                               commits: seq<Signed>, ok: bool): Consensus.Group {
    if |Matching(prepares, Of(t))| < 2 * su.f then g
    else Consensus.Do(su, Consensus.Do(su, g, Consensus.Prepared(su.Leader(1), num, VotesOf(prepares))),
                      EndPart(su, num, Of(t), commits, ok))
  }

  /** The steps that end a run with these certificates: its failure, without 2f prepares; with them the
      group's prepare step, and then the commit of the run or its failure. */
  ghost predicate EndOpen(cfg: Config, su: Consensus.Setup, c: nat, s: Cluster.State, g: Consensus.Group, t: nat,
                          num: nat, prepares: seq<Signed>, commits: seq<Signed>, ok: bool) {
    if |Matching(prepares, Of(t))| < 2 * su.f then Open(cfg, su, c, s, g, EndOf(t, ok), [])
    else
      var b := Consensus.Prepared(su.Leader(1), num, VotesOf(prepares));
      && System.Elsewhere(su.Leader(1), g, b) && Consensus.Enabled(su, g, b)
      && Open(cfg, su, c, s, Consensus.Do(su, g, b), EndOf(t, ok), [EndPart(su, num, Of(t), commits, ok)])
  }

  /** So the end of a run is one step of the system or two. */
  lemma EndIsSteps(w: System.World, s: System.State, c: nat, t: nat, num: nat, prepares: seq<Signed>,
                   commits: seq<Signed>, ok: bool)
    returns (voted: System.State, s': System.State)
    requires w.Valid() && System.Sized(w, s) && c < |w.su|
             && EndOpen(w.cfg, w.su[c], c, s.ledger.cl[c], s.groups[c], t, num, prepares, commits, ok)
    ensures var b := Consensus.Prepared(w.su[c].Leader(1), num, VotesOf(prepares));
            if |Matching(prepares, Of(t))| < 2 * w.su[c].f
            then voted == s && System.Step(w, s, System.Handle(c, EndOf(t, ok), [], []), s')
            else
              && System.Step(w, s, System.Exchange(c, b), voted)
              && System.Step(w, voted, System.Handle(c, EndOf(t, ok), [EndPart(w.su[c], num, Of(t), commits, ok)], []),
                             s')
    ensures s'.groups[c] == GroupAfterRun(w.su[c], s.groups[c], t, num, prepares, commits, ok)
    ensures s'.ledger.cl[c] == Cluster.Do(w.cfg, s.ledger.cl[c], EndOf(t, ok))
  {
    if |Matching(prepares, Of(t))| < 2 * w.su[c].f {
      voted := s;
      s' := OpenIsStep(w, s, c, EndOf(t, ok), [], []);
    } else {
      voted := ExchangeIsStep(w, s, c, Consensus.Prepared(w.su[c].Leader(1), num, VotesOf(prepares)));
      s' := OpenIsStep(w, voted, c, EndOf(t, ok), [EndPart(w.su[c], num, Of(t), commits, ok)], []);
    }
  }

  /** A run ends: with a commit exactly if there are 2f prepares and 2f+1 commits. */
  method FinishRequest(n: Node, num: nat, t: nat, st: Status, prepares: seq<Signed>, commits: seq<Signed>,
                       ghost cfg: Config, ghost su: Consensus.Setup, ghost c: nat, ghost s: Cluster.State,
                       ghost g: Consensus.Group) returns (ok: bool)
    requires Leads(cfg, su, c, s, g, n) && t < |cfg.txs| && s.jobs[t].pc == Cluster.Running(st, num)
    requires Consensus.Current(g.replicas[su.Leader(1)], num) && Collected(su, g, num, prepares, commits)
    modifies n`log, n`prepareCerts, n`commitCerts, n`datastore, n`datastoreMax, n.db`wal, n.db`locks
    ensures ok <==> |Matching(prepares, Of(t))| >= 2 * su.f && |Matching(commits, Of(t))| >= 2 * su.f + 1
    ensures EndOpen(cfg, su, c, s, g, t, num, prepares, commits, ok)
    ensures Leads(cfg, su, c, Cluster.Do(cfg, s, EndOf(t, ok)), GroupAfterRun(su, g, t, num, prepares, commits, ok), n)
    ensures |Matching(prepares, Of(t))| >= 2 * su.f ==>
              num in n.prepareCerts && n.prepareCerts[num] == Matching(prepares, Of(t))
    ensures ok ==> num in n.commitCerts && n.commitCerts[num] == Matching(commits, Of(t))
  {
    RunningEntry(cfg, su, c, s, g, t, num, st);
    ok := FinishAsMember(n, num, t, st, prepares, commits, su, g);
    EndAt(cfg, s, num, t, st, ok, old(n.db.Contents()), n.executorSeq, n.requestLog);
    EndSteps(cfg, su, c, s, g, t, num, st, prepares, commits, ok);
  }

  /** The request that is being run is in the leader's log at this number. */
  ghost predicate Underway(r: Replica.State, num: nat, t: nat, st: Status) {
    && r.view == 1 && num in r.log && num in r.pre && r.log[num].digest == Of(t) && r.pre[num].st == st
  }

  /** The same for the node's part in its group. */
  method FinishAsMember(n: Node, num: nat, t: nat, st: Status, prepares: seq<Signed>, commits: seq<Signed>,
                        ghost su: Consensus.Setup, ghost g: Consensus.Group) returns (ok: bool)
    requires Member(su, g, su.Leader(1), n) && t < |n.txs| && Underway(g.replicas[su.Leader(1)], num, t, st)
    modifies n`log, n`prepareCerts, n`commitCerts, n`datastore, n`datastoreMax, n.db`wal, n.db`locks
    ensures ok <==> |Matching(prepares, Of(t))| >= 2 * su.f && |Matching(commits, Of(t))| >= 2 * su.f + 1
    ensures Member(su, GroupAfterRun(su, g, t, num, prepares, commits, ok), su.Leader(1), n)
    ensures n.db.Contents() ==
            if ok then Ledger.Logged(old(n.db.Contents()), n.txs[t], st) else Release(old(n.db.Contents()), n.txs[t])
    ensures |Matching(prepares, Of(t))| >= 2 * su.f ==>
              num in n.prepareCerts && n.prepareCerts[num] == Matching(prepares, Of(t))
    ensures ok ==> num in n.commitCerts && n.commitCerts[num] == Matching(commits, Of(t))
  {
    ghost var x := n.State();
    ok := n.FinishRun(num, t, st, prepares, commits);
    if |Matching(prepares, Of(t))| >= 2 * su.f {
      EndAgrees(su, x, g, t, num, st, prepares, commits, ok);
    }
  }

  lemma RunningEntry(cfg: Config, su: Consensus.Setup, c: nat, s: Cluster.State, g: Consensus.Group, t: nat, num: nat,
                     st: Status)
    requires Together(cfg, su, c, s, g) && t < |cfg.txs| && s.jobs[t].pc == Cluster.Running(st, num)
    ensures Underway(g.replicas[su.Leader(1)], num, t, st)
  {
    LeaderIs(su, g);
    var r := g.replicas[su.Leader(1)];
    assert System.RunProposed(cfg, s, r, t);
    assert SingleView.ReplicaOk(su, su.Leader(1), r) && SingleView.PreOk(r, num);
    assert Consensus.EntryOk(su, g.net, r, num);
  }

  lemma PrepareSteps(cfg: Config, su: Consensus.Setup, c: nat, s: Cluster.State, g: Consensus.Group, t: nat, num: nat,
                     st: Status, prepares: seq<Signed>, commits: seq<Signed>)
    requires Together(cfg, su, c, s, g) && t < |cfg.txs| && s.jobs[t].pc == Cluster.Running(st, num)
    requires Consensus.Current(g.replicas[su.Leader(1)], num) && Collected(su, g, num, prepares, commits)
    requires |Matching(prepares, Of(t))| >= 2 * su.f
    ensures var b := Consensus.Prepared(su.Leader(1), num, VotesOf(prepares));
            var g1 := Consensus.Do(su, g, b);
            && System.Elsewhere(su.Leader(1), g, b) && Consensus.Enabled(su, g, b) && Together(cfg, su, c, s, g1)
            && g1.replicas[su.Leader(1)] == Replica.UpdateLog(g.replicas[su.Leader(1)], num, Replica.PREPARED)
            && g1.net.commits == g.net.commits + {Vote(1, num, Of(t), su.Leader(1))}
  {
    RunningEntry(cfg, su, c, s, g, t, num, st);
    PreparesAreStep(su, g, su.Leader(1), num, prepares);
    System.ExchangeJoined(cfg, su, s, g, Consensus.Prepared(su.Leader(1), num, VotesOf(prepares)));
  }

  lemma EndSteps(cfg: Config, su: Consensus.Setup, c: nat, s: Cluster.State, g: Consensus.Group, t: nat, num: nat,
                 st: Status, prepares: seq<Signed>, commits: seq<Signed>, ok: bool)
    requires Together(cfg, su, c, s, g) && t < |cfg.txs| && s.jobs[t].pc == Cluster.Running(st, num)
    requires Consensus.Current(g.replicas[su.Leader(1)], num) && Collected(su, g, num, prepares, commits)
    requires ok <==> |Matching(prepares, Of(t))| >= 2 * su.f && |Matching(commits, Of(t))| >= 2 * su.f + 1
    ensures EndOpen(cfg, su, c, s, g, t, num, prepares, commits, ok)
    ensures Together(cfg, su, c, Cluster.Do(cfg, s, EndOf(t, ok)), GroupAfterRun(su, g, t, num, prepares, commits, ok))
  {
    if |Matching(prepares, Of(t))| < 2 * su.f {
      StillLeads(cfg, su, c, s, g, EndOf(t, ok), []);
    } else {
      PreparedSteps(cfg, su, c, s, g, t, num, st, prepares, commits, ok);
    }
  }

  lemma PreparedSteps(cfg: Config, su: Consensus.Setup, c: nat, s: Cluster.State, g: Consensus.Group, t: nat, num: nat,
                      st: Status, prepares: seq<Signed>, commits: seq<Signed>, ok: bool)
    requires Together(cfg, su, c, s, g) && t < |cfg.txs| && s.jobs[t].pc == Cluster.Running(st, num)
    requires Consensus.Current(g.replicas[su.Leader(1)], num) && Collected(su, g, num, prepares, commits)
    requires |Matching(prepares, Of(t))| >= 2 * su.f && (ok <==> |Matching(commits, Of(t))| >= 2 * su.f + 1)
    ensures EndOpen(cfg, su, c, s, g, t, num, prepares, commits, ok)
    ensures Together(cfg, su, c, Cluster.Do(cfg, s, EndOf(t, ok)), GroupAfterRun(su, g, t, num, prepares, commits, ok))
  {
    RunningEntry(cfg, su, c, s, g, t, num, st);
    PrepareSteps(cfg, su, c, s, g, t, num, st, prepares, commits);
    CommitSteps(cfg, su, c, s, Consensus.Do(su, g, Consensus.Prepared(su.Leader(1), num, VotesOf(prepares))), t, num,
                st, commits, ok);
  }

  lemma CommitSteps(cfg: Config, su: Consensus.Setup, c: nat, s: Cluster.State, g: Consensus.Group, t: nat, num: nat,
                    st: Status, commits: seq<Signed>, ok: bool)
    requires Together(cfg, su, c, s, g) && t < |cfg.txs| && s.jobs[t].pc == Cluster.Running(st, num)
    requires var r := g.replicas[su.Leader(1)];
             && Consensus.Current(r, num) && r.log[num].stage >= Replica.PREPARED
                && Honest(su, g.net.commits, r.log[num], num, commits)
    requires ok <==> |Matching(commits, Of(t))| >= 2 * su.f + 1
    ensures var e := EndPart(su, num, Of(t), commits, ok);
            Open(cfg, su, c, s, g, EndOf(t, ok), [e])
                && Together(cfg, su, c, Cluster.Do(cfg, s, EndOf(t, ok)), Consensus.Do(su, g, e))
  {
    RunningEntry(cfg, su, c, s, g, t, num, st);
    LeaderCommits(su, g, t, num, commits, ok);
    EndIsOpen(cfg, su, c, s, g, t, num, st, commits, ok);
    StillLeads(cfg, su, c, s, g, EndOf(t, ok), [EndPart(su, num, Of(t), commits, ok)]);
  }

  lemma EndIsOpen(cfg: Config, su: Consensus.Setup, c: nat, s: Cluster.State, g: Consensus.Group, t: nat, num: nat,
                  st: Status, commits: seq<Signed>, ok: bool)
    requires t < |cfg.txs| && t < |s.jobs| && s.jobs[t].pc == Cluster.Running(st, num)
    requires Consensus.Enabled(su, g, EndPart(su, num, Of(t), commits, ok))
    ensures Open(cfg, su, c, s, g, EndOf(t, ok), [EndPart(su, num, Of(t), commits, ok)])
  {
  }

  lemma LeaderCommits(su: Consensus.Setup, g: Consensus.Group, t: nat, num: nat, commits: seq<Signed>, ok: bool)
    requires su.Leader(1) in su.honest && su.Leader(1) < |g.replicas|
    requires var r := g.replicas[su.Leader(1)];
             && r.view == 1 && Consensus.Current(r, num) && num in r.pre && r.log[num].digest == Of(t)
             && r.log[num].stage >= Replica.PREPARED && Honest(su, g.net.commits, r.log[num], num, commits)
    requires ok <==> |Matching(commits, Of(t))| >= 2 * su.f + 1
    ensures Consensus.Enabled(su, g, EndPart(su, num, Of(t), commits, ok))
  {
    CommitsAreStep(su, g, su.Leader(1), num, commits, ok);
  }

  /** The leader's replica after the end of a run, on both sides. */
  lemma EndAgrees(su: Consensus.Setup, x: Replica.State, g: Consensus.Group, t: nat, num: nat, st: Status,
                  prepares: seq<Signed>, commits: seq<Signed>, ok: bool)
    requires su.Leader(1) < |g.replicas| && Underway(g.replicas[su.Leader(1)], num, t, st)
    requires |Matching(prepares, Of(t))| >= 2 * su.f && Agrees(x, g.replicas[su.Leader(1)], true)
    ensures var g2 := GroupAfterRun(su, g, t, num, prepares, commits, ok);
            var kept := Consensus.Keep(Replica.UpdateLog(x, num, Replica.PREPARED), num,
                                       EndPart(su, num, Of(t), commits, ok).cert);
            && |g2.replicas| == |g.replicas| && g2.replicas[su.Leader(1)].view == 1
            && Agrees(if ok then Replica.Commit(kept, num, st) else kept, g2.replicas[su.Leader(1)], true)
  {
    UpdateAgrees(x, g.replicas[su.Leader(1)], true, num, Replica.PREPARED);
    var g1 := Consensus.Do(su, g, Consensus.Prepared(su.Leader(1), num, VotesOf(prepares)));
    LeaderAgrees(su, Replica.UpdateLog(x, num, Replica.PREPARED), g1, num, st,
                 EndPart(su, num, Of(t), commits, ok).cert, ok);
  }

  lemma LeaderAgrees(su: Consensus.Setup, x: Replica.State, g: Consensus.Group, num: nat, st: Status, cert: set<Vote>,
                     ok: bool)
    requires su.Leader(1) < |g.replicas| && Agrees(x, g.replicas[su.Leader(1)], true)
    requires g.replicas[su.Leader(1)].view == 1 && num in g.replicas[su.Leader(1)].pre
             && g.replicas[su.Leader(1)].pre[num].st == st
    ensures var g' := Consensus.Do(su, g, Consensus.Committed(su.Leader(1), num, cert, ok));
            && |g'.replicas| == |g.replicas| && g'.replicas[su.Leader(1)].view == 1
            && Agrees(if ok then Replica.Commit(Consensus.Keep(x, num, cert), num, st)
                      else Consensus.Keep(x, num, cert),
                      g'.replicas[su.Leader(1)], true)
  {
    CommitAgrees(Consensus.Keep(x, num, cert), Consensus.Keep(g.replicas[su.Leader(1)], num, cert), true, num, st);
  }

  lemma EndAt(cfg: Config, s: Cluster.State, num: nat, t: nat, st: Status, ok: bool, db: Db, exec: nat,
              requestLog: map<nat, nat>)
    requires At(cfg, s, db, exec, requestLog) && t < |cfg.txs| && s.jobs[t].pc == Cluster.Running(st, num)
    ensures var db' := if ok then Ledger.Logged(db, cfg.txs[t], st) else Release(db, cfg.txs[t]);
            At(cfg, Cluster.Do(cfg, s, EndOf(t, ok)), db', exec, requestLog)
  {
  }

  /** The executor's next entry is the cluster's execution step for its database, whatever has become of
      the log entry since it was stored. Where that is still committed, the executor's mark shows on no
      other, and all of the node agrees again. */
  method ExecuteAtLeader(n: Node, ghost cfg: Config, ghost su: Consensus.Setup, ghost c: nat, ghost s: Cluster.State,
                         ghost g: Consensus.Group)
    requires Leads(cfg, su, c, s, g, n) && n.executorSeq in n.datastore
    modifies n`executorSeq, n`executionCount, n`log, n.db
    ensures Open(cfg, su, c, s, g, Cluster.Exec, [])
    ensures Together(cfg, su, c, Cluster.Do(cfg, s, Cluster.Exec), g)
    ensures Runs(cfg, c, Cluster.Do(cfg, s, Cluster.Exec), n)
    ensures StillCommitted(g.replicas[su.Leader(1)], s.exec) ==> Member(su, g, su.Leader(1), n)
  {
    ExecSteps(cfg, su, c, s, g);
    ExecuteRunning(n, cfg, su, c, s, g);
  }

  /** The same for the node's database and executor. */
  method ExecuteRunning(n: Node, ghost cfg: Config, ghost su: Consensus.Setup, ghost c: nat, ghost s: Cluster.State,
                        ghost g: Consensus.Group)
    requires Member(su, g, su.Leader(1), n) && Runs(cfg, c, s, n)
    requires s.log == n.datastore && s.exec in s.log && s.log[s.exec].t < |cfg.txs|
    modifies n`executorSeq, n`executionCount, n`log, n.db
    ensures Runs(cfg, c, Cluster.Do(cfg, s, Cluster.Exec), n)
    ensures StillCommitted(g.replicas[su.Leader(1)], s.exec) ==> Member(su, g, su.Leader(1), n)
  {
    ExecAt(cfg, s, n.db.Contents(), n.executorSeq, n.requestLog);
    ExecuteFields(n, su, g, su.Leader(1), s.exec);
  }

  lemma ExecSteps(cfg: Config, su: Consensus.Setup, c: nat, s: Cluster.State, g: Consensus.Group)
    requires Together(cfg, su, c, s, g) && s.exec in g.replicas[su.Leader(1)].store
    ensures g.replicas[su.Leader(1)].store == s.log && s.log[s.exec].t < |cfg.txs|
    ensures Open(cfg, su, c, s, g, Cluster.Exec, []) && Together(cfg, su, c, Cluster.Do(cfg, s, Cluster.Exec), g)
  {
    Cluster.EntryOwned(cfg, c, s, s.exec);
    StillLeads(cfg, su, c, s, g, Cluster.Exec, []);
  }

  lemma ExecAt(cfg: Config, s: Cluster.State, db: Db, exec: nat, requestLog: map<nat, nat>)
    requires s.exec in s.log && s.log[s.exec].t < |cfg.txs| && At(cfg, s, db, exec, requestLog)
    ensures At(cfg, Cluster.Do(cfg, s, Cluster.Exec), Ledger.Execute(db, cfg.txs[s.log[s.exec].t], s.log[s.exec].st),
               exec + 1, requestLog)
  {
    assert Cluster.Do(cfg, s, Cluster.Exec).jobs == s.jobs;
  }

  /** What it does to the node alone. */
  method ExecuteFields(n: Node, ghost su: Consensus.Setup, ghost g: Consensus.Group, ghost r: nat, ghost exec: nat)
    requires Member(su, g, r, n) && n.executorSeq == exec && exec in n.datastore
    modifies n`executorSeq, n`executionCount, n`log, n.db
    ensures n.executorSeq == exec + 1 && (StillCommitted(g.replicas[r], exec) ==> Member(su, g, r, n))
    ensures n.datastore[exec].t < |n.txs|
    ensures n.db.Contents() == Ledger.Execute(old(n.db.Contents()), n.txs[n.datastore[exec].t], n.datastore[exec].st)
  {
    ghost var x := n.State();
    n.ExecuteNext();
    if StillCommitted(g.replicas[r], exec) {
      MarkAgrees(x, g.replicas[r], r == su.Leader(g.replicas[r].view), exec);
    }
  }

  predicate StillCommitted(r: Replica.State, num: nat) {
    num in r.log && r.log[num].stage >= Replica.COMMITTED
  }

  /** After the coordinator's commit the log of the prepare is dropped. */
  method EraseLog(n: Node, t: nat, ghost cfg: Config, ghost su: Consensus.Setup, ghost c: nat, ghost s: Cluster.State,
                  ghost g: Consensus.Group)
    requires Leads(cfg, su, c, s, g, n) && t < |cfg.txs| && cfg.txs[t].clusterFrom == c
    requires s.jobs[t].pc.Done? && s.jobs[t].pc.st == C && s.jobs[t].pc.ok
    modifies n.db`wal
    ensures Open(cfg, su, c, s, g, Cluster.EraseWal(t), [])
    ensures Leads(cfg, su, c, Cluster.Do(cfg, s, Cluster.EraseWal(t)), g, n)
    ensures cfg.txs[t].clientSeq !in n.db.wal
  {
    EraseAt(cfg, su, c, s, g, t, n.db.Contents(), n.executorSeq, n.requestLog);
    n.db.EraseWal(n.txs[t].clientSeq);
    StillLeads(cfg, su, c, s, g, Cluster.EraseWal(t), []);
  }

  lemma EraseAt(cfg: Config, su: Consensus.Setup, c: nat, s: Cluster.State, g: Consensus.Group, t: nat, db: Db,
                exec: nat, requestLog: map<nat, nat>)
    requires At(cfg, s, db, exec, requestLog) && t < |cfg.txs| && cfg.txs[t].clusterFrom == c
    requires s.jobs[t].pc.Done? && s.jobs[t].pc.st == C && s.jobs[t].pc.ok
    ensures Open(cfg, su, c, s, g, Cluster.EraseWal(t), [])
    ensures At(cfg, Cluster.Do(cfg, s, Cluster.EraseWal(t)), Ledger.EraseWal(db, cfg.txs[t].clientSeq), exec,
               requestLog)
  {
  }

  /***** A backup's handlers *****/

  /** The replica has this pre-prepare's number in its log already. */
  predicate Logged(r: Replica.State, pp: PrePrepare) {
    pp.num in r.log && r.log[pp.num].view == pp.view
  }

  /** What a backup does about a pre-prepare it can accept. */
  function AcceptStep(s: Replica.State, r: nat, pp: PrePrepare): Consensus.Action {
    if Logged(s, pp) then Consensus.Again(r, pp.num) else Consensus.Accept(r, pp)
  }

  /** A pre-prepare comes in. It is accepted exactly if it passes the checks and, for a first-phase run, its
      locks are free: then the backup accepts it and its vote is the one sent, or, if it has had this very
      message before, writes its entry again. */
  method ReceivePrePrepare(n: Node, m: PrePrepareMsg, ghost cfg: Config, ghost su: Consensus.Setup,
                           ghost g: Consensus.Group, ghost r: nat, ghost b: System.Books) returns (vote: Option<Vote>)
    requires su.Valid() && Consensus.Inv(su, g) && Follows(cfg, su, g, r, n, b) && m.t < |cfg.txs|
    requires m.leaderVerified ==> m.pp in g.net.pre
    modifies n`requestLog, n`log, n`maxSeq, n`prePrepares, n.db`locks
    ensures vote.Some? <==>
              && n.live && m.pp.digest == Of(m.t) && m.clientVerified && m.leaderVerified
              && Replica.CanAccept(g.replicas[r], m.pp)
              && (m.pp.st == C || m.pp.st == A
                  || (cfg.txs[m.t].from !in old(n.db.locks) && cfg.txs[m.t].to !in old(n.db.locks)))
    ensures vote.None? ==> Follows(cfg, su, g, r, n, b)
    ensures vote.Some? && (Logged(g.replicas[r], m.pp) ==> g.replicas[r].pre[m.pp.num] == m.pp) ==>
              var a := AcceptStep(g.replicas[r], r, m.pp);
              && Consensus.Enabled(su, g, a) && Follows(cfg, su, Consensus.Do(su, g, a), r, n, b)
              && (a.Accept? ==> vote.value in Consensus.Do(su, g, a).net.prepares)
  {
    CheckAgrees(n.State(), g.replicas[r], m.pp);
    var v := n.CheckMessage(m);
    vote := None;
    if v.Passed? {
      vote := AcceptPassed(n, m, cfg, su, g, r, b);
    }
  }

  /** The same for a message that has passed the checks. */
  method AcceptPassed(n: Node, m: PrePrepareMsg, ghost cfg: Config, ghost su: Consensus.Setup, ghost g: Consensus.Group,
                      ghost r: nat, ghost b: System.Books) returns (vote: Option<Vote>)
    requires Consensus.LogsOk(su, g) && Follows(cfg, su, g, r, n, b) && m.t < |cfg.txs| && m.pp.digest == Of(m.t)
    requires Replica.CanAccept(n.State(), m.pp) && m.pp in g.net.pre
    modifies n`log, n`maxSeq, n`prePrepares, n.db`locks
    ensures vote.Some? <==> m.pp.st == C || m.pp.st == A
                            || (cfg.txs[m.t].from !in old(n.db.locks) && cfg.txs[m.t].to !in old(n.db.locks))
    ensures vote.None? ==> Follows(cfg, su, g, r, n, b)
    ensures vote.Some? && (Logged(g.replicas[r], m.pp) ==> g.replicas[r].pre[m.pp.num] == m.pp) ==>
              var a := AcceptStep(g.replicas[r], r, m.pp);
              && Consensus.Enabled(su, g, a) && Follows(cfg, su, Consensus.Do(su, g, a), r, n, b)
              && (a.Accept? ==> vote.value in Consensus.Do(su, g, a).net.prepares)
  {
    vote := AcceptAsMember(n, m, su, g, r);
  }

  lemma CheckAgrees(x: Replica.State, y: Replica.State, pp: PrePrepare)
    requires Agrees(x, y, false)
    ensures Replica.CanAccept(x, pp) == Replica.CanAccept(y, pp)
  {
  }

  /** The same for the node's part in its group. */
  method AcceptAsMember(n: Node, m: PrePrepareMsg, ghost su: Consensus.Setup, ghost g: Consensus.Group, ghost r: nat)
    returns (vote: Option<Vote>)
    requires Consensus.LogsOk(su, g) && Member(su, g, r, n) && r != su.Leader(g.replicas[r].view)
    requires m.t < |n.txs| && m.pp.digest == Of(m.t) && Replica.CanAccept(n.State(), m.pp) && m.pp in g.net.pre
    modifies n`log, n`maxSeq, n`prePrepares, n.db`locks
    ensures vote.Some? <==> m.pp.st == C || m.pp.st == A
                            || (n.txs[m.t].from !in old(n.db.locks) && n.txs[m.t].to !in old(n.db.locks))
    ensures vote.None? ==> Member(su, g, r, n)
    ensures vote.Some? && (Logged(g.replicas[r], m.pp) ==> g.replicas[r].pre[m.pp.num] == m.pp) ==>
              var a := AcceptStep(g.replicas[r], r, m.pp);
              && Consensus.Enabled(su, g, a) && Member(su, Consensus.Do(su, g, a), r, n)
              && Consensus.Do(su, g, a).replicas[r].view == g.replicas[r].view
              && (a.Accept? ==> vote.value in Consensus.Do(su, g, a).net.prepares)
  {
    ghost var x := n.State();
    vote := n.AcceptMessage(m);
    if vote.Some? && (Logged(g.replicas[r], m.pp) ==> g.replicas[r].pre[m.pp.num] == m.pp) {
      AcceptAgrees(su, x, g, r, m.pp);
    }
  }

  lemma AcceptAgrees(su: Consensus.Setup, x: Replica.State, g: Consensus.Group, r: nat, pp: PrePrepare)
    requires Consensus.LogsOk(su, g) && r in su.honest && r < |g.replicas| && r != su.Leader(g.replicas[r].view)
    requires Agrees(x, g.replicas[r], false) && Replica.CanAccept(x, pp) && pp in g.net.pre
    requires Logged(g.replicas[r], pp) ==> pp.num in g.replicas[r].pre && g.replicas[r].pre[pp.num] == pp
    ensures var a := AcceptStep(g.replicas[r], r, pp);
            && Consensus.Enabled(su, g, a)
            && var g' := Consensus.Do(su, g, a);
               && |g'.replicas| == |g.replicas| && g'.replicas[r].view == g.replicas[r].view
               && Agrees(Replica.Accept(x, pp), g'.replicas[r], false)
               && (a.Accept? ==> Vote(pp.view, pp.num, pp.digest, r) in g'.net.prepares)
  {
    if Logged(g.replicas[r], pp) {
      assert Consensus.EntryOk(su, g.net, g.replicas[r], pp.num);
      WriteAgrees(x, g.replicas[r], false, pp.num, pp.digest);
    } else {
      AcceptedAgrees(x, g.replicas[r], pp);
    }
  }

  lemma AcceptedAgrees(x: Replica.State, y: Replica.State, pp: PrePrepare)
    requires Agrees(x, y, false) && Replica.CanAccept(x, pp)
    ensures Replica.CanAccept(y, pp) && Agrees(Replica.Accept(x, pp), Replica.Accept(y, pp), false)
  {
  }

  /** The leader's prepares come in: with enough of them the entry is prepared and the vote is sent. */
  method ReceivePrepares(n: Node, num: nat, prepares: seq<Signed>, ghost cfg: Config, ghost su: Consensus.Setup,
                         ghost g: Consensus.Group, ghost r: nat, ghost b: System.Books) returns (vote: Option<Vote>)
    requires Follows(cfg, su, g, r, n, b) && Consensus.Current(g.replicas[r], num)
    requires Honest(su, g.net.prepares, g.replicas[r].log[num], num, prepares)
    requires forall s | s in prepares :: s.vote.node != su.Leader(g.replicas[r].view)
    modifies n`log, n`prepareCerts
    ensures vote.Some? <==> |Matching(prepares, g.replicas[r].log[num].digest)| >= 2 * su.f
    ensures vote.None? ==> Follows(cfg, su, g, r, n, b)
    ensures vote.Some? ==>
              var a := Consensus.Prepared(r, num, VotesOf(prepares));
              && Consensus.Enabled(su, g, a) && Follows(cfg, su, Consensus.Do(su, g, a), r, n, b)
              && vote.value in Consensus.Do(su, g, a).net.commits
  {
    ghost var x := n.State();
    vote := n.PrepareReply(num, prepares);
    if vote.Some? {
      PreparesAreStep(su, g, r, num, prepares);
      UpdateAgrees(x, g.replicas[r], false, num, Replica.PREPARED);
    }
  }

  /** What the leader hands out after counting is as honest as what it has collected, and counts in full. */
  lemma HandedOut(su: Consensus.Setup, net: set<Vote>, e: Replica.LogEntry, num: nat, certs: seq<Signed>)
    requires Honest(su, net, e, num, certs)
    ensures Honest(su, net, e, num, Matching(certs, e.digest))
    ensures Matching(Matching(certs, e.digest), e.digest) == Matching(certs, e.digest)
    ensures forall s | s in Matching(certs, e.digest) :: s in certs
  {
    MatchingAgain(certs, e.digest);
    MatchingVotes(certs, e.view, num, e.digest);
    forall s | s in Matching(certs, e.digest) ensures s in certs {
      MatchingIn(certs, e.digest, s);
    }
  }

  /** A leader whose run has got 2f prepares hands them out, and a backup that gets them votes to commit. */
  method PassOnPrepares(l: Node, n: Node, num: nat, ghost prepares: seq<Signed>, ghost cfg: Config,
                        ghost su: Consensus.Setup, ghost g: Consensus.Group, ghost r: nat, ghost b: System.Books)
    returns (vote: Option<Vote>)
    requires Follows(cfg, su, g, r, n, b) && Consensus.Current(g.replicas[r], num)
    requires Honest(su, g.net.prepares, g.replicas[r].log[num], num, prepares)
    requires forall s | s in prepares :: s.vote.node != su.Leader(g.replicas[r].view)
    requires |Matching(prepares, g.replicas[r].log[num].digest)| >= 2 * su.f
    requires l.live && !l.changing && !l.byzantine && l.f == su.f
    requires num in l.prepareCerts && l.prepareCerts[num] == Matching(prepares, g.replicas[r].log[num].digest)
    modifies n`log, n`prepareCerts
    ensures vote.Some?
    ensures exists cert ::
              var a := Consensus.Prepared(r, num, cert);
              && Consensus.Enabled(su, g, a) && Follows(cfg, su, Consensus.Do(su, g, a), r, n, b)
              && vote.value in Consensus.Do(su, g, a).net.commits
  {
    HandedOut(su, g.net.prepares, g.replicas[r].log[num], num, prepares);
    var reply := l.HandOutPrepares(num);
    vote := ReceivePrepares(n, num, reply.value, cfg, su, g, r, b);
  }

  /** The leader's commits come in: with enough of them the entry is stored, in the phase it was
      pre-prepared in, and a prepare is noted in the books. */
  method ReceiveCommits(n: Node, num: nat, commits: seq<Signed>, st: Status, t: nat, ghost cfg: Config,
                        ghost su: Consensus.Setup, ghost g: Consensus.Group, ghost r: nat,
                        ghost bs: seq<System.Books>) returns (ok: bool)
    requires r < |bs| && Follows(cfg, su, g, r, n, bs[r]) && Consensus.Current(g.replicas[r], num)
    requires var s := g.replicas[r];
             && num in s.pre && s.pre[num].st == st && t < |cfg.txs| && s.log[num].digest == Of(t)
             && s.log[num].stage >= Replica.PREPARED && Honest(su, g.net.commits, s.log[num], num, commits)
             && (su.Leader(s.view) in su.honest && su.Leader(s.view) < |g.replicas| ==>
                   num in g.replicas[su.Leader(s.view)].collected
                   && g.replicas[su.Leader(s.view)].collected[num] == VotesOf(Matching(commits, Of(t))))
    modifies n`log, n`commitCerts, n`datastore, n`datastoreMax, n.db`wal
    ensures ok <==> |Matching(commits, Of(t))| >= 2 * su.f + 1
    ensures !ok ==> Follows(cfg, su, g, r, n, bs[r])
    ensures ok ==>
              var a := Consensus.Committed(r, num, VotesOf(Matching(commits, Of(t))), true);
              && Consensus.Enabled(su, g, a)
              && var g' := Consensus.Do(su, g, a);
                 Follows(cfg, su, g', r, n, System.Noted(cfg, g', a, bs)[r])
  {
    CommitsAgree(su, n.State(), g, r, num, commits, st, t);
    ok := CommitAsMember(n, num, commits, st, t, su, g, r);
    if ok {
      ghost var a := Consensus.Committed(r, num, VotesOf(Matching(commits, Of(t))), true);
      NotedOne(cfg, Consensus.Do(su, g, a), a, bs, t, st);
    }
  }

  /** The same for the node's part in its group. */
  method CommitAsMember(n: Node, num: nat, commits: seq<Signed>, st: Status, t: nat, ghost su: Consensus.Setup,
                        ghost g: Consensus.Group, ghost r: nat) returns (ok: bool)
    requires Member(su, g, r, n) && r != su.Leader(g.replicas[r].view) && t < |n.txs|
    requires num in g.replicas[r].log && g.replicas[r].log[num].digest == Of(t)
             && g.replicas[r].log[num].stage >= Replica.PREPARED
    requires |Matching(commits, Of(t))| >= 2 * su.f + 1 ==>
               Commits(su, n.State(), g, r, num, VotesOf(Matching(commits, Of(t))), st)
    modifies n`log, n`commitCerts, n`datastore, n`datastoreMax, n.db`wal
    ensures ok <==> |Matching(commits, Of(t))| >= 2 * su.f + 1
    ensures !ok ==> Member(su, g, r, n)
    ensures ok ==>
              Member(su, Consensus.Do(su, g, Consensus.Committed(r, num, VotesOf(Matching(commits, Of(t))), true)), r,
                     n)
    ensures n.db.Contents() == if ok then Ledger.Logged(old(n.db.Contents()), n.txs[t], st) else old(n.db.Contents())
  {
    ok := n.TakeCommits(num, commits, st, t);
  }

  /** The replica's commit step agrees with what taking these commits makes of `x`. */
  ghost predicate Commits(su: Consensus.Setup, x: Replica.State, g: Consensus.Group, r: nat, num: nat, cert: set<Vote>,
                          st: Status)
    requires r < |g.replicas|
  {
    var g' := Consensus.Do(su, g, Consensus.Committed(r, num, cert, true));
    && |g'.replicas| == |g.replicas| && g'.replicas[r].view == g.replicas[r].view
    && Agrees(Replica.Commit(Consensus.Keep(x, num, cert), num, st), g'.replicas[r], false)
  }

  lemma NotedOne(cfg: Config, g: Consensus.Group, a: Consensus.Action, bs: seq<System.Books>, t: nat, st: Status)
    requires a.Committed? && a.enough && a.r < |bs| && a.r < |g.replicas| && t < |cfg.txs|
    requires a.num in g.replicas[a.r].store && g.replicas[a.r].store[a.num] == Entry(t, st)
    ensures System.Noted(cfg, g, a, bs) == bs[a.r := bs[a.r].(db := Ledger.Logged(bs[a.r].db, cfg.txs[t], st))]
  {
  }

  lemma CommitsAgree(su: Consensus.Setup, x: Replica.State, g: Consensus.Group, r: nat, num: nat, commits: seq<Signed>,
                     st: Status, t: nat)
    requires r in su.honest && r < |g.replicas| && r != su.Leader(g.replicas[r].view)
             && Consensus.Current(g.replicas[r], num)
    requires Agrees(x, g.replicas[r], false)
    requires var s := g.replicas[r];
             && num in s.pre && s.pre[num].st == st && s.log[num].digest == Of(t)
             && s.log[num].stage >= Replica.PREPARED && Honest(su, g.net.commits, s.log[num], num, commits)
             && (su.Leader(s.view) in su.honest && su.Leader(s.view) < |g.replicas| ==>
                   num in g.replicas[su.Leader(s.view)].collected
                   && g.replicas[su.Leader(s.view)].collected[num] == VotesOf(Matching(commits, Of(t))))
    ensures |Matching(commits, Of(t))| >= 2 * su.f + 1 ==>
              var cert := VotesOf(Matching(commits, Of(t)));
              var a := Consensus.Committed(r, num, cert, true);
              && Consensus.Enabled(su, g, a) && Commits(su, x, g, r, num, cert, st)
              && var g' := Consensus.Do(su, g, a);
                 num in g'.replicas[r].store && g'.replicas[r].store[num] == Entry(t, st)
  {
    var s, cert := g.replicas[r], VotesOf(Matching(commits, Of(t)));
    if |Matching(commits, Of(t))| >= 2 * su.f + 1 {
      CommitsAreStep(su, g, r, num, commits, true);
      CommitAgrees(Consensus.Keep(x, num, cert), s, false, num, st);
    }
  }

  /** A leader whose run has got 2f+1 commits hands them out, and a backup that gets them commits. */
  method PassOnCommits(l: Node, n: Node, num: nat, st: Status, t: nat, ghost commits: seq<Signed>, ghost cfg: Config,
                       ghost su: Consensus.Setup, ghost g: Consensus.Group, ghost r: nat, ghost bs: seq<System.Books>)
    returns (ok: bool)
    requires r < |bs| && Follows(cfg, su, g, r, n, bs[r]) && Consensus.Current(g.replicas[r], num)
    requires var s := g.replicas[r];
             && num in s.pre && s.pre[num].st == st && t < |cfg.txs| && s.log[num].digest == Of(t)
             && s.log[num].stage >= Replica.PREPARED && Honest(su, g.net.commits, s.log[num], num, commits)
    requires Member(su, g, su.Leader(g.replicas[r].view), l) && l.live && !l.changing && l.view == g.replicas[r].view
    requires num in l.commitCerts && l.commitCerts[num] == Matching(commits, Of(t))
    requires |Matching(commits, Of(t))| >= 2 * su.f + 1
    modifies n`log, n`commitCerts, n`datastore, n`datastoreMax, n.db`wal
    ensures ok
    ensures var a := Consensus.Committed(r, num, VotesOf(Matching(commits, Of(t))), true);
            && Consensus.Enabled(su, g, a)
            && var g' := Consensus.Do(su, g, a);
               Follows(cfg, su, g', r, n, System.Noted(cfg, g', a, bs)[r])
  {
    HandedOut(su, g.net.commits, g.replicas[r].log[num], num, commits);
    var reply := HandOutAsMember(l, num, su, g, su.Leader(g.replicas[r].view));
    ok := ReceiveCommits(n, num, reply, st, t, cfg, su, g, r, bs);
  }

  /** What the leader hands out is what the protocol says it has collected. */
  method HandOutAsMember(l: Node, num: nat, ghost su: Consensus.Setup, ghost g: Consensus.Group, ghost r: nat)
    returns (reply: seq<Signed>)
    requires Member(su, g, r, l) && r == su.Leader(g.replicas[r].view) && l.live && !l.changing
    requires num in l.commitCerts && |l.commitCerts[num]| >= 2 * su.f + 1
    ensures reply == l.commitCerts[num]
    ensures num in g.replicas[r].collected && g.replicas[r].collected[num] == VotesOf(reply)
  {
    var handed := l.HandOutCommits(num);
    reply := handed.value;
  }

  /** The backup's executor takes its next entry. */
  method ExecuteAtBackup(n: Node, ghost cfg: Config, ghost su: Consensus.Setup, ghost g: Consensus.Group, ghost r: nat,
                         ghost b: System.Books)
    requires Follows(cfg, su, g, r, n, b) && n.executorSeq in n.datastore
    modifies n`executorSeq, n`executionCount, n`log, n.db
    ensures System.CanExecute(cfg, g.replicas[r].store, b)
    ensures Keeps(cfg, n, System.Executed(cfg, g.replicas[r].store, b))
    ensures StillCommitted(g.replicas[r], b.exec) ==> Member(su, g, r, n)
  {
    ExecuteFields(n, su, g, r, b.exec);
  }

  /***** Changing views *****/

  /** A replica leaves its view, and its message reports what it has prepared. */
  method LeaveView(n: Node, v: nat, ghost su: Consensus.Setup, ghost g: Consensus.Group, ghost r: nat)
    returns (change: Option<SignedChange>)
    requires Member(su, g, r, n)
    modifies n`changing, n`newView, n`viewChangeCerts
    ensures change.None? ==> Member(su, g, r, n)
    ensures change.Some? ==>
              var a := Consensus.StartView(r, v);
              && Consensus.Enabled(su, g, a) && Member(su, Consensus.Do(su, g, a), r, n)
              && ChangeOf(change.value) in Consensus.Do(su, g, a).net.vcs
  {
    SameReports(n.State(), g.replicas[r], r == su.Leader(g.replicas[r].view));
    change := n.SendViewChange(v);
  }

  /** A view change comes in: joining it is leaving the view. */
  method JoinView(n: Node, c: SignedChange, ghost su: Consensus.Setup, ghost g: Consensus.Group, ghost r: nat)
    returns (joined: Option<SignedChange>, start: bool)
    requires Member(su, g, r, n)
    modifies n`changing, n`newView, n`viewChangeCerts
    ensures joined.None? ==> Member(su, g, r, n)
    ensures joined.Some? ==>
              var a := Consensus.StartView(r, c.view);
              && Consensus.Enabled(su, g, a) && Member(su, Consensus.Do(su, g, a), r, n)
              && ChangeOf(joined.value) in Consensus.Do(su, g, a).net.vcs
    ensures start ==> r == su.Leader(g.replicas[r].view) && c.view > g.replicas[r].view
  {
    SameReports(n.State(), g.replicas[r], r == su.Leader(g.replicas[r].view));
    joined, start := n.ReceiveViewChange(c);
  }

  /** The leader of the view that is left offers the new view and adopts it. */
  method OfferView(n: Node, v: nat, certs: seq<SignedChange>, ghost su: Consensus.Setup, ghost g: Consensus.Group,
                   ghost r: nat)
    returns (m: Option<NewViewMsg>)
    requires Member(su, g, r, n) && r == su.Leader(g.replicas[r].view)
    requires v > g.replicas[r].view && v >= g.replicas[r].newView
    requires forall c | c in certs :: c.view == v && ChangeOf(c) in g.net.vcs
    requires |Consensus.Senders(set c | c in certs :: ChangeOf(c)) * su.All()| >= 2 * su.f + 1
    modifies n`view, n`next, n`changing, n`newViewsSent, n`executorSeq
    ensures m.None? ==> Member(su, g, r, n)
    ensures m.Some? ==>
              var nv := NewViewOf(v, r, certs, m.value.prepared);
              var g1 := Consensus.Do(su, g, Consensus.OfferView(nv));
              && Consensus.Enabled(su, g, Consensus.OfferView(nv))
                 && Consensus.Enabled(su, g1, Consensus.AdoptView(r, nv))
              && Member(su, Consensus.Do(su, g1, Consensus.AdoptView(r, nv)), r, n)
  {
    m := n.SendNewView(v, certs);
    if m.Some? {
      ListEnds(v, r, certs, m.value.prepared);
    }
  }

  /** A new view comes in, signed by the leader of the replica's view: it is adopted, whichever it is, with
      the number its list ends with. That is what the protocol's step does, which is open if the new view
      is a later one, a comparison the handler does not make. A replica that becomes the leader has no
      lists of commits left over that the protocol does not know of. */
  method ReceiveView(n: Node, m: NewViewMsg, ghost su: Consensus.Setup, ghost g: Consensus.Group, ghost r: nat)
    returns (ok: bool)
    requires Member(su, g, r, n) && m.view >= 1
    requires m.verified && |set i | 0 <= i < |m.certs| && m.certs[i].verified| >= 2 * su.f + 1 ==>
               NewViewOf(m.view, su.Leader(g.replicas[r].view), Verified(m.certs), m.prepared) in g.net.nvs
    requires r == su.Leader(m.view) ==> n.State().collected == g.replicas[r].collected
    modifies n`view, n`next, n`changing, n`executorSeq
    ensures ok <==> m.verified && |set i | 0 <= i < |m.certs| && m.certs[i].verified| >= 2 * su.f + 1
    ensures !ok ==> Member(su, g, r, n)
    ensures ok ==>
              var nv := NewViewOf(m.view, su.Leader(g.replicas[r].view), Verified(m.certs), m.prepared);
              && Member(su, Consensus.Do(su, g, Consensus.AdoptView(r, nv)), r, n)
              && (m.view > g.replicas[r].view && m.view >= g.replicas[r].newView ==>
                    Consensus.Enabled(su, g, Consensus.AdoptView(r, nv)))
  {
    ok := n.ReceiveNewView(m);
  }

  /***** The two leaders of a transfer *****/

  /** The participant has only been told to commit what the coordinator has committed. */
  ghost predicate Told(cfg: Config, s: TwoPhase.State, pcCommits: set<int>) {
    forall t | 0 <= t < |cfg.txs| && cfg.txs[t].Cross() && cfg.txs[t].clientSeq in pcCommits ::
      TwoPhase.CommitOk(TwoPhase.Coord(cfg, s, t).pc)
  }

  /** That holds at the start, and no step of any cluster changes it: what the coordinator has committed
      stays committed. */
  lemma ToldFirst(cfg: Config)
    ensures Told(cfg, TwoPhase.Init(cfg), {})
  {
  }

  lemma ToldStays(cfg: Config, s: TwoPhase.State, c: nat, a: Cluster.Action, s': TwoPhase.State, pcCommits: set<int>)
    requires cfg.Valid() && TwoPhase.Core(cfg, s) && TwoPhase.Step(cfg, s, c, a, s') && Told(cfg, s, pcCommits)
    ensures Told(cfg, s', pcCommits)
  {
    forall t | 0 <= t < |cfg.txs| && cfg.txs[t].Cross() && cfg.txs[t].clientSeq in pcCommits
      ensures TwoPhase.CommitOk(TwoPhase.Coord(cfg, s', t).pc)
    {
      CommitStays(cfg, s, c, a, s', t);
    }
  }

  lemma CommitStays(cfg: Config, s: TwoPhase.State, c: nat, a: Cluster.Action, s': TwoPhase.State, t: nat)
    requires cfg.Valid() && TwoPhase.Core(cfg, s) && TwoPhase.Step(cfg, s, c, a, s') && t < |cfg.txs|
             && cfg.txs[t].Cross()
    requires TwoPhase.CommitOk(TwoPhase.Coord(cfg, s, t).pc)
    ensures TwoPhase.CommitOk(TwoPhase.Coord(cfg, s', t).pc)
  {
    assert cfg.ValidTransfer(cfg.txs[t]);
    TwoPhase.StepJob(cfg, s, c, a, s', cfg.txs[t].clusterFrom, t);
  }

  /** A list that the coordinator has honestly collected for its prepare passes the participant's check exactly
      if it is long enough, and then the participant may number the transfer. */
  method CheckCoordinator(n: Node, t: nat, commits: seq<Signed>, clientVerified: bool, ghost w: System.World,
                          ghost s: System.State, ghost c: nat, ghost e: Replica.LogEntry, ghost num: nat)
    returns (ok: bool)
    requires w.Valid() && System.Sized(w, s) && t < |w.cfg.txs| && w.cfg.txs[t].Cross() && c == w.cfg.txs[t].clusterTo
    requires c < |w.su| && n.f == w.su[c].f && w.cfg.txs[t].clusterFrom < |w.su| && e.digest == Of(t)
    requires var from := w.cfg.txs[t].clusterFrom; Honest(w.su[from], s.groups[from].net.commits, e, num, commits)
    ensures ok <==> clientVerified && |Matching(commits, Of(t))| >= 2 * n.f + 1
    ensures clientVerified ==> (ok <==> System.Certified(w, s, c, Cluster.Assign(t), commits))
  {
    ok := n.ValidateCoordinator(t, commits, clientVerified);
  }

  /** The commit message comes in, which the coordinator sends only after its own commit: the participant
      notes it, has still been told only what is committed, and its commit run may start as soon as its
      prepare has committed, and again whenever it has failed. */
  method HearCommit(n: Node, t: nat, ghost cfg: Config, ghost s: TwoPhase.State)
    requires cfg.Valid() && TwoPhase.Core(cfg, s) && n.txs == cfg.txs && Told(cfg, s, n.pcCommits)
    requires t < |cfg.txs| && cfg.txs[t].Cross() && TwoPhase.CommitOk(TwoPhase.Coord(cfg, s, t).pc)
    modifies n`pcCommits
    ensures Told(cfg, s, n.pcCommits) && cfg.txs[t].clientSeq in n.pcCommits && cfg.txs[t].clusterTo < |s.cl|
    ensures TwoPhase.Guard(cfg, s, cfg.txs[t].clusterTo, Cluster.Start(t, C))
    ensures (var pc := TwoPhase.Part(cfg, s, t).pc; pc.Done? && pc.st in {P, C} && pc.ok == (pc.st == P)) ==>
              Cluster.Enabled(cfg, cfg.txs[t].clusterTo, s.cl[cfg.txs[t].clusterTo], Cluster.Start(t, C))
    ensures TwoPhase.PrepareOk(TwoPhase.Part(cfg, s, t).pc) || TwoPhase.InPhase(TwoPhase.Part(cfg, s, t).pc, C)
  {
    CommitMayStart(cfg, s, t);
    ToldMore(cfg, s, n.pcCommits, t);
    n.ReceiveCommit(t);
  }

  lemma CommitMayStart(cfg: Config, s: TwoPhase.State, t: nat)
    requires cfg.Valid() && TwoPhase.Core(cfg, s)
    requires t < |cfg.txs| && cfg.txs[t].Cross() && TwoPhase.CommitOk(TwoPhase.Coord(cfg, s, t).pc)
    ensures cfg.txs[t].clusterTo < |s.cl| && TwoPhase.Guard(cfg, s, cfg.txs[t].clusterTo, Cluster.Start(t, C))
    ensures TwoPhase.PrepareOk(TwoPhase.Part(cfg, s, t).pc) || TwoPhase.InPhase(TwoPhase.Part(cfg, s, t).pc, C)
    ensures (var pc := TwoPhase.Part(cfg, s, t).pc; pc.Done? && pc.st in {P, C} && pc.ok == (pc.st == P)) ==>
              Cluster.Enabled(cfg, cfg.txs[t].clusterTo, s.cl[cfg.txs[t].clusterTo], Cluster.Start(t, C))
  {
    assert TwoPhase.Paired(cfg, s, t) && cfg.ValidTransfer(cfg.txs[t]);
    assert Cluster.Basic(cfg, cfg.txs[t].clusterTo, s.cl[cfg.txs[t].clusterTo]);
  }

  lemma ToldMore(cfg: Config, s: TwoPhase.State, pcCommits: set<int>, t: nat)
    requires cfg.Valid() && Told(cfg, s, pcCommits) && t < |cfg.txs|
    requires TwoPhase.CommitOk(TwoPhase.Coord(cfg, s, t).pc)
    ensures Told(cfg, s, pcCommits + {cfg.txs[t].clientSeq})
  {
    forall u | 0 <= u < |cfg.txs| && u != t ensures cfg.txs[u].clientSeq != cfg.txs[t].clientSeq {
    }
  }

  /** When the participant's prepare run is over, its answer tells the coordinator what it may do next:
      it may commit exactly if it gets an acknowledgement, and else abort. After a failed run the
      participant aborts; what it waits for before, a commit message, cannot come. */
  method AnswerCoordinator(n: Node, t: nat, ran: bool, ghost cfg: Config, ghost s: TwoPhase.State)
    returns (acknowledged: bool, abort: bool)
    requires cfg.Valid() && TwoPhase.Core(cfg, s) && n.txs == cfg.txs && Told(cfg, s, n.pcCommits)
    requires t < |cfg.txs| && cfg.txs[t].Cross()
    requires TwoPhase.Part(cfg, s, t).pc.Done? && TwoPhase.Part(cfg, s, t).pc.st == P
             && TwoPhase.Part(cfg, s, t).pc.ok == ran
    ensures acknowledged <==> TwoPhase.Guard(cfg, s, cfg.txs[t].clusterFrom, Cluster.Start(t, C))
    ensures !acknowledged <==> TwoPhase.Guard(cfg, s, cfg.txs[t].clusterFrom, Cluster.Start(t, A))
    ensures cfg.txs[t].clusterFrom < |s.cl| && cfg.txs[t].clusterTo < |s.cl|
    ensures TwoPhase.PrepareOk(TwoPhase.Coord(cfg, s, t).pc) ==>
              Cluster.Enabled(cfg, cfg.txs[t].clusterFrom, s.cl[cfg.txs[t].clusterFrom],
                              Cluster.Start(t, if acknowledged then C else A))
    ensures abort <==> !acknowledged
    ensures abort ==>
              && Cluster.Enabled(cfg, cfg.txs[t].clusterTo, s.cl[cfg.txs[t].clusterTo], Cluster.Start(t, A))
              && !TwoPhase.InPhase(TwoPhase.Coord(cfg, s, t).pc, C)
  {
    assert TwoPhase.Paired(cfg, s, t) && cfg.ValidTransfer(cfg.txs[t]);
    assert Cluster.Basic(cfg, cfg.txs[t].clusterFrom, s.cl[cfg.txs[t].clusterFrom]);
    acknowledged, abort := n.AnswerPrepare(t, true, ran);
  }
}

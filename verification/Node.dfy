/** One node of a cluster: its fields, and its handlers as they change them. Each handler is proved to
    make the step of the replica and of the ledger that the protocol is specified by. Messages that
    arrive, signatures that were checked and the moments at which waiting ends are parameters. */
module Nodes {
  import opened Transfers
  import opened Messages
  import opened Ledger
  import opened Databases
  import opened Certificates
  import opened NewViews
  import Replica
  import Consensus

  /** A pre-prepare with the request it is attached to, and the outcome of its signature checks. */
  datatype PrePrepareMsg = PrePrepareMsg(pp: PrePrepare, t: nat, clientVerified: bool, leaderVerified: bool)

  datatype NewViewMsg = NewViewMsg(view: nat, certs: seq<SignedChange>, prepared: seq<PrePrepare>, verified: bool)

  datatype Verdict = ChangingView | NotLive | WrongView | Gap | OtherDigest | WrongDigest | BadSignature | Passed

  /** How an attempt to take the locks of a request ends: they are taken already, the balance does
      not cover the request, or they are held now. */
  datatype LockOutcome = Busy | Refused | Ready

  datatype Admission = Ignored | Forward(leader: nat) | Handle(oldSeq: nat)

  /** What the certificates stand for. */
  ghost function Collected(certs: map<nat, seq<Signed>>): map<nat, set<Vote>> {
    map n | n in certs :: VotesOf(certs[n])
  }

  lemma Kept(certs: map<nat, seq<Signed>>, num: nat, list: seq<Signed>)
    ensures Collected(certs[num := list]) == Collected(certs)[num := VotesOf(list)]
  {
  }

  lemma KeepTwice(r: Replica.State, num: nat, a: set<Vote>, b: set<Vote>)
    ensures Consensus.Keep(Consensus.Keep(r, num, a), num, b) == Consensus.Keep(r, num, b)
  {
  }

  class Node {
    const id: nat
    const cluster: nat
    const f: nat
    /** What the numbers of requests stand for. */
    const txs: seq<Transfer>
    const db: Database

    var live: bool
    var byzantine: bool
    var view: nat
    var next: nat
    var changing: bool
    var newView: nat
    /** The request of an entry is the one its digest stands for. */
    var log: map<nat, Replica.LogEntry>
    var maxSeq: nat
    var prePrepares: map<nat, PrePrepare>
    var prepareCerts: map<nat, seq<Signed>>
    var commitCerts: map<nat, seq<Signed>>
    var datastore: map<nat, Entry>
    var datastoreMax: nat
    var requestLog: map<nat, nat>
    var viewChangeCerts: map<nat, seq<SignedChange>>
    var newViewsSent: set<nat>
    var pcCommits: set<int>
    var executorSeq: nat
    var executionCount: nat

    ghost function State(): Replica.State
      reads this
    {
      Replica.State(view, next, changing, newView, log, prePrepares, Collected(commitCerts), datastore)
    }

    ghost predicate Valid()
      reads this
    {
      view >= 1 && LogOk() && StoreOk()
    }

    ghost predicate LogOk()
      reads this`log, this`maxSeq, this`prePrepares
    {
      forall n | n in log :: 1 <= n <= maxSeq && n in prePrepares && log[n].digest.Of? && log[n].digest.t < |txs|
    }

    ghost predicate StoreOk()
      reads this`datastore, this`datastoreMax
    {
      forall n | n in datastore :: n <= datastoreMax && datastore[n].t < |txs|
    }

    constructor (id: nat, cluster: nat, f: nat, txs: seq<Transfer>, shard: Shard)
      ensures Valid() && fresh(db) && State() == Replica.Init() && executorSeq == 1
      ensures this.id == id && this.cluster == cluster && this.f == f && this.txs == txs
      ensures db.Contents() == Db(Initial(shard), {}, map[]) && !byzantine && requestLog == map[]
      ensures live && view == 1 && next == 1 && !changing && newView == 0 && executionCount == 0
      ensures log == map[] && maxSeq == 0 && prePrepares == map[] && prepareCerts == map[] && commitCerts == map[]
      ensures datastore == map[] && datastoreMax == 0
      ensures viewChangeCerts == map[] && newViewsSent == {} && pcCommits == {}
      ensures db.locks == {} && db.wal == map[] && forall x :: x in db.balances <==> shard.lo <= x <= shard.hi
      ensures forall x | x in db.balances :: db.balances[x] == INITIAL_BALANCE
    {
      this.id, this.cluster, this.f, this.txs := id, cluster, f, txs;
      live, byzantine := true, false;
      view, next, changing, newView := 1, 1, false, 0;
      log, maxSeq, prePrepares, prepareCerts, commitCerts := map[], 0, map[], map[], map[];
      datastore, datastoreMax, requestLog := map[], 0, map[];
      viewChangeCerts, newViewsSent, pcCommits, executorSeq, executionCount := map[], {}, {}, 1, 0;
      db := new Database();
      new;
      db.InitiateBalances(shard);
      assert map[] + Initial(shard) == Initial(shard);
    }

    /***** The log *****/

    method WriteLog(num: nat, digest: Digest)
      modifies this`maxSeq, this`log
      ensures State() == Replica.WriteLog(old(State()), num, digest)
      ensures maxSeq == if num > old(maxSeq) then num else old(maxSeq)
      ensures log == old(log)[num := Replica.LogEntry(view, Replica.PRE_PREPARED, digest)]
    {
      maxSeq := if num > maxSeq then num else maxSeq;
      log := log[num := Replica.LogEntry(view, Replica.PRE_PREPARED, digest)];
    }

    method UpdateLog(num: nat, stage: nat)
      modifies this`log
      ensures State() == Replica.UpdateLog(old(State()), num, stage)
      ensures log == if num in old(log) && old(log)[num].stage < stage
                     then old(log)[num := old(log)[num].(stage := stage)] else old(log)
    {
      if num in log && log[num].stage < stage {
        log := log[num := log[num].(stage := stage)];
      }
    }

    method SavePrePrepare(num: nat, pp: PrePrepare)
      requires num == pp.num
      modifies this`prePrepares
      ensures State() == Replica.SavePrePrepare(old(State()), pp)
      ensures prePrepares == old(prePrepares)[num := pp]
    {
      prePrepares := prePrepares[num := pp];
    }

    method CheckPrePrepare(num: int) returns (ok: bool)
      ensures ok <==> num in prePrepares
    {
      ok := num in prePrepares;
    }

    method SaveToDatastore(num: nat, st: Status)
      requires Valid() && num in log
      modifies this`datastore, this`datastoreMax
      ensures Valid() && State() == Replica.Save(old(State()), num, st)
      ensures datastore == old(datastore)[num := Entry(log[num].digest.t, st)]
      ensures datastoreMax == if num > old(datastoreMax) then num else old(datastoreMax)
    {
      datastore := datastore[num := Entry(log[num].digest.t, st)];
      datastoreMax := if num > datastoreMax then num else datastoreMax;
    }

    /** The stored entries in the order of their numbers. */
    method AllStored() returns (blocks: seq<(nat, Entry)>)
      requires Valid()
      ensures forall k | 0 <= k < |blocks| :: blocks[k].0 in datastore && blocks[k].1 == datastore[blocks[k].0]
      ensures forall j, k | 0 <= j < k < |blocks| :: blocks[j].0 < blocks[k].0
      ensures forall n | n in datastore && n >= 1 :: (n, datastore[n]) in blocks
    {
      blocks := [];
      var i := 1;
      while i <= datastoreMax
        invariant 1 <= i <= datastoreMax + 1
        invariant forall k | 0 <= k < |blocks| ::
                  blocks[k].0 in datastore && blocks[k].1 == datastore[blocks[k].0] && blocks[k].0 < i
        invariant forall j, k | 0 <= j < k < |blocks| :: blocks[j].0 < blocks[k].0
        invariant forall n | n in datastore && 1 <= n < i :: (n, datastore[n]) in blocks
      {
        if i in datastore {
          blocks := blocks + [(i, datastore[i])];
        }
        i := i + 1;
      }
    }

    /***** Handling a client's request at the leader *****/

    function Leader(): nat
      reads this
      requires view >= 1
    {
      (view - 1) % (3 * f + 1)
    }

    /** The leader handles a request of the client under the number it is logged with, 0 if it is new;
        the others forward it to the leader. No request is ever marked as executed. */
    method Admit(t: nat, clientVerified: bool) returns (r: Admission)
      requires Valid()
      ensures r.Ignored? <==> !live || changing || !clientVerified
      ensures r.Forward? ==> r.leader == Consensus.Setup(f, {}).Leader(view) != id
      ensures r.Handle? ==> id == Consensus.Setup(f, {}).Leader(view)
      ensures r.Handle? ==> r.oldSeq == if t in requestLog then requestLog[t] else 0
      ensures live && !changing && clientVerified ==>
                if (view - 1) % (3 * f + 1) == id then r == Handle(if t in requestLog then requestLog[t] else 0)
                else r == Forward((view - 1) % (3 * f + 1))
    {
      if !live || changing {
        return Ignored;
      }
      if !clientVerified {
        return Ignored;
      }
      if Leader() != id {
        return Forward(Leader());
      }
      return Handle(if t in requestLog then requestLog[t] else 0);
    }

    /** One attempt to get past the locks and the balance check. Only a first-phase run looks at them: a
        commit or an abort goes on at once, since the locks are those of its own request. */
    method TryLocks(t: nat, st: Status) returns (r: LockOutcome)
      requires t < |txs|
      modifies db`locks
      ensures st == C || st == A ==> r.Ready? && db.Contents() == old(db.Contents())
      ensures st == Plain || st == P ==>
                && (r.Busy? <==> txs[t].from in old(db.locks) || txs[t].to in old(db.locks))
                && (r.Refused? <==> txs[t].from !in old(db.locks) && txs[t].to !in old(db.locks)
                                    && txs[t].clusterFrom == cluster
                                    && (txs[t].from in db.balances ==> db.balances[txs[t].from] < txs[t].amount))
                && (r.Ready? ==> db.Contents() == Acquire(old(db.Contents()), txs[t])
                                 && db.locks == old(db.locks) + {txs[t].from, txs[t].to})
      ensures !r.Ready? ==> db.Contents() == old(db.Contents())
      ensures r.Refused? ==> db.Contents() == Release(Acquire(old(db.Contents()), txs[t]), txs[t])
    {
      if st == Plain || st == P {
        var ok := db.CheckAndGetLocks(txs[t], false);
        if !ok {
          return Busy;
        }
        if txs[t].clusterFrom == cluster {
          var balance := db.GetBalance(txs[t].from);
          if balance.None? || balance.value < txs[t].amount {
            db.ReleaseBoth(txs[t]);
            return Refused;
          }
        }
      }
      return Ready;
    }

    /** Gives the request its number, a new one or the one it had, and returns the pre-prepare to send. */
    method Number(t: nat, st: Status, oldSeq: nat) returns (pp: PrePrepare)
      requires Valid() && t < |txs| && next >= 1
      requires oldSeq != 0 ==>
                oldSeq in log && prePrepares[oldSeq].num == oldSeq && prePrepares[oldSeq].digest == log[oldSeq].digest
      modifies this`next, this`log, this`maxSeq, this`prePrepares, this`requestLog
      ensures Valid()
      ensures oldSeq == 0 ==>
                pp == Replica.Proposal(old(State()), Of(t), st) && State() == Replica.Propose(old(State()), Of(t), st)
      ensures oldSeq != 0 ==>
                pp == old(prePrepares)[oldSeq]
                && State() == Replica.WriteLog(old(State()), oldSeq, old(log)[oldSeq].digest)
      ensures requestLog == old(requestLog)[t := pp.num]
      ensures pp == if oldSeq == 0 then PrePrepare(view, old(next), Of(t), st) else old(prePrepares)[oldSeq]
      ensures next == old(next) + if oldSeq == 0 then 1 else 0
      ensures log == old(log)[pp.num := Replica.LogEntry(view, Replica.PRE_PREPARED, pp.digest)]
      ensures prePrepares == old(prePrepares)[pp.num := pp]
    {
      if oldSeq == 0 {
        pp := PrePrepare(view, next, Of(t), st);
        next := next + 1;
      } else {
        pp := prePrepares[oldSeq];
      }
      requestLog := requestLog[t := pp.num];
      WriteLog(pp.num, pp.digest);
      SavePrePrepare(pp.num, pp);
    }

    /***** Handling a pre-prepare at a backup *****/

    method CheckMessage(m: PrePrepareMsg) returns (v: Verdict)
      modifies this`requestLog
      ensures v.Passed? <==> live && m.pp.digest == Of(m.t) && m.clientVerified && m.leaderVerified
                             && Replica.CanAccept(State(), m.pp)
      ensures v.Passed? <==> live && !changing && m.pp.view == view
                             && (m.pp.num == 1 || m.pp.num - 1 in prePrepares)
                             && !(m.pp.num in log && log[m.pp.num].view == view
                                  && log[m.pp.num].digest != m.pp.digest)
                             && m.pp.digest == Of(m.t) && m.clientVerified && m.leaderVerified
      ensures match v
              case ChangingView => changing
              case NotLive => !live
              case WrongView => view != m.pp.view
              case Gap => m.pp.num != 1 && m.pp.num - 1 !in prePrepares
              case OtherDigest => m.pp.num in log && log[m.pp.num].view == m.pp.view
                  && log[m.pp.num].digest != m.pp.digest
              case WrongDigest => m.pp.digest != Of(m.t)
              case BadSignature => !m.clientVerified || !m.leaderVerified
              case Passed => true
      ensures requestLog == if v.Passed? && m.t !in old(requestLog) then old(requestLog)[m.t := m.pp.num]
              else old(requestLog)
    {
      if changing {
        return ChangingView;
      }
      if !live {
        return NotLive;
      }
      if view != m.pp.view {
        return WrongView;
      }
      if m.pp.num != 1 {
        var ok := CheckPrePrepare(m.pp.num - 1);
        if !ok {
          return Gap;
        }
      }
      if m.pp.num in log && log[m.pp.num].view == m.pp.view && log[m.pp.num].digest != m.pp.digest {
        return OtherDigest;
      }
      if m.pp.digest != Of(m.t) {
        return WrongDigest;
      }
      if !m.clientVerified || !m.leaderVerified {
        return BadSignature;
      }
      if m.t !in requestLog {
        requestLog := requestLog[m.t := m.pp.num];
      }
      return Passed;
    }

    /** One attempt to take the locks, for a first-phase run, and accept a message that has passed; the vote
        is what the node sends to the leader. */
    method AcceptMessage(m: PrePrepareMsg) returns (vote: Option<Vote>)
      requires Valid() && m.t < |txs| && m.pp.digest == Of(m.t) && m.pp.num >= 1
      modifies this`log, this`maxSeq, this`prePrepares, db`locks
      ensures Valid()
      ensures vote.None? ==> State() == old(State()) && db.Contents() == old(db.Contents())
      ensures vote.Some? ==> State() == Replica.Accept(old(State()), m.pp)
      ensures vote.Some? ==> vote.value == Vote(m.pp.view, m.pp.num, if byzantine then Null else m.pp.digest, id)
      ensures m.pp.st == C || m.pp.st == A ==> vote.Some? && db.Contents() == old(db.Contents())
      ensures m.pp.st == Plain || m.pp.st == P ==>
                && (vote.Some? <==> txs[m.t].from !in old(db.locks) && txs[m.t].to !in old(db.locks))
                && (db.locks == old(db.locks)
                                + if vote.Some? && !byzantine then {txs[m.t].from, txs[m.t].to} else {})
                && db.Contents() == if vote.Some? && !byzantine then Acquire(old(db.Contents()), txs[m.t])
                                    else old(db.Contents())
      ensures vote.Some? ==> log == old(log)[m.pp.num := Replica.LogEntry(view, Replica.PRE_PREPARED, m.pp.digest)]
                             && prePrepares == old(prePrepares)[m.pp.num := m.pp]
      ensures vote.None? ==> log == old(log) && prePrepares == old(prePrepares)
    {
      if m.pp.st == Plain || m.pp.st == P {
        var ok := db.CheckAndGetLocks(txs[m.t], byzantine);
        if !ok {
          return None;
        }
      }
      WriteLog(m.pp.num, m.pp.digest);
      SavePrePrepare(m.pp.num, m.pp);
      return Some(Vote(m.pp.view, m.pp.num, if byzantine then Null else m.pp.digest, id));
    }

    /***** Certificates *****/

    /** The prepares that count are verified ones for the digest of the log. */
    method ValidPrepareCerts(num: nat, prepares: seq<Signed>) returns (certs: seq<Signed>)
      ensures certs == if num in log then Matching(prepares, log[num].digest) else []
    {
      certs := [];
      if num !in log {
        return;
      }
      var i := 0;
      while i < |prepares|
        invariant 0 <= i <= |prepares|
        invariant certs == Matching(prepares[..i], log[num].digest)
      {
        if prepares[i].verified && log[num].digest == prepares[i].vote.digest {
          certs := certs + [prepares[i]];
        }
        i := i + 1;
        assert prepares[..i][..i - 1] == prepares[..i - 1];
      }
      assert prepares[..i] == prepares;
    }

    /** The commits count only once the entry is prepared. */
    method ValidCommitCerts(num: nat, commits: seq<Signed>) returns (certs: seq<Signed>)
      ensures certs == if num in log && log[num].stage >= Replica.PREPARED
                       then Matching(commits, log[num].digest) else []
    {
      certs := [];
      if num !in log {
        return;
      }
      var i := 0;
      while i < |commits|
        invariant 0 <= i <= |commits|
        invariant certs == if log[num].stage >= Replica.PREPARED then Matching(commits[..i], log[num].digest) else []
      {
        if commits[i].verified && log[num].stage >= Replica.PREPARED && log[num].digest == commits[i].vote.digest {
          certs := certs + [commits[i]];
        }
        i := i + 1;
        assert commits[..i][..i - 1] == commits[..i - 1];
      }
      assert commits[..i] == commits;
    }

    method ValidatePrepares(num: nat, prepares: seq<Signed>) returns (ok: bool)
      requires Valid()
      modifies this`log, this`prepareCerts
      ensures Valid()
      ensures var counted := if num in old(log) then Matching(prepares, old(log)[num].digest) else [];
              && (ok <==> |counted| >= 2 * f)
              && prepareCerts == if ok then old(prepareCerts)[num := counted] else old(prepareCerts)
      ensures State() == if ok && !byzantine then Replica.UpdateLog(old(State()), num, Replica.PREPARED)
              else old(State())
    {
      var certs := ValidPrepareCerts(num, prepares);
      ok := |certs| >= 2 * f;
      if ok {
        if !byzantine {
          UpdateLog(num, Replica.PREPARED);
        }
        prepareCerts := prepareCerts[num := certs];
      }
    }

    method ValidateCommits(num: nat, commits: seq<Signed>, st: Status, t: nat) returns (ok: bool)
      requires Valid() && t < |txs|
      modifies this`log, this`commitCerts, this`datastore, this`datastoreMax, db`wal
      ensures Valid()
      ensures ok <==> num in old(log) && old(log)[num].stage >= Replica.PREPARED
                      && |Matching(commits, old(log)[num].digest)| >= 2 * f + 1
      ensures commitCerts == if ok then old(commitCerts)[num := Matching(commits, old(log)[num].digest)]
                             else old(commitCerts)
      ensures ok ==> var kept := Consensus.Keep(old(State()), num, VotesOf(commitCerts[num]));
                     State() == if byzantine then kept else Replica.Commit(kept, num, st)
      ensures !ok ==> State() == old(State())
      ensures db.Contents() == if ok && !byzantine then Logged(old(db.Contents()), txs[t], st) else old(db.Contents())
    {
      var certs := ValidCommitCerts(num, commits);
      ok := |certs| >= 2 * f + 1;
      if ok {
        if !byzantine {
          StoreCommitted(num, st, t);
        }
        Kept(commitCerts, num, certs);
        commitCerts := commitCerts[num := certs];
      }
    }

    /** A prepare is in the write-ahead log before its entry is in the datastore, where the executor
        can find it. */
    method StoreCommitted(num: nat, st: Status, t: nat)
      requires Valid() && t < |txs| && num in log
      modifies this`log, this`datastore, this`datastoreMax, db`wal
      ensures Valid() && num in log
      ensures State() == Replica.Commit(old(State()), num, st)
      ensures db.Contents() == Logged(old(db.Contents()), txs[t], st)
      ensures datastore == old(datastore)[num := Entry(old(log)[num].digest.t, st)]
      ensures log == old(log)[num := old(log)[num].(stage := if old(log)[num].stage < Replica.COMMITTED
                                                             then Replica.COMMITTED else old(log)[num].stage)]
      ensures db.wal == if st != P then old(db.wal)
                        else old(db.wal)[txs[t].clientSeq :=
                                           (if txs[t].clientSeq in old(db.wal) then old(db.wal)[txs[t].clientSeq]
                                            else []) + [txs[t]]]
    {
      UpdateLog(num, Replica.COMMITTED);
      if st == P {
        db.AppendToWal(txs[t].clientSeq, [txs[t]]);
      }
      SaveToDatastore(num, st);
    }

    /***** The leader's answers to votes *****/

    /** Whether the leader counts this vote: it is verified and for the digest of the log. */
    method VerifyVote(s: Signed) returns (ok: bool)
      requires Valid()
      ensures s.vote.num in log ==> (ok <==> s in Matching([s], log[s.vote.num].digest))
      ensures ok <==> s.verified && s.vote.digest == if s.vote.num in log then log[s.vote.num].digest else Null
    {
      var digest := if s.vote.num in log then log[s.vote.num].digest else Null;
      ok := s.verified && digest == s.vote.digest;
      MatchingIn([s], digest, s);
    }

    /** Once it has stopped waiting, the leader answers a prepare with the list it has collected, if
        that is long enough. */
    method HandOutPrepares(num: nat) returns (reply: Option<seq<Signed>>)
      ensures reply.Some? <==> live && !changing && !byzantine
                               && if num in prepareCerts then |prepareCerts[num]| >= 2 * f else f == 0
      ensures reply.Some? ==> reply.value == if num in prepareCerts then prepareCerts[num] else []
    {
      var certs := if num in prepareCerts then prepareCerts[num] else [];
      if !live || changing || byzantine || |certs| < 2 * f {
        return None;
      }
      return Some(certs);
    }

    method HandOutCommits(num: nat) returns (reply: Option<seq<Signed>>)
      ensures reply.Some? <==> live && !changing && num in commitCerts && |commitCerts[num]| >= 2 * f + 1
      ensures reply.Some? ==> reply.value == commitCerts[num] && VotesOf(reply.value) == State().collected[num]
    {
      if !live || changing || num !in commitCerts || |commitCerts[num]| < 2 * f + 1 {
        return None;
      }
      return Some(commitCerts[num]);
    }

    /***** The rest of a run *****/

    /** Keeps the prepares, and of enough of them only those that count. */
    method TakePrepares(num: nat, prepares: seq<Signed>) returns (ok: bool)
      requires Valid()
      modifies this`log, this`prepareCerts
      ensures Valid()
      ensures var counted := if num in old(log) then Matching(prepares, old(log)[num].digest) else [];
              && (ok <==> |counted| >= 2 * f)
              && prepareCerts == old(prepareCerts)[num := if ok then counted else prepares]
      ensures State() == if ok && !byzantine then Replica.UpdateLog(old(State()), num, Replica.PREPARED)
              else old(State())
      ensures num in log <==> num in old(log)
      ensures num in log ==> log[num].digest == old(log)[num].digest
                             && (ok && !byzantine ==> log[num].stage >= Replica.PREPARED)
    {
      prepareCerts := prepareCerts[num := prepares];
      ok := ValidatePrepares(num, prepares);
    }

    /** A backup gets the leader's prepares; if they are enough it votes to commit. */
    method PrepareReply(num: nat, prepares: seq<Signed>) returns (vote: Option<Vote>)
      requires Valid()
      modifies this`log, this`prepareCerts
      ensures Valid()
      ensures var counted := if num in old(log) then Matching(prepares, old(log)[num].digest) else [];
              && (vote.Some? <==> num in old(log) && |counted| >= 2 * f)
              && prepareCerts == old(prepareCerts)[num := if |counted| >= 2 * f then counted else prepares]
      ensures vote.Some? ==> vote.value == Vote(view, num, if byzantine then Null else old(log)[num].digest, id)
      ensures State() == if vote.Some? && !byzantine then Replica.UpdateLog(old(State()), num, Replica.PREPARED)
              else old(State())
    {
      var prepared := TakePrepares(num, prepares);
      if prepared && num in log {
        return Some(Vote(view, num, if byzantine then Null else log[num].digest, id));
      }
      return None;
    }

    /** Takes over the commits of the leader, or those it has collected itself, and counts them. */
    method TakeCommits(num: nat, commits: seq<Signed>, st: Status, t: nat) returns (ok: bool)
      requires Valid() && t < |txs|
      modifies this`log, this`commitCerts, this`datastore, this`datastoreMax, db`wal
      ensures Valid()
      ensures ok <==> num in old(log) && old(log)[num].stage >= Replica.PREPARED
                      && |Matching(commits, old(log)[num].digest)| >= 2 * f + 1
      ensures commitCerts == old(commitCerts)[num := if ok then Matching(commits, old(log)[num].digest) else commits]
      ensures State() == var kept := Consensus.Keep(old(State()), num, VotesOf(commitCerts[num]));
                         if ok && !byzantine then Replica.Commit(kept, num, st) else kept
      ensures db.Contents() == if ok && !byzantine then Logged(old(db.Contents()), txs[t], st) else old(db.Contents())
    {
      Kept(commitCerts, num, commits);
      commitCerts := commitCerts[num := commits];
      ok := ValidateCommits(num, commits, st, t);
      KeepTwice(old(State()), num, VotesOf(commits), VotesOf(commitCerts[num]));
    }

    /** The leader's run from the moment its prepares have come in: it ends with the request committed,
        or with its locks released and nothing stored. A Byzantine leader does not mark the entry, so it
        counts the commits only if the entry was prepared before, and stores nothing. */
    method FinishRun(num: nat, t: nat, st: Status, prepares: seq<Signed>, commits: seq<Signed>) returns (ok: bool)
      requires Valid() && t < |txs|
      modifies this`log, this`prepareCerts, this`commitCerts, this`datastore, this`datastoreMax, db`wal, db`locks
      ensures Valid()
      ensures var counted := if num in old(log) then Matching(prepares, old(log)[num].digest) else [];
              && (ok <==> num in old(log) && |counted| >= 2 * f
                          && (byzantine ==> old(log)[num].stage >= Replica.PREPARED)
                          && |Matching(commits, old(log)[num].digest)| >= 2 * f + 1)
              && prepareCerts == old(prepareCerts)[num := if |counted| >= 2 * f then counted else prepares]
              && (|counted| < 2 * f ==> commitCerts == old(commitCerts))
              && (|counted| >= 2 * f ==>
                    commitCerts == old(commitCerts)[num := if ok then Matching(commits, old(log)[num].digest)
                                                           else commits])
              && (!byzantine && |counted| >= 2 * f ==>
                    State() == var kept := Consensus.Keep(Replica.UpdateLog(old(State()), num, Replica.PREPARED), num,
                                                          VotesOf(commitCerts[num]));
                               if ok then Replica.Commit(kept, num, st) else kept)
              && (!byzantine && |counted| < 2 * f ==> State() == old(State()))
      ensures byzantine ==> log == old(log) && datastore == old(datastore)
      ensures db.Contents() == if !ok then Release(old(db.Contents()), txs[t])
                               else if byzantine then old(db.Contents())
                               else Logged(old(db.Contents()), txs[t], st)
      ensures db.locks == if ok then old(db.locks) else old(db.locks) - {txs[t].from, txs[t].to}
    {
      var prepared := TakePrepares(num, prepares);
      ok := false;
      if prepared {
        ok := TakeCommits(num, commits, st, t);
      }
      if !ok {
        db.ReleaseBoth(txs[t]);
      }
    }

    /** The participant's check of a coordinator's prepare. */
    method ValidateCoordinator(t: nat, commits: seq<Signed>, clientVerified: bool) returns (ok: bool)
      ensures ok <==> clientVerified && |Matching(commits, Of(t))| >= 2 * f + 1
      ensures ok <==> clientVerified &&
                      |set i | 0 <= i < |commits| && commits[i].verified && commits[i].vote.digest == Of(t)|
                      >= 2 * f + 1
    {
      MatchingCounts(commits, Of(t));
      if !clientVerified {
        return false;
      }
      var cnt, i := 0, 0;
      while i < |commits|
        invariant 0 <= i <= |commits|
        invariant cnt == |Matching(commits[..i], Of(t))|
      {
        if commits[i].vote.digest == Of(t) && commits[i].verified {
          cnt := cnt + 1;
        }
        i := i + 1;
        assert commits[..i][..i - 1] == commits[..i - 1];
      }
      assert commits[..i] == commits;
      return cnt >= 2 * f + 1;
    }

    /** The coordinator's commit message. */
    method ReceiveCommit(t: nat)
      requires t < |txs|
      modifies this`pcCommits
      ensures pcCommits == old(pcCommits) + {txs[t].clientSeq}
    {
      pcCommits := pcCommits + {txs[t].clientSeq};
    }

    /** The participant acknowledges a prepare it has checked and whose run has succeeded. When the run
        has failed it aborts by itself, unless the coordinator's commit comes in while it waits. */
    method AnswerPrepare(t: nat, checked: bool, ran: bool) returns (acknowledged: bool, abort: bool)
      requires t < |txs|
      ensures acknowledged <==> checked && ran
      ensures abort <==> checked && !ran && txs[t].clientSeq !in pcCommits
    {
      if !checked {
        return false, false;
      }
      if ran {
        return true, false;
      }
      abort := txs[t].clientSeq !in pcCommits;
      acknowledged := false;
    }

    /***** The executor *****/

    /** Applies the reverse of every logged transfer; a missing log changes nothing. */
    method UndoWal(clientSeq: int)
      modifies db`balances
      ensures db.balances == Undo(old(db.balances), WalOf(old(db.Contents()), clientSeq))
      ensures db.balances == Undo(old(db.balances), if clientSeq in db.wal then db.wal[clientSeq] else [])
    {
      var r := db.ReadWal(clientSeq);
      if r.Some? {
        var logs, i := r.value, 0;
        while i < |logs|
          invariant 0 <= i <= |logs|
          invariant Undo(db.balances, logs[i..]) == Undo(old(db.balances), logs)
        {
          assert logs[i..][1..] == logs[i + 1..];
          db.UpdateBalances(logs[i].Reverse());
          i := i + 1;
        }
      }
    }

    method ExecuteEntry(e: Entry)
      requires e.t < |txs|
      modifies this`executionCount, db
      ensures db.Contents() == Ledger.Execute(old(db.Contents()), txs[e.t], e.st)
      ensures executionCount == old(executionCount) + 1
      ensures db.wal == old(db.wal)
      ensures db.locks == if e.st == P then old(db.locks) else old(db.locks) - {txs[e.t].from, txs[e.t].to}
      ensures db.balances == match e.st
                             case Plain => Apply(old(db.balances), txs[e.t])
                             case P => Apply(old(db.balances), txs[e.t])
                             case C => old(db.balances)
                             case A => Undo(old(db.balances),
                                            if txs[e.t].clientSeq in db.wal then db.wal[txs[e.t].clientSeq] else [])
    {
      if e.st == Plain || e.st == P {
        db.UpdateBalances(txs[e.t]);
      } else if e.st == A {
        UndoWal(txs[e.t].clientSeq);
      }
      if e.st != P {
        db.ReleaseBoth(txs[e.t]);
      }
      executionCount := executionCount + 1;
    }

    /** Executes the next entry and notes it in the log, unless it is a prepare. */
    method ExecuteNext()
      requires Valid() && executorSeq in datastore
      modifies this`executorSeq, this`executionCount, this`log, db
      ensures Valid()
      ensures executorSeq == old(executorSeq) + 1 && executionCount == old(executionCount) + 1
      ensures db.Contents() == Ledger.Execute(old(db.Contents()), txs[datastore[old(executorSeq)].t],
                                              datastore[old(executorSeq)].st)
      ensures State() == if datastore[old(executorSeq)].st == P then old(State())
                         else Replica.UpdateLog(old(State()), old(executorSeq), Replica.EXECUTED)
      ensures log == if datastore[old(executorSeq)].st != P && old(executorSeq) in old(log)
                        && old(log)[old(executorSeq)].stage < Replica.EXECUTED
                     then old(log)[old(executorSeq) := old(log)[old(executorSeq)].(stage := Replica.EXECUTED)]
                     else old(log)
    {
      var e := datastore[executorSeq];
      ExecuteEntry(e);
      if e.st != P {
        UpdateLog(executorSeq, Replica.EXECUTED);
      }
      executorSeq := executorSeq + 1;
    }

    /** Executes stored entries in the order of their numbers up to the first one that is missing. */
    method Executor()
      requires Valid()
      modifies this`executorSeq, this`executionCount, this`log, db
      ensures Valid()
      ensures executorSeq >= old(executorSeq) && executorSeq !in datastore
      ensures forall n | old(executorSeq) <= n < executorSeq :: n in datastore
      ensures db.Contents() == Executed(txs, datastore, old(db.Contents()), old(executorSeq), executorSeq)
      ensures executionCount == old(executionCount) + executorSeq - old(executorSeq)
      ensures forall n :: n in log <==> n in old(log)
      ensures forall n | n in log ::
                log[n] == if old(executorSeq) <= n < executorSeq && datastore[n].st != P
                             && old(log)[n].stage < Replica.EXECUTED
                          then old(log)[n].(stage := Replica.EXECUTED) else old(log)[n]
    {
      while executorSeq in datastore
        invariant Valid() && old(executorSeq) <= executorSeq
        invariant forall n | old(executorSeq) <= n < executorSeq :: n in datastore
        invariant db.Contents() == Executed(txs, datastore, old(db.Contents()), old(executorSeq), executorSeq)
        invariant executionCount == old(executionCount) + executorSeq - old(executorSeq)
        invariant forall n :: n in log <==> n in old(log)
        invariant forall n | n in log ::
                    log[n] == if old(executorSeq) <= n < executorSeq && datastore[n].st != P
                                 && old(log)[n].stage < Replica.EXECUTED
                              then old(log)[n].(stage := Replica.EXECUTED) else old(log)[n]
        decreases datastoreMax + 1 - executorSeq
      {
        ExecuteNext();
      }
    }

    /***** Changing views *****/

    /** Stops taking part in the view and reports what is prepared, in the order of the numbers. */
    method SendViewChange(v: nat) returns (change: Option<SignedChange>)
      requires Valid()
      modifies this`changing, this`newView, this`viewChangeCerts
      ensures Valid()
      ensures change.Some? <==> live && v > view && !(old(changing) && old(newView) >= v)
      ensures changing == (old(changing) || change.Some?) && newView == if change.Some? then v else old(newView)
      ensures change.Some? <==> live && Replica.CanStartView(old(State()), v)
      ensures State() == if change.Some? then Replica.StartView(old(State()), v) else old(State())
      ensures change.Some? ==>
                && ChangeOf(change.value) == ViewChange(v, id, Replica.PreparedOf(old(State())))
                && (forall j, k | 0 <= j < k < |change.value.prepared| ::
                      change.value.prepared[j].num < change.value.prepared[k].num)
      ensures change.Some? ==>
                && change.value.view == v && change.value.node == id && change.value.verified
                && forall r :: r in change.value.prepared <==>
                               r.num in log && log[r.num].stage >= Replica.PREPARED
                               && r.digest == prePrepares[r.num].digest
      ensures viewChangeCerts ==
              if change.None? then old(viewChangeCerts)
              else old(viewChangeCerts)[v := (if v in old(viewChangeCerts) then old(viewChangeCerts)[v] else [])
                                             + [change.value]]
    {
      if !live || v <= view || (changing && newView >= v) {
        return None;
      }
      changing, newView := true, v;
      var prepared := Reports();
      var signed := SignedChange(v, id, prepared, true);
      var before := if v in viewChangeCerts then viewChangeCerts[v] else [];
      viewChangeCerts := viewChangeCerts[v := before + [signed]];
      return Some(signed);
    }

    /** Everything that is prepared, in the order of the numbers. */
    method Reports() returns (prepared: seq<Report>)
      requires Valid()
      ensures PreparedMap(prepared) == Replica.PreparedOf(State())
      ensures forall j, k | 0 <= j < k < |prepared| :: prepared[j].num < prepared[k].num
      ensures forall r :: r in prepared <==> r.num in log && log[r.num].stage >= Replica.PREPARED
                                             && r.digest == prePrepares[r.num].digest
    {
      prepared := [];
      var i := 1;
      while i <= maxSeq
        invariant 1 <= i <= maxSeq + 1
        invariant forall k | 0 <= k < |prepared| :: ReportOk(prepared[k]) && prepared[k].num < i
        invariant forall j, k | 0 <= j < k < |prepared| :: prepared[j].num < prepared[k].num
        invariant forall n | n in log && n < i && log[n].stage >= Replica.PREPARED ::
                  Report(n, prePrepares[n].digest) in prepared
      {
        if i in log && log[i].stage >= Replica.PREPARED {
          prepared := prepared + [Report(i, prePrepares[i].digest)];
        }
        i := i + 1;
      }
      AllReported(prepared);
    }

    ghost predicate ReportOk(r: Report)
      reads this
    {
      r.num in log && log[r.num].stage >= Replica.PREPARED && r.num in prePrepares
          && r.digest == prePrepares[r.num].digest
    }

    lemma AllReported(prepared: seq<Report>)
      requires Valid()
      requires forall r | r in prepared :: ReportOk(r)
      requires forall n | n in log && log[n].stage >= Replica.PREPARED :: Report(n, prePrepares[n].digest) in prepared
      ensures PreparedMap(prepared) == Replica.PreparedOf(State())
    {
      forall n ensures n in PreparedMap(prepared) <==> n in Replica.PreparedOf(State()) {
      }
      forall n | n in PreparedMap(prepared) ensures PreparedMap(prepared)[n] == Replica.PreparedOf(State())[n] {
        FirstReport(prepared, n);
      }
    }

    /** The executor, too, goes back to where the new view starts. */
    method EnterView(v: nat, start: nat)
      requires Valid() && v >= 1
      modifies this`view, this`next, this`changing, this`executorSeq
      ensures Valid() && State() == Replica.AdoptView(old(State()), v, start)
      ensures view == v && next == start && !changing && executorSeq == 1
    {
      changing := false;
      view := v;
      next := start;
      executorSeq := 1;
    }

    /** The new leader's part: it adopts the view and starts above everything reported. */
    method SendNewView(v: nat, certs: seq<SignedChange>) returns (m: Option<NewViewMsg>)
      requires Valid() && v >= 1
      modifies this`view, this`next, this`changing, this`newViewsSent, this`executorSeq
      ensures m.Some? <==> live && !byzantine && v !in old(newViewsSent)
      ensures m.Some? ==> m.value.view == v && m.value.certs == certs && m.value.verified
      ensures m.Some? ==> IsList(v, Flatten(certs), m.value.prepared)
      ensures m.Some? ==>
                (forall i, j, k, l {:trigger certs[i].prepared[j].digest, certs[k].prepared[l].digest} |
                   && 0 <= i < |certs| && 0 <= j < |certs[i].prepared|
                   && 0 <= k < |certs| && 0 <= l < |certs[k].prepared|
                   && certs[i].prepared[j].num == certs[k].prepared[l].num ::
                   certs[i].prepared[j].digest == certs[k].prepared[l].digest) ==>
                  forall i, j {:trigger certs[i].prepared[j].digest} |
                    0 <= i < |certs| && 0 <= j < |certs[i].prepared| ::
                    PrePrepare(v, certs[i].prepared[j].num, certs[i].prepared[j].digest, Plain) in m.value.prepared
      ensures newViewsSent == old(newViewsSent) + if m.Some? then {v} else {}
      ensures m.Some? ==> view == v && !changing && executorSeq == 1
                          && next == if m.value.prepared == [] then 1
                                     else m.value.prepared[|m.value.prepared| - 1].num + 1
      ensures m.None? ==> executorSeq == old(executorSeq)
      ensures Valid()
      ensures m.Some? ==>
                next == NextAfter(m.value.prepared) == Consensus.NextOf(NewViewOf(v, id, certs, m.value.prepared))
      ensures State() == if m.Some? then Replica.AdoptView(old(State()), v, next) else old(State())
    {
      if !live || byzantine || v in newViewsSent {
        return None;
      }
      newViewsSent := newViewsSent + {v};
      var list, start := Start(v, id, certs);
      EnterView(v, start);
      return Some(NewViewMsg(v, certs, list, true));
    }

    method ValidateChanges(certs: seq<SignedChange>) returns (ok: bool)
      ensures ok <==> |set i | 0 <= i < |certs| && certs[i].verified| >= 2 * f + 1
    {
      VerifiedCounts(certs);
      var valid, i := 0, 0;
      while i < |certs|
        invariant 0 <= i <= |certs|
        invariant valid == |Verified(certs[..i])|
      {
        if certs[i].verified {
          valid := valid + 1;
        }
        i := i + 1;
        assert certs[..i][..i - 1] == certs[..i - 1];
      }
      assert certs[..i] == certs;
      return valid >= 2 * f + 1;
    }

    /** The other replicas' part: whatever their own number was, they start where the list ends. */
    method ReceiveNewView(m: NewViewMsg) returns (ok: bool)
      requires Valid() && m.view >= 1
      modifies this`view, this`next, this`changing, this`executorSeq
      ensures Valid()
      ensures ok <==> m.verified && |set i | 0 <= i < |m.certs| && m.certs[i].verified| >= 2 * f + 1
      ensures ok ==> view == m.view && !changing && executorSeq == 1
                     && next == if m.prepared == [] then 1 else m.prepared[|m.prepared| - 1].num + 1
      ensures !ok ==> executorSeq == old(executorSeq)
      ensures State() == if ok then Replica.AdoptView(old(State()), m.view, NextAfter(m.prepared)) else old(State())
    {
      if !m.verified {
        return false;
      }
      ok := ValidateChanges(m.certs);
      if !ok {
        return;
      }
      var i := 0;
      while i < |m.prepared|
        invariant 0 <= i <= |m.prepared|
        invariant Valid() && State() == old(State()).(next := next)
      {
        next := if m.prepared[i].num + 1 > next then m.prepared[i].num + 1 else next;
        i := i + 1;
      }
      if |m.prepared| > 0 {
        EnterView(m.view, m.prepared[|m.prepared| - 1].num + 1);
      } else {
        EnterView(m.view, 1);
      }
    }

    /** Keeps a view change with a right signature; joins it once f+1 replicas want it, and, as the
        designated sender, starts the new view once 2f+1 do. */
    method ReceiveViewChange(c: SignedChange) returns (joined: Option<SignedChange>, start: bool)
      requires Valid()
      modifies this`changing, this`newView, this`viewChangeCerts
      ensures Valid()
      ensures var count := |if c.view in old(viewChangeCerts) then old(viewChangeCerts)[c.view] else []| + 1;
              && (joined.Some? <==> c.verified && live && c.view > view && !(old(changing) && old(newView) >= c.view)
                                    && count == f + 1)
              && (start <==> c.verified && c.view > view && count >= 2 * f + 1 && (view - 1) % (3 * f + 1) == id)
      ensures State() == if joined.Some? then Replica.StartView(old(State()), c.view) else old(State())
      ensures joined.Some? ==> ChangeOf(joined.value) == ViewChange(c.view, id, Replica.PreparedOf(old(State())))
      ensures var before := if c.view in old(viewChangeCerts) then old(viewChangeCerts)[c.view] else [];
              viewChangeCerts == if !c.verified then old(viewChangeCerts)
                                 else old(viewChangeCerts)[c.view := before + [c] + if joined.Some? then [joined.value]
                                                                                    else []]
    {
      joined, start := None, false;
      if !c.verified {
        return;
      }
      var before := if c.view in viewChangeCerts then viewChangeCerts[c.view] else [];
      var certs := before + [c];
      viewChangeCerts := viewChangeCerts[c.view := certs];
      if view < c.view && |certs| == f + 1 {
        joined := SendViewChange(c.view);
      }
      ghost var kept := before + [c] + if joined.Some? then [joined.value] else [];
      assert viewChangeCerts == old(viewChangeCerts)[c.view := kept] by {
        assert joined.None? ==> kept == certs;
        assert old(viewChangeCerts)[c.view := certs][c.view := kept] == old(viewChangeCerts)[c.view := kept];
      }
      start := c.view > view && |certs| >= 2 * f + 1 && Leader() == id;
    }
  }

  /** The view changes with a right signature. */
  function Verified(certs: seq<SignedChange>): seq<SignedChange> {
    if certs == [] then []
    else
      var last := certs[|certs| - 1];
      Verified(certs[..|certs| - 1]) + (if last.verified then [last] else [])
  }

  lemma {:induction false} VerifiedHolds(certs: seq<SignedChange>, c: SignedChange)
    ensures c in Verified(certs) <==> c in certs && c.verified
  {
    if certs != [] {
      var init, last := certs[..|certs| - 1], certs[|certs| - 1];
      VerifiedHolds(init, c);
      assert certs == init + [last];
    }
  }

  lemma {:induction false} VerifiedCounts(certs: seq<SignedChange>)
    ensures |Verified(certs)| == |set i | 0 <= i < |certs| && certs[i].verified|
  {
    if certs != [] {
      var init, last := certs[..|certs| - 1], certs[|certs| - 1];
      VerifiedCounts(init);
      var before := set i | 0 <= i < |init| && init[i].verified;
      var all := set i | 0 <= i < |certs| && certs[i].verified;
      if last.verified {
        assert all == before + {|init|};
      } else {
        assert all == before;
      }
    }
  }

  /** The database after executing the stored entries lo..hi-1 one after the other. */
  ghost function Executed(txs: seq<Transfer>, store: map<nat, Entry>, db: Db, lo: nat, hi: nat): Db {
    if hi <= lo then db
    else
      var before := Executed(txs, store, db, lo, hi - 1);
      if hi - 1 in store && store[hi - 1].t < |txs| then Ledger.Execute(before, txs[store[hi - 1].t], store[hi - 1].st)
          else before
  }
}

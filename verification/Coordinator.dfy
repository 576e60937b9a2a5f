/** The handler of a cross-shard request at the coordinator's leader: a sequence of runs and calls
    that branches on their outcomes. The outcomes are parameters; the handler's trace is proved to
    take only steps that the two-phase commit allows. */
module Coordinators {
  import opened Transfers
  import Cluster

  /** How the runs and calls of one handler end: its prepare run, the participant's answer, its second
      run, and the answers to its commit messages in the order in which they are sent. */
  datatype Outcomes = Outcomes(prepared: bool, acknowledged: bool, decided: bool, answers: seq<bool>)

  datatype Effect = Ran(st: Status, ok: bool) | Asked(ok: bool) | Replied | ErasedWal | SentCommit(ok: bool)

  /** The last run before position `k`, if any. */
  function LastRun(trace: seq<Effect>, k: nat): Effect
    requires k <= |trace|
  {
    if k == 0 then Asked(false)
    else if trace[k - 1].Ran? then trace[k - 1]
    else LastRun(trace, k - 1)
  }

  /** The step at position `k` is one the coordinator may take there: it starts a second-phase run as
      its machine allows after the run before, commits only after the participant has acknowledged and
      aborts only after it has not, and lets its log and the participant know only after its own
      commit. */
  ghost predicate Allowed(tx: Transfer, trace: seq<Effect>, k: nat)
    requires k < |trace|
  {
    var before := LastRun(trace, k);
    match trace[k]
    case Ran(st, _) =>
      if k == 0 then st == tx.FirstStatus()
      else
        && before.Ran? && Cluster.MayStart(tx, tx.clusterFrom, Cluster.Done(before.st, k, before.ok), st)
        && Asked(st == C) in trace[..k] && Asked(st != C) !in trace[..k]
    case Asked(_) => before == Ran(P, true)
    case Replied => before == Ran(C, true)
    case ErasedWal => before == Ran(C, true)
    case SentCommit(_) => before == Ran(C, true)
  }

  ghost predicate Legal(tx: Transfer, trace: seq<Effect>) {
    forall k | 0 <= k < |trace| :: Allowed(tx, trace, k)
  }

  lemma {:induction false} LastRunPrefix(trace: seq<Effect>, more: seq<Effect>, k: nat)
    requires k <= |trace|
    ensures LastRun(trace + more, k) == LastRun(trace, k)
  {
    if k > 0 {
      LastRunPrefix(trace, more, k - 1);
    }
  }

  lemma LegalNext(tx: Transfer, trace: seq<Effect>, e: Effect)
    requires Legal(tx, trace) && Allowed(tx, trace + [e], |trace|)
    ensures Legal(tx, trace + [e])
  {
    forall k | 0 <= k < |trace + [e]| ensures Allowed(tx, trace + [e], k) {
      if k < |trace| {
        assert Allowed(tx, trace, k);
        LastRunPrefix(trace, [e], k);
        assert (trace + [e])[..k] == trace[..k];
      }
    }
  }

  /** The commit is sent until it is acknowledged. */
  function Resends(answers: seq<bool>): seq<Effect> {
    if answers == [] then []
    else if answers[0] then [SentCommit(true)]
    else [SentCommit(false)] + Resends(answers[1..])
  }

  /** One commit message is sent for every answer up to the first acknowledgement, and none after it. */
  lemma {:induction false} ResendsUntilAcknowledged(answers: seq<bool>, k: nat)
    requires k < |answers|
    ensures |Resends(answers)| <= |answers|
    ensures k < |Resends(answers)| <==> forall j | 0 <= j < k :: !answers[j]
    ensures k < |Resends(answers)| ==> Resends(answers)[k] == SentCommit(answers[k])
  {
    if answers[0] {
    } else if k == 0 {
      ResendsLength(answers);
    } else {
      ResendsUntilAcknowledged(answers[1..], k - 1);
      assert forall j | 1 <= j < k :: answers[j] == answers[1..][j - 1];
      assert (forall j | 0 <= j < k :: !answers[j]) <==> (forall j | 0 <= j < k - 1 :: !answers[1..][j]);
    }
  }

  lemma {:induction false} ResendsLength(answers: seq<bool>)
    ensures |Resends(answers)| <= |answers| && (answers != [] ==> Resends(answers) != [])
  {
    if answers != [] && !answers[0] {
      ResendsLength(answers[1..]);
    }
  }

  lemma ResendsCover(answers: seq<bool>, sent: seq<Effect>)
    requires sent == Resends(answers)
    ensures forall k | 0 <= k < |answers| && (forall j | 0 <= j < k :: !answers[j]) ::
              k < |sent| && sent[k] == SentCommit(answers[k])
  {
    forall k | 0 <= k < |answers| && (forall j | 0 <= j < k :: !answers[j])
      ensures k < |sent| && sent[k] == SentCommit(answers[k])
    {
      ResendsUntilAcknowledged(answers, k);
    }
  }

  lemma ResendsStop(answers: seq<bool>, sent: seq<Effect>)
    requires sent == Resends(answers)
    ensures |sent| <= |answers| && forall k | 0 <= k < |sent| :: sent[k] == SentCommit(answers[k])
    ensures forall k | 0 <= k < |sent| - 1 :: !answers[k]
  {
    ResendsLength(answers);
    forall k | 0 <= k < |sent| ensures sent[k] == SentCommit(answers[k]) {
      ResendsUntilAcknowledged(answers, k);
    }
    if sent != [] {
      ResendsUntilAcknowledged(answers, |sent| - 1);
    }
  }

  /** What follows the acknowledgement, or its absence. */
  function Decision(o: Outcomes): seq<Effect> {
    if !o.acknowledged then [Ran(A, o.decided)]
    else if !o.decided then [Ran(C, false)]
    else [Ran(C, true), Replied, ErasedWal] + Resends(o.answers)
  }

  /** After its commit the coordinator replies, erases its log and sends the commit for every answer up to the
      first acknowledgement. */
  lemma CommitIsTold(o: Outcomes, trace: seq<Effect>)
    requires trace == [Ran(P, true), Asked(o.acknowledged)] + Decision(o)
    ensures o.acknowledged && o.decided ==>
              && |trace| >= 5 && trace[..5] == [Ran(P, true), Asked(true), Ran(C, true), Replied, ErasedWal]
              && (forall k | 0 <= k < |o.answers| && (forall j | 0 <= j < k :: !o.answers[j]) ::
                    k < |trace[5..]| && trace[5..][k] == SentCommit(o.answers[k]))
              && |trace[5..]| <= |o.answers|
              && (forall k | 0 <= k < |trace[5..]| :: trace[5..][k] == SentCommit(o.answers[k]))
              && (forall k | 0 <= k < |trace[5..]| - 1 :: !o.answers[k])
  {
    if o.acknowledged && o.decided {
      assert trace[5..] == Resends(o.answers);
      ResendsCover(o.answers, trace[5..]);
      ResendsStop(o.answers, trace[5..]);
    }
  }

  method RunCrossShard(tx: Transfer, o: Outcomes) returns (trace: seq<Effect>)
    requires tx.Cross()
    ensures Legal(tx, trace)
    ensures trace == [Ran(P, o.prepared)] + if o.prepared then [Asked(o.acknowledged)] + Decision(o) else []
    ensures !o.prepared ==> trace == [Ran(P, false)]
    ensures o.prepared && !o.acknowledged ==> trace == [Ran(P, true), Asked(false), Ran(A, o.decided)]
    ensures o.prepared && o.acknowledged && !o.decided ==> trace == [Ran(P, true), Asked(true), Ran(C, false)]
    ensures o.prepared && o.acknowledged && o.decided ==>
              && |trace| >= 5 && trace[..5] == [Ran(P, true), Asked(true), Ran(C, true), Replied, ErasedWal]
              && (forall k | 0 <= k < |o.answers| && (forall j | 0 <= j < k :: !o.answers[j]) ::
                    k < |trace[5..]| && trace[5..][k] == SentCommit(o.answers[k]))
              && |trace[5..]| <= |o.answers|
              && (forall k | 0 <= k < |trace[5..]| :: trace[5..][k] == SentCommit(o.answers[k]))
              && (forall k | 0 <= k < |trace[5..]| - 1 :: !o.answers[k])
  {
    trace := [Ran(P, o.prepared)];
    assert Allowed(tx, trace, 0);
    if !o.prepared {
      return;
    }
    LegalNext(tx, trace, Asked(o.acknowledged));
    trace := trace + [Asked(o.acknowledged)];
    assert LastRun(trace, 2) == Ran(P, true) by {
      assert LastRun(trace, 1) == Ran(P, true);
    }
    trace := Decide(tx, o, trace);
    CommitIsTold(o, trace);
  }

  method Decide(tx: Transfer, o: Outcomes, asked: seq<Effect>) returns (trace: seq<Effect>)
    requires tx.Cross() && Legal(tx, asked) && asked == [Ran(P, true), Asked(o.acknowledged)]
             && LastRun(asked, 2) == Ran(P, true)
    ensures Legal(tx, trace) && trace == asked + Decision(o)
  {
    var e := Ran(if o.acknowledged then C else A, o.decided);
    LastRunPrefix(asked, [e], 2);
    assert (asked + [e])[..2] == asked;
    LegalNext(tx, asked, e);
    trace := asked + [e];
    assert LastRun(trace, 3) == e;
    if o.acknowledged && o.decided {
      trace := Extend(tx, trace, Replied);
      trace := Extend(tx, trace, ErasedWal);
      assert trace == asked + [Ran(C, true), Replied, ErasedWal];
      trace := SendCommits(tx, trace, o.answers);
      assert trace == asked + Decision(o);
    } else {
      assert Decision(o) == [e];
    }
  }

  /** Sends the commit again as long as the answer is an error. */
  method SendCommits(tx: Transfer, before: seq<Effect>, answers: seq<bool>) returns (trace: seq<Effect>)
    requires Legal(tx, before) && LastRun(before, |before|) == Ran(C, true)
    ensures Legal(tx, trace) && trace == before + Resends(answers)
  {
    trace := before;
    var i := 0;
    var acknowledged := false;
    while !acknowledged && i < |answers|
      invariant 0 <= i <= |answers|
      invariant Legal(tx, trace) && LastRun(trace, |trace|) == Ran(C, true)
      invariant before + Resends(answers) == trace + if acknowledged then [] else Resends(answers[i..])
    {
      acknowledged := answers[i];
      assert answers[i..][1..] == answers[i + 1..];
      trace := Extend(tx, trace, SentCommit(acknowledged));
      i := i + 1;
    }
    assert acknowledged || answers[i..] == [];
  }

  method Extend(tx: Transfer, trace: seq<Effect>, e: Effect) returns (longer: seq<Effect>)
    requires Legal(tx, trace) && LastRun(trace, |trace|) == Ran(C, true)
             && (e.Replied? || e.ErasedWal? || e.SentCommit?)
    ensures longer == trace + [e] && Legal(tx, longer) && LastRun(longer, |longer|) == Ran(C, true)
  {
    LastRunPrefix(trace, [e], |trace|);
    LegalNext(tx, trace, e);
    longer := trace + [e];
  }

  /** The handler never runs both decisions, and tells the participant to commit only after its own
      prepare, the participant's and its own commit have all succeeded. */
  lemma LegalMeansAtomic(tx: Transfer, trace: seq<Effect>, k: nat, ok: bool)
    requires Legal(tx, trace) && k < |trace| && trace[k] == SentCommit(ok)
    ensures Ran(C, true) in trace && Asked(true) in trace && Ran(P, true) in trace && forall r :: Ran(A, r) !in trace
  {
    assert Allowed(tx, trace, k);
    var i := LastRunAt(trace, k);
    assert Allowed(tx, trace, i);
    var j := LastRunAt(trace, i);
    assert Allowed(tx, trace, j);
    assert trace[j] == Ran(P, true);
    forall m | 0 <= m < |trace| ensures !(trace[m].Ran? && trace[m].st == A) {
      assert Allowed(tx, trace, m);
      if trace[m].Ran? && trace[m].st == A {
        OneAnswer(tx, trace, i, m);
      }
    }
  }

  lemma {:induction false} LastRunAt(trace: seq<Effect>, k: nat) returns (i: nat)
    requires k <= |trace| && LastRun(trace, k).Ran?
    ensures i < k && trace[i] == LastRun(trace, k)
    ensures forall j | i < j < k :: !trace[j].Ran?
  {
    if trace[k - 1].Ran? {
      i := k - 1;
    } else {
      i := LastRunAt(trace, k - 1);
    }
  }

  /** A legal trace has one second-phase run at most, so both decisions cannot be in it. */
  lemma OneAnswer(tx: Transfer, trace: seq<Effect>, i: nat, m: nat)
    requires Legal(tx, trace) && i < |trace| && m < |trace| && i != m
    requires trace[i].Ran? && trace[i].st == C
    ensures !(trace[m].Ran? && trace[m].st == A)
  {
    assert Allowed(tx, trace, i) && Allowed(tx, trace, m);
  }
}

/** Lists of signed votes, as the nodes hand them to each other, and what counting them establishes. */
module Certificates {
  import opened Messages
  import opened Replica
  import Consensus

  /** A vote as it arrives; `verified` says whether its signer's key is known and the signature is right. */
  datatype Signed = Signed(vote: Vote, verified: bool) {
    predicate Matches(digest: Digest) {
      verified && vote.digest == digest
    }
  }

  /** The votes of the list that count for this digest. */
  function Matching(certs: seq<Signed>, digest: Digest): seq<Signed> {
    if certs == [] then []
    else
      var last := certs[|certs| - 1];
      Matching(certs[..|certs| - 1], digest) + (if last.Matches(digest) then [last] else [])
  }

  function VotesOf(certs: seq<Signed>): set<Vote> {
    set s | s in certs && s.verified :: s.vote
  }

  predicate NoRepeats(certs: seq<Signed>) {
    forall i, j | 0 <= i < j < |certs| :: certs[i].vote.node != certs[j].vote.node
  }

  /** What an honest collector puts into a list: votes of this view for this number. */
  predicate AllFor(certs: seq<Signed>, view: nat, num: nat) {
    forall s | s in certs :: s.vote.view == view && s.vote.num == num
  }

  lemma {:induction false} MatchingIn(certs: seq<Signed>, digest: Digest, s: Signed)
    ensures s in Matching(certs, digest) <==> s in certs && s.Matches(digest)
  {
    if certs != [] {
      MatchingIn(certs[..|certs| - 1], digest, s);
      assert certs == certs[..|certs| - 1] + [certs[|certs| - 1]];
    }
  }

  /** The list has an entry for each position that holds a verified vote for this digest, */
  lemma {:induction false} MatchingCounts(certs: seq<Signed>, digest: Digest)
    ensures |Matching(certs, digest)| ==
            |set i | 0 <= i < |certs| && certs[i].verified && certs[i].vote.digest == digest|
  {
    if certs != [] {
      MatchingCounts(certs[..|certs| - 1], digest);
      CountNext(certs, digest);
    }
  }

  lemma CountNext(certs: seq<Signed>, digest: Digest)
    requires certs != []
    ensures var init, last := certs[..|certs| - 1], certs[|certs| - 1];
            |set i | 0 <= i < |certs| && certs[i].verified && certs[i].vote.digest == digest| ==
            |set i | 0 <= i < |init| && init[i].verified && init[i].vote.digest == digest|
            + if last.verified && last.vote.digest == digest then 1 else 0
  {
    var init, last := certs[..|certs| - 1], certs[|certs| - 1];
    var before := set i | 0 <= i < |init| && init[i].verified && init[i].vote.digest == digest;
    var all := set i | 0 <= i < |certs| && certs[i].verified && certs[i].vote.digest == digest;
    if last.verified && last.vote.digest == digest {
      assert all == before + {|init|};
    } else {
      assert all == before;
    }
  }

  /** and keeps these votes as often as they occur, and no others. */
  lemma {:induction false} MatchingKeeps(certs: seq<Signed>, digest: Digest, s: Signed)
    ensures multiset(Matching(certs, digest))[s] ==
            if s.verified && s.vote.digest == digest then multiset(certs)[s] else 0
  {
    if certs != [] {
      var init, last := certs[..|certs| - 1], certs[|certs| - 1];
      MatchingKeeps(init, digest, s);
      assert certs == init + [last];
    }
  }

  /** What has been counted once counts again. */
  lemma {:induction false} MatchingAgain(certs: seq<Signed>, digest: Digest)
    ensures Matching(Matching(certs, digest), digest) == Matching(certs, digest)
  {
    if certs != [] {
      var init, last := certs[..|certs| - 1], certs[|certs| - 1];
      var counted := Matching(init, digest);
      MatchingAgain(init, digest);
      if last.Matches(digest) {
        assert (counted + [last])[..|counted + [last]| - 1] == counted;
        assert (counted + [last])[|counted|] == last;
      } else {
        assert counted + [] == counted;
      }
    }
  }

  lemma VotersAre(certs: seq<Signed>, view: nat, num: nat, digest: Digest)
    requires AllFor(certs, view, num)
    ensures Voters(VotesOf(certs), view, num, digest) == set s | s in Matching(certs, digest) :: s.vote.node
  {
    var voters, matching := Voters(VotesOf(certs), view, num, digest), Matching(certs, digest);
    forall n | n in voters ensures exists s :: s in matching && s.vote.node == n {
      var s :| s in certs && s.verified && s.vote.digest == digest && s.vote.node == n;
      MatchingIn(certs, digest, s);
    }
    forall s | s in matching ensures s.vote.node in voters {
      MatchingIn(certs, digest, s);
      assert s.vote in VotesOf(certs);
    }
  }

  function Nodes(certs: seq<Signed>): set<nat> {
    set s | s in certs :: s.vote.node
  }

  lemma {:induction false} NodesCounted(certs: seq<Signed>)
    ensures |Nodes(certs)| <= |certs|
    ensures |Nodes(certs)| == |certs| <==> NoRepeats(certs)
  {
    if certs != [] {
      var init, last := certs[..|certs| - 1], certs[|certs| - 1];
      NodesCounted(init);
      assert certs == init + [last];
      assert Nodes(certs) == Nodes(init) + {last.vote.node};
      RepeatsNext(init, last);
    }
  }

  lemma RepeatsNext(init: seq<Signed>, last: Signed)
    ensures NoRepeats(init + [last]) <==> NoRepeats(init) && last.vote.node !in Nodes(init)
  {
    var certs := init + [last];
    if last.vote.node in Nodes(init) {
      var s :| s in init && s.vote.node == last.vote.node;
      var i :| 0 <= i < |init| && init[i] == s;
      assert certs[i].vote.node == certs[|init|].vote.node;
    } else {
      assert forall i | 0 <= i < |init| :: init[i] in init;
    }
    if NoRepeats(certs) {
      assert forall i, j | 0 <= i < j < |init| :: init[i] == certs[i] && init[j] == certs[j];
    }
  }

  /** Counting the matching votes of a list counts their signers exactly if no signer is repeated. */
  lemma CountsSigners(certs: seq<Signed>, view: nat, num: nat, digest: Digest)
    requires AllFor(certs, view, num)
    ensures |Voters(VotesOf(certs), view, num, digest)| <= |Matching(certs, digest)|
    ensures |Voters(VotesOf(certs), view, num, digest)| == |Matching(certs, digest)| <==>
            NoRepeats(Matching(certs, digest))
  {
    VotersAre(certs, view, num, digest);
    NodesCounted(Matching(certs, digest));
    assert Nodes(Matching(certs, digest)) == Voters(VotesOf(certs), view, num, digest);
  }

  /** The counting does not look at who signed: the same commit three times passes for f = 1. */
  lemma RepeatedSigner(v: Vote)
    ensures var certs := [Signed(v, true), Signed(v, true), Signed(v, true)];
            |Matching(certs, v.digest)| == 3 && |Voters(VotesOf(certs), v.view, v.num, v.digest)| == 1
  {
    var one := Signed(v, true);
    assert [one, one, one][..2] == [one, one] && [one, one][..1] == [one] && [one][..0] == [];
    assert Matching([one], v.digest) == [one];
    assert Matching([one, one], v.digest) == [one, one];
    assert one in [one, one, one] && v in VotesOf([one, one, one]);
    assert Voters(VotesOf([one, one, one]), v.view, v.num, v.digest) == {v.node};
  }

  /** One vote of each of these nodes. */
  lemma {:induction false} VotesBy(nodes: set<nat>, view: nat, num: nat, digest: Digest) returns (certs: seq<Signed>)
    ensures Matching(certs, digest) == certs && |certs| == |nodes| && NoRepeats(certs) && AllFor(certs, view, num)
    ensures forall s | s in certs :: s.vote.node in nodes && s == Signed(Vote(view, num, digest, s.vote.node), true)
  {
    if nodes == {} {
      certs := [];
    } else {
      var n :| n in nodes;
      var last := Signed(Vote(view, num, digest, n), true);
      var init := VotesBy(nodes - {n}, view, num, digest);
      certs := init + [last];
      assert certs[..|init|] == init && certs[|init|] == last;
      RepeatsNext(init, last);
    }
  }

  /** A list of commits is accepted exactly if it is a quorum, given that it holds one vote of each of
      its signers, all of them replicas of the cluster. */
  lemma CommitQuorum(su: Consensus.Setup, certs: seq<Signed>, e: LogEntry, num: nat)
    requires AllFor(certs, e.view, num) && NoRepeats(Matching(certs, e.digest))
    requires forall s | s in certs :: s.vote.node in su.All()
    ensures |Matching(certs, e.digest)| >= 2 * su.f + 1 <==> Consensus.HasCommits(su, VotesOf(certs), e, num)
  {
    CountsSigners(certs, e.view, num, e.digest);
    assert Consensus.Signers(su, VotesOf(certs), e.view, num, e.digest) ==
           Voters(VotesOf(certs), e.view, num, e.digest);
  }

  /** The same for prepares, which only backups send. */
  lemma PrepareQuorum(su: Consensus.Setup, certs: seq<Signed>, e: LogEntry, num: nat)
    requires AllFor(certs, e.view, num) && NoRepeats(Matching(certs, e.digest))
    requires forall s | s in certs :: s.vote.node in su.All() && s.vote.node != su.Leader(e.view)
    ensures |Matching(certs, e.digest)| >= 2 * su.f <==> Consensus.HasPrepares(su, VotesOf(certs), e, num)
  {
    CountsSigners(certs, e.view, num, e.digest);
    assert Consensus.Backers(su, VotesOf(certs), e.view, num, e.digest) ==
           Voters(VotesOf(certs), e.view, num, e.digest);
  }
}

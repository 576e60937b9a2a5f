/** The signed messages of one cluster's replicas. A value in a message set stands for a message
    that carries a valid signature of the node it names. */
module Messages {
  import opened Transfers

  /** The digest of a client request: an injective function of the request, so it is modelled by the
      request's number. `Null` is the empty digest. */
  datatype Digest = Null | Of(t: nat)

  /** Signed by the leader of its view. */
  datatype PrePrepare = PrePrepare(view: nat, num: nat, digest: Digest, st: Status)

  /** A prepare or a commit of one node. */
  datatype Vote = Vote(view: nat, num: nat, digest: Digest, node: nat)

  /** The sequence numbers and digests a node has prepared when it leaves its view. */
  datatype ViewChange = ViewChange(view: nat, node: nat, prepared: map<nat, Digest>)

  /** Signed by its sender: the view changes behind the new view, and the pre-prepares made from them. */
  datatype NewView = NewView(view: nat, sender: nat, certs: set<ViewChange>, list: seq<PrePrepare>)

  /** Where the receivers of a new view go on: after the last entry of its list. */
  function NextAfter(list: seq<PrePrepare>): nat {
    if list == [] then 1 else list[|list| - 1].num + 1
  }

  /** The nodes that voted for this digest. */
  function Voters(votes: set<Vote>, view: nat, num: nat, digest: Digest): set<nat> {
    set w | w in votes && w.view == view && w.num == num && w.digest == digest :: w.node
  }

  lemma VotersGrow(votes: set<Vote>, more: set<Vote>, view: nat, num: nat, digest: Digest)
    requires votes <= more
    ensures Voters(votes, view, num, digest) <= Voters(more, view, num, digest)
    ensures |Voters(votes, view, num, digest)| <= |Voters(more, view, num, digest)|
  {
    var a, b := Voters(votes, view, num, digest), Voters(more, view, num, digest);
    forall n | n in a ensures n in b {
      var w :| w in votes && w.view == view && w.num == num && w.digest == digest && w.node == n;
      assert w in more;
    }
    SubsetSize(a, b);
  }

  function UpTo(n: nat): (s: set<nat>)
    ensures forall x: nat :: x in s <==> x < n
    ensures |s| == n
  {
    if n == 0 then {} else UpTo(n - 1) + {n - 1}
  }

  lemma {:induction false} SubsetSize<T>(a: set<T>, b: set<T>)
    requires a <= b
    ensures |a| <= |b|
  {
    if a != {} {
      var x :| x in a;
      SubsetSize(a - {x}, b - {x});
    }
  }

  /** Two subsets of a set share what is left over. */
  lemma Overlap<T>(a: set<T>, b: set<T>, all: set<T>)
    requires a <= all && b <= all
    ensures |a * b| >= |a| + |b| - |all|
  {
    assert |a + b| == |a| + |b| - |a * b|;
    SubsetSize(a + b, all);
  }
}

/** The vocabulary both layers share: transfers, the phases a transfer goes through, and the
    configuration (which cluster owns which accounts, and which requests clients may send). */
module Transfers {

  /** The balance every account starts with (config/constants.go). */
  const INITIAL_BALANCE := 10

  /** The phase a consensus run decides: `Plain` is an intra-shard transfer (the empty status),
      the other three are the two-phase commit prepare, commit and abort. */
  datatype Status = Plain | P | C | A

  datatype Transfer = Transfer(from: int, to: int, amount: int, clusterFrom: nat, clusterTo: nat, clientSeq: int) {
    predicate Cross() {
      clusterFrom != clusterTo
    }

    predicate Involves(c: nat) {
      c == clusterFrom || c == clusterTo
    }

    function Accounts(): set<int> {
      {from, to}
    }

    predicate Touches(x: int) {
      x == from || x == to
    }

    predicate DisjointFrom(other: Transfer) {
      !Touches(other.from) && !Touches(other.to)
    }

    /** The status of the first run of this transfer in a cluster: the one that moves money. */
    function FirstStatus(): Status {
      if Cross() then P else Plain
    }

    /** The transfer that the write-ahead log undoes this one with. */
    function Reverse(): Transfer {
      this.(from := to, to := from)
    }
  }

  /** What this transfer adds to account `x`. A transfer to oneself adds nothing. */
  function Delta(tx: Transfer, x: int): int {
    (if x == tx.to then tx.amount else 0) - (if x == tx.from then tx.amount else 0)
  }

  /** A log entry: request number `t` in phase `st`. */
  datatype Entry = Entry(t: nat, st: Status)

  /** The accounts lo..hi, named by their decimal numbers. */
  datatype Shard = Shard(lo: int, hi: int) {
    predicate Owns(x: int) {
      lo <= x <= hi
    }
  }

  datatype Config = Config(txs: seq<Transfer>, shards: seq<Shard>) {
    ghost predicate Valid() {
      && (forall t | 0 <= t < |txs| :: ValidTransfer(txs[t]))
      && (forall t, u | 0 <= t < u < |txs| :: txs[t].clientSeq != txs[u].clientSeq)
      && (forall b, c, x | 0 <= b < |shards| && 0 <= c < |shards| && shards[b].Owns(x) && shards[c].Owns(x) :: b == c)
    }

    /** Amounts are non-negative and the named clusters are the ones that own the accounts. */
    ghost predicate ValidTransfer(tx: Transfer) {
      && tx.amount >= 0
      && tx.clusterFrom < |shards| && shards[tx.clusterFrom].Owns(tx.from)
      && tx.clusterTo < |shards| && shards[tx.clusterTo].Owns(tx.to)
    }
  }

  /** What the transfers in `sel`, among the first `k`, add to account `x` together. */
  ghost function SumOver(txs: seq<Transfer>, sel: set<nat>, x: int, k: nat): int
    requires k <= |txs|
  {
    if k == 0 then 0
    else SumOver(txs, sel, x, k - 1) + (if k - 1 in sel then Delta(txs[k - 1], x) else 0)
  }

  lemma {:induction false} SumOverInsert(txs: seq<Transfer>, sel: set<nat>, t: nat, x: int, k: nat)
    requires k <= |txs|
    requires t !in sel
    ensures SumOver(txs, sel + {t}, x, k) == SumOver(txs, sel, x, k) + (if t < k then Delta(txs[t], x) else 0)
  {
    if k > 0 {
      SumOverInsert(txs, sel, t, x, k - 1);
    }
  }

  lemma {:induction false} SumOverEmpty(txs: seq<Transfer>, x: int, k: nat)
    requires k <= |txs|
    ensures SumOver(txs, {}, x, k) == 0
  {
    if k > 0 {
      SumOverEmpty(txs, x, k - 1);
    }
  }

  /** If the two selections differ, on transfers touching `x`, only at `t`, so do the sums. */
  lemma {:induction false} SumOverDiffer(txs: seq<Transfer>, a: set<nat>, b: set<nat>, t: nat, x: int, k: nat)
    requires k <= |txs|
    requires forall u: nat | u < k && u != t && txs[u].Touches(x) :: u in a <==> u in b
    ensures SumOver(txs, a, x, k) - (if t < k && t in a then Delta(txs[t], x) else 0)
         == SumOver(txs, b, x, k) - (if t < k && t in b then Delta(txs[t], x) else 0)
  {
    if k > 0 {
      SumOverDiffer(txs, a, b, t, x, k - 1);
    }
  }
}

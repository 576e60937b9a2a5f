/** The balances a log of committed entries stands for: the reference every replica is measured by. */
module Replay {
  import opened Transfers
  import opened Ledger

  ghost predicate PreparedBelow(log: map<nat, Entry>, t: nat, n: nat) {
    exists m | m in log :: 1 <= m < n && log[m] == Entry(t, P)
  }

  /** What entry `n` of the log makes of the balances. An abort undoes the prepare of its own
      request, if the log holds one before it, and nothing otherwise. */
  ghost function Effect(txs: seq<Transfer>, log: map<nat, Entry>, n: nat, bal: map<int, int>): map<int, int> {
    if n !in log || log[n].t >= |txs| then bal
    else
      var tx := txs[log[n].t];
      match log[n].st
      case Plain => Apply(bal, tx)
      case P => Apply(bal, tx)
      case C => bal
      case A => if PreparedBelow(log, log[n].t, n) then Apply(bal, tx.Reverse()) else bal
  }

  /** The balances after the entries 1..k-1. */
  ghost function After(txs: seq<Transfer>, init: map<int, int>, log: map<nat, Entry>, k: nat): map<int, int> {
    if k <= 1 then init else Effect(txs, log, k - 1, After(txs, init, log, k - 1))
  }

  lemma PreparedFrame(log: map<nat, Entry>, log': map<nat, Entry>, t: nat, k: nat)
    requires forall n | 1 <= n < k :: n in log && n in log' && log[n] == log'[n]
    ensures PreparedBelow(log, t, k) <==> PreparedBelow(log', t, k)
  {
    if PreparedBelow(log, t, k) {
      var m :| m in log && 1 <= m < k && log[m] == Entry(t, P);
      assert log'[m] == Entry(t, P);
    }
    if PreparedBelow(log', t, k) {
      var m :| m in log' && 1 <= m < k && log'[m] == Entry(t, P);
      assert log[m] == Entry(t, P);
    }
  }

  /** Entries at or above `k` do not matter. */
  lemma {:induction false} AfterFrame(txs: seq<Transfer>, init: map<int, int>, log: map<nat, Entry>,
                                      log': map<nat, Entry>, k: nat)
    requires forall n | 1 <= n < k :: n in log && n in log' && log[n] == log'[n]
    ensures After(txs, init, log, k) == After(txs, init, log', k)
  {
    if k > 1 {
      AfterFrame(txs, init, log, log', k - 1);
      PreparedFrame(log, log', log[k - 1].t, k - 1);
    }
  }

  lemma ApplyCommutes(bal: map<int, int>, a: Transfer, b: Transfer)
    ensures Apply(Apply(bal, a), b) == Apply(Apply(bal, b), a)
  {
  }

  lemma ReverseUndoes(bal: map<int, int>, tx: Transfer)
    ensures Apply(Apply(bal, tx), tx.Reverse()) == bal
  {
  }

  /** `log` with the prepare at `i` and the abort at `j` turned into entries without effect. */
  function Without(log: map<nat, Entry>, i: nat, j: nat): map<nat, Entry>
    requires i in log && j in log
  {
    log[i := Entry(log[i].t, C)][j := Entry(log[j].t, C)]
  }

  /** The first `n` entries hold one prepare of `t`, at `i`, and one abort of it, at `j`. */
  ghost predicate PreparedThenAborted(log: map<nat, Entry>, t: nat, i: nat, j: nat, k: nat) {
    && 1 <= i < j < k
    && i in log && j in log
    && log[i] == Entry(t, P) && log[j] == Entry(t, A)
    && (forall n | n in log && 1 <= n < k && n != i && n != j && log[n].t == t :: log[n].st == C)
  }

  lemma WithoutKeepsPrepares(log: map<nat, Entry>, t: nat, i: nat, j: nat, k: nat, u: nat, n: nat)
    requires PreparedThenAborted(log, t, i, j, k)
    requires u != t
    ensures PreparedBelow(log, u, n) <==> PreparedBelow(Without(log, i, j), u, n)
  {
    var log' := Without(log, i, j);
    if PreparedBelow(log, u, n) {
      var m :| m in log && 1 <= m < n && log[m] == Entry(u, P);
      assert log'[m] == Entry(u, P);
    }
    if PreparedBelow(log', u, n) {
      var m :| m in log' && 1 <= m < n && log'[m] == Entry(u, P);
      assert log[m] == Entry(u, P);
    }
  }

  /** Whatever entries of other requests stand before, between and after them, a prepare and the
      later abort of the same request leave every balance as if neither had been executed; in
      between, the balances differ by exactly the transfer. */
  lemma {:induction false} ExactUndo(txs: seq<Transfer>, init: map<int, int>, log: map<nat, Entry>, t: nat, i: nat,
                                     j: nat, k: nat, n: nat)
    requires t < |txs| && PreparedThenAborted(log, t, i, j, k) && n <= k
    ensures After(txs, init, log, n) ==
            (if i < n <= j then Apply(After(txs, init, Without(log, i, j), n), txs[t])
             else After(txs, init, Without(log, i, j), n))
  {
    if n > 1 {
      var log', m := Without(log, i, j), n - 1;
      var bal, bal' := After(txs, init, log, m), After(txs, init, log', m);
      ExactUndo(txs, init, log, t, i, j, k, m);
      if m == j {
        assert PreparedBelow(log, t, j);
        ReverseUndoes(bal', txs[t]);
      } else if m != i && m in log && log[m].t != t && log[m].t < |txs| {
        WithoutKeepsPrepares(log, t, i, j, k, log[m].t, m);
        ApplyCommutes(bal', txs[t], txs[log[m].t]);
        ApplyCommutes(bal', txs[t], txs[log[m].t].Reverse());
      }
    }
  }
  /** An entry that moves the money of its request, when no other entry below `k` does, adds exactly the
      transfer to what the balances are without it. */
  lemma {:induction false} OnlyMove(txs: seq<Transfer>, init: map<int, int>, log: map<nat, Entry>, t: nat, m: nat,
                                    k: nat, n: nat)
    requires t < |txs| && 1 <= m < k && n <= k && m in log && log[m].t == t && (log[m].st == Plain || log[m].st == P)
    requires forall j | j in log && 1 <= j < k && j != m && log[j].t == t :: log[j].st == C
    ensures After(txs, init, log, n) ==
            (if m < n then Apply(After(txs, init, log[m := Entry(t, C)], n), txs[t])
             else After(txs, init, log[m := Entry(t, C)], n))
  {
    if n > 1 {
      var log', l := log[m := Entry(t, C)], n - 1;
      var bal' := After(txs, init, log', l);
      OnlyMove(txs, init, log, t, m, k, l);
      if l != m && l in log && log[l].t != t && log[l].t < |txs| {
        SamePrepares(log, t, m, log[l].t, l);
        ApplyCommutes(bal', txs[t], txs[log[l].t]);
        ApplyCommutes(bal', txs[t], txs[log[l].t].Reverse());
      }
    }
  }

  lemma SamePrepares(log: map<nat, Entry>, t: nat, m: nat, u: nat, n: nat)
    requires m in log && log[m].t == t && u != t
    ensures PreparedBelow(log, u, n) <==> PreparedBelow(log[m := Entry(t, C)], u, n)
  {
    var log' := log[m := Entry(t, C)];
    if PreparedBelow(log, u, n) {
      var j :| j in log && 1 <= j < n && log[j] == Entry(u, P);
      assert log'[j] == Entry(u, P);
    }
    if PreparedBelow(log', u, n) {
      var j :| j in log' && 1 <= j < n && log'[j] == Entry(u, P);
      assert log[j] == Entry(u, P);
    }
  }
}

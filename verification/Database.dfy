/** The database of one node, as the `db` package keeps it: three buckets that its operations change
    in place. `Contents` is the value the ledger is specified on. */
module Databases {
  import opened Transfers
  import opened Ledger

  datatype Option<T> = None | Some(value: T)

  class Database {
    var balances: map<int, int>
    var locks: set<int>
    var wal: map<int, seq<Transfer>>

    ghost function Contents(): Db
      reads this
    {
      Db(balances, locks, wal)
    }

    constructor ()
      ensures Contents() == Db(map[], {}, map[])
    {
      balances, locks, wal := map[], {}, map[];
    }

    /***** Balances *****/

    /** Fails for the accounts of other shards. */
    method GetBalance(client: int) returns (r: Option<int>)
      ensures r.Some? <==> client in balances
      ensures r.Some? ==> r.value == balances[client]
    {
      if client in balances {
        r := Some(balances[client]);
      } else {
        r := None;
      }
    }

    method PutBalance(client: int, balance: int)
      modifies this`balances
      ensures balances == old(balances)[client := balance]
    {
      balances := balances[client := balance];
    }

    /** The two accounts are read and written one after the other; the outcome is the transfer, also
        when both are the same account or only one of them belongs to this shard. */
    method UpdateBalances(tx: Transfer)
      modifies this`balances
      ensures balances == Apply(old(balances), tx)
      ensures forall x :: x in balances <==> x in old(balances)
      ensures forall x | x in balances && x != tx.from && x != tx.to :: balances[x] == old(balances)[x]
      ensures tx.from != tx.to && tx.from in balances ==> balances[tx.from] == old(balances)[tx.from] - tx.amount
      ensures tx.from != tx.to && tx.to in balances ==> balances[tx.to] == old(balances)[tx.to] + tx.amount
      ensures tx.from == tx.to ==> balances == old(balances)
    {
      var balanceFrom := GetBalance(tx.from);
      if balanceFrom.Some? {
        PutBalance(tx.from, balanceFrom.value - tx.amount);
      }
      var balanceTo := GetBalance(tx.to);
      if balanceTo.Some? {
        PutBalance(tx.to, balanceTo.value + tx.amount);
      }
    }

    /** Every account of the shard gets the initial balance; what else the bucket holds stays. */
    method InitiateBalances(shard: Shard)
      modifies this`balances
      ensures balances == old(balances) + Initial(shard)
      ensures forall x :: x in balances <==> x in old(balances) || shard.lo <= x <= shard.hi
      ensures forall x | x in balances ::
                balances[x] == if shard.lo <= x <= shard.hi then INITIAL_BALANCE else old(balances)[x]
    {
      var i := shard.lo;
      while i <= shard.hi
        invariant shard.lo <= i && (if shard.lo <= shard.hi then i <= shard.hi + 1 else i == shard.lo)
        invariant balances == old(balances) + Initial(Shard(shard.lo, i - 1))
      {
        balances := balances[i := INITIAL_BALANCE];
        i := i + 1;
      }
      if shard.lo > shard.hi {
        assert Initial(shard) == map[] == Initial(Shard(shard.lo, i - 1));
      }
    }

    /***** Locks *****/

    method CheckLocks(clients: seq<int>) returns (free: bool)
      ensures free <==> forall x | x in clients :: x !in locks
    {
      var i := 0;
      while i < |clients|
        invariant 0 <= i <= |clients|
        invariant forall k | 0 <= k < i :: clients[k] !in locks
      {
        if clients[i] in locks {
          var client := clients[i];
          assert client in clients && client in locks;
          return false;
        }
        i := i + 1;
      }
      return true;
    }

    method GetLocks(clients: seq<int>)
      modifies this`locks
      ensures locks == old(locks) + set x | x in clients
    {
      var i := 0;
      while i < |clients|
        invariant 0 <= i <= |clients|
        invariant locks == old(locks) + set x | x in clients[..i]
      {
        locks := locks + {clients[i]};
        i := i + 1;
        assert clients[..i] == clients[..i - 1] + [clients[i - 1]];
      }
      assert clients[..i] == clients;
    }

    method ReleaseLocks(clients: seq<int>)
      modifies this`locks
      ensures locks == old(locks) - set x | x in clients
    {
      var i := 0;
      while i < |clients|
        invariant 0 <= i <= |clients|
        invariant locks == old(locks) - set x | x in clients[..i]
      {
        locks := locks - {clients[i]};
        i := i + 1;
        assert clients[..i] == clients[..i - 1] + [clients[i - 1]];
      }
      assert clients[..i] == clients;
    }

    /** Both locks of a transfer or none. A Byzantine node only looks. */
    method CheckAndGetLocks(tx: Transfer, byzantine: bool) returns (ok: bool)
      modifies this`locks
      ensures ok <==> Free(old(Contents()), tx)
      ensures Contents() == if ok && !byzantine then Acquire(old(Contents()), tx) else old(Contents())
      ensures ok <==> tx.from !in old(locks) && tx.to !in old(locks)
      ensures locks == if ok && !byzantine then old(locks) + {tx.from, tx.to} else old(locks)
    {
      ok := CheckLocks([tx.from, tx.to]);
      if ok && !byzantine {
        GetLocks([tx.from, tx.to]);
      }
    }

    method ReleaseBoth(tx: Transfer)
      modifies this`locks
      ensures Contents() == Release(old(Contents()), tx)
      ensures locks == old(locks) - {tx.from, tx.to}
    {
      ReleaseLocks([tx.from, tx.to]);
    }

    /***** The write-ahead log *****/

    method AppendToWal(clientSeq: int, logs: seq<Transfer>)
      modifies this`wal
      ensures Contents() == AppendWal(old(Contents()), clientSeq, logs)
      ensures wal == old(wal)[clientSeq := (if clientSeq in old(wal) then old(wal)[clientSeq] else []) + logs]
    {
      var entry := [];
      if clientSeq in wal {
        entry := wal[clientSeq];
      }
      wal := wal[clientSeq := entry + logs];
    }

    method ReadWal(clientSeq: int) returns (r: Option<seq<Transfer>>)
      ensures r.Some? <==> clientSeq in wal
      ensures r.Some? ==> r.value == wal[clientSeq] == WalOf(Contents(), clientSeq)
    {
      if clientSeq in wal {
        r := Some(wal[clientSeq]);
      } else {
        r := None;
      }
    }

    method EraseWal(clientSeq: int)
      modifies this`wal
      ensures Contents() == Ledger.EraseWal(old(Contents()), clientSeq)
      ensures clientSeq !in wal
      ensures forall k | k != clientSeq :: (k in wal <==> k in old(wal)) && (k in wal ==> wal[k] == old(wal)[k])
    {
      wal := wal - {clientSeq};
    }
  }
}

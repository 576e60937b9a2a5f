/** The database of one replica as a value: what each operation of the `db` package and of the
    executor makes of the balances, the locks and the write-ahead log. */
module Ledger {
  import opened Transfers

  datatype Db = Db(bal: map<int, int>, locks: set<int>, wal: map<int, seq<Transfer>>)

  /** The balances after a transfer: accounts of other shards are skipped. */
  function Apply(bal: map<int, int>, tx: Transfer): map<int, int> {
    map x | x in bal :: bal[x] + Delta(tx, x)
  }

  /** The balances after undoing the logged transfers, in the order they were logged. */
  function Undo(bal: map<int, int>, logs: seq<Transfer>): map<int, int> {
    if logs == [] then bal else Undo(Apply(bal, logs[0].Reverse()), logs[1..])
  }

  /** The balances after all of these transfers. */
  function ApplyAll(bal: map<int, int>, logs: seq<Transfer>): map<int, int> {
    if logs == [] then bal else ApplyAll(Apply(bal, logs[0]), logs[1..])
  }

  /** Undoing a log of transfers in the order in which they were applied gives the balances before them:
      additions commute. */
  lemma {:induction false} UndoesAll(bal: map<int, int>, logs: seq<Transfer>)
    ensures Undo(ApplyAll(bal, logs), logs) == bal
  {
    if logs != [] {
      UndoesFirst(Apply(bal, logs[0]), logs[1..], logs[0]);
      UndoesAll(bal, logs[1..]);
      assert Apply(Apply(bal, logs[0]), logs[0].Reverse()) == bal;
    }
  }

  /** The first transfer can be undone before the others are applied. */
  lemma {:induction false} UndoesFirst(bal: map<int, int>, logs: seq<Transfer>, tx: Transfer)
    ensures Apply(ApplyAll(bal, logs), tx.Reverse()) == ApplyAll(Apply(bal, tx.Reverse()), logs)
  {
    if logs != [] {
      UndoesFirst(Apply(bal, logs[0]), logs[1..], tx);
      assert Apply(Apply(bal, logs[0]), tx.Reverse()) == Apply(Apply(bal, tx.Reverse()), logs[0]);
    }
  }

  /** Neither account is locked. */
  predicate Free(db: Db, tx: Transfer) {
    tx.from !in db.locks && tx.to !in db.locks
  }

  function Acquire(db: Db, tx: Transfer): Db {
    db.(locks := db.locks + tx.Accounts())
  }

  function Release(db: Db, tx: Transfer): Db {
    db.(locks := db.locks - tx.Accounts())
  }

  function WalOf(db: Db, clientSeq: int): seq<Transfer> {
    if clientSeq in db.wal then db.wal[clientSeq] else []
  }

  function AppendWal(db: Db, clientSeq: int, logs: seq<Transfer>): Db {
    db.(wal := db.wal[clientSeq := WalOf(db, clientSeq) + logs])
  }

  function EraseWal(db: Db, clientSeq: int): Db {
    db.(wal := db.wal - {clientSeq})
  }

  /** What committing `tx` in phase `st` writes to the database: a prepare is logged for undo. */
  function Logged(db: Db, tx: Transfer, st: Status): Db {
    if st == P then AppendWal(db, tx.clientSeq, [tx]) else db
  }

  /** What executing `tx` in phase `st` does: the transfer and the prepare move money, the abort
      undoes what the write-ahead log holds, and all but the prepare release the locks. */
  function Execute(db: Db, tx: Transfer, st: Status): Db {
    var moved :=
      match st
      case Plain => db.(bal := Apply(db.bal, tx))
      case P => db.(bal := Apply(db.bal, tx))
      case A => db.(bal := Undo(db.bal, WalOf(db, tx.clientSeq)))
      case C => db;
    if st == P then moved else Release(moved, tx)
  }

  /** The balances of a freshly initialised shard. */
  function Initial(shard: Shard): map<int, int> {
    map x | shard.lo <= x <= shard.hi && shard.Owns(x) :: INITIAL_BALANCE
  }

  ghost predicate NonNegative(bal: map<int, int>) {
    forall x | x in bal :: bal[x] >= 0
  }
}

/** One replica's part of the consensus, as a value: what the handlers of a node make of its log, its
    pre-prepares, its certificates and its datastore. */
module Replica {
  import opened Transfers
  import opened Messages

  /** The stages of a log entry (config/constants.go). */
  const PRE_PREPARED := 1
  const PREPARED := 2
  const COMMITTED := 3
  const EXECUTED := 5

  datatype LogEntry = LogEntry(view: nat, stage: nat, digest: Digest)

  /** `collected` is what the node, as leader, has gathered for a sequence number and hands to its
      backups. */
  datatype State = State(view: nat, next: nat, changing: bool, newView: nat, log: map<nat, LogEntry>,
                         pre: map<nat, PrePrepare>, collected: map<nat, set<Vote>>, store: map<nat, Entry>)

  function Init(): State {
    State(1, 1, false, 0, map[], map[], map[], map[])
  }

  /** Writes a fresh entry, whatever stage an older one was in. */
  function WriteLog(r: State, num: nat, digest: Digest): State {
    r.(log := r.log[num := LogEntry(r.view, PRE_PREPARED, digest)])
  }

  /** Moves an entry to a later stage; never back. */
  function UpdateLog(r: State, num: nat, stage: nat): State {
    if num in r.log && r.log[num].stage < stage then r.(log := r.log[num := r.log[num].(stage := stage)]) else r
  }

  function SavePrePrepare(r: State, pp: PrePrepare): State {
    r.(pre := r.pre[pp.num := pp])
  }

  /** The checks of the pre-prepare handler. A digest that matches the attached request is not empty. */
  predicate CanAccept(r: State, pp: PrePrepare) {
    && !r.changing
    && r.view == pp.view
    && pp.digest.Of?
    && (pp.num == 1 || (pp.num >= 1 && pp.num - 1 in r.pre))
    && !(pp.num in r.log && r.log[pp.num].view == pp.view && r.log[pp.num].digest != pp.digest)
  }

  function Accept(r: State, pp: PrePrepare): State {
    SavePrePrepare(WriteLog(r, pp.num, pp.digest), pp)
  }

  /** What the leader proposes next. */
  function Proposal(r: State, digest: Digest, st: Status): PrePrepare {
    PrePrepare(r.view, r.next, digest, st)
  }

  function Propose(r: State, digest: Digest, st: Status): State {
    Accept(r, Proposal(r, digest, st)).(next := r.next + 1)
  }

  /** Stores the committed request of the log under the status of its pre-prepare. */
  function Save(r: State, num: nat, st: Status): State {
    if num in r.log && r.log[num].digest.Of? then r.(store := r.store[num := Entry(r.log[num].digest.t, st)]) else r
  }

  function Commit(r: State, num: nat, st: Status): State {
    Save(UpdateLog(r, num, COMMITTED), num, st)
  }

  predicate CanStartView(r: State, view: nat) {
    view > r.view && !(r.changing && r.newView >= view)
  }

  function StartView(r: State, view: nat): State {
    r.(changing := true, newView := view)
  }

  /** What a view-change message reports: every entry prepared or later. */
  function PreparedOf(r: State): map<nat, Digest> {
    map num | num in r.log && r.log[num].stage >= PREPARED && num in r.pre :: r.pre[num].digest
  }

  function AdoptView(r: State, view: nat, next: nat): State {
    r.(view := view, next := next, changing := false)
  }
}

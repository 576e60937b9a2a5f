/** When a committed number is never given out again, exactly: as long as new views are adopted in order,
    if and only if no replica is faulty. The handlers compare neither a pre-prepare's number with the start
    of its view nor a new view's list with its view changes; each of the two lets a faulty replica bring a
    committed number back. Nor do they compare a new view with the replica's own; this lets a late message
    bring one back with no replica faulty. */
module Renumbering {
  import opened Transfers
  import opened Messages
  import opened Replica
  import opened Consensus
  import opened ViewChanges

  lemma Chain<G, A>(states: seq<G>, actions: seq<A>, step: (G, A, G) -> bool, a: A, last: G)
    requires |states| == |actions| + 1 && forall i | 0 <= i < |actions| :: step(states[i], actions[i], states[i + 1])
    requires step(states[|actions|], a, last)
    ensures forall i | 0 <= i <= |actions| :: step((states + [last])[i], (actions + [a])[i], (states + [last])[i + 1])
  {
  }

  lemma Longer(su: Setup, run: Run, a: Action, last: Group)
    requires run.Of(su) && Step(su, run.groups[|run.actions|], a, last)
    ensures Run(run.groups + [last], run.actions + [a]).Of(su)
  {
    Chain(run.groups, run.actions, (g, b, g') => Step(su, g, b, g'), a, last);
  }

  /** A run that is one step longer. */
  lemma Extended(su: Setup, run: Run, a: Action) returns (run': Run)
    requires run.Of(su) && run.NoRetransmission() && !a.Again? && Enabled(su, run.groups[|run.actions|], a)
    ensures run'.Of(su) && run'.NoRetransmission() && |run'.actions| == |run.actions| + 1
    ensures run'.groups[|run'.actions|] == Do(su, run.groups[|run.actions|], a)
    ensures ListsChecked(su, run) && ListChecked(su, a) ==> ListsChecked(su, run')
    ensures NumbersChecked(su, run) && NumberChecked(su, run.groups[|run.actions|], a) ==> NumbersChecked(su, run')
  {
    var last := Do(su, run.groups[|run.actions|], a);
    Longer(su, run, a, last);
    run' := Run(run.groups + [last], run.actions + [a]);
  }

  /***** A faulty leader that numbers freely *****/

  /** Four replicas; the leader of the second view is faulty. */
  const FOUR := Setup(1, {0, 2, 3})

  const FIRST := PrePrepare(1, 1, Of(0), Plain)
  const AGAIN := PrePrepare(2, 1, Of(1), Plain)

  /** A replica that has one log entry. */
  function At(view: nat, next: nat, changing: bool, newView: nat, stage: nat, pp: PrePrepare): State {
    State(view, next, changing, newView, map[1 := LogEntry(pp.view, stage, pp.digest)], map[1 := pp], map[], map[])
  }

  /** The run ends with the non-faulty replicas in these states, and at least these messages sent. */
  ghost predicate Shows(run: Run, r0: State, r2: State, r3: State, net: Net) {
    && run.Of(FOUR) && run.NoRetransmission() && ListsChecked(FOUR, run)
    && var g := run.groups[|run.actions|];
    && |g.replicas| == 4 && g.replicas[0] == r0 && g.replicas[2] == r2 && g.replicas[3] == r3
    && net.pre <= g.net.pre && net.prepares <= g.net.prepares && net.commits <= g.net.commits
    && net.vcs <= g.net.vcs && net.nvs <= g.net.nvs
  }

  lemma Take(run: Run, a: Action) returns (run': Run)
    requires run.Of(FOUR) && run.NoRetransmission() && ListsChecked(FOUR, run)
    requires !a.Again? && ListChecked(FOUR, a) && Enabled(FOUR, run.groups[|run.actions|], a)
    ensures run'.Of(FOUR) && run'.NoRetransmission() && ListsChecked(FOUR, run') && |run'.actions| == |run.actions| + 1
    ensures run'.groups[|run'.actions|] == Do(FOUR, run.groups[|run.actions|], a)
  {
    run' := Extended(FOUR, run, a);
  }

  /** Replica `i` takes a step of its own. */
  lemma TakeLocal(run: Run, r0: State, r2: State, r3: State, net: Net, a: Action) returns (run': Run)
    requires Shows(run, r0, r2, r3, net) && IsLocal(a) && !a.Again? && ListChecked(FOUR, a)
             && (a.r == 0 || a.r == 2 || a.r == 3)
    requires Enabled(FOUR, run.groups[|run.actions|], a)
    ensures var r := if a.r == 0 then r0 else if a.r == 2 then r2 else r3;
            Shows(run', if a.r == 0 then Local(FOUR, r0, a) else r0, if a.r == 2 then Local(FOUR, r2, a) else r2,
                  if a.r == 3 then Local(FOUR, r3, a) else r3, Sent(net, r, a))
  {
    run' := Take(run, a);
    NetGrows(FOUR, run.groups[|run.actions|], a);
  }

  const NOTHING := Net({}, {}, {}, {}, {})

  lemma Start() returns (run: Run)
    ensures Shows(run, Init(), Init(), Init(), NOTHING)
  {
    run := Run([InitGroup(FOUR)], []);
  }

  /** The first leader proposes request 0 and the backups accept it. */
  lemma Proposed() returns (run: Run)
    ensures Shows(run, At(1, 2, false, 0, PRE_PREPARED, FIRST), At(1, 1, false, 0, PRE_PREPARED, FIRST),
                  At(1, 1, false, 0, PRE_PREPARED, FIRST),
                  NOTHING.(pre := {FIRST}, prepares := {Vote(1, 1, Of(0), 2), Vote(1, 1, Of(0), 3)}))
  {
    run := Start();
    run := TakeLocal(run, Init(), Init(), Init(), NOTHING, Propose(0, Of(0), Plain));
    var r0 := At(1, 2, false, 0, PRE_PREPARED, FIRST);
    run := TakeLocal(run, r0, Init(), Init(), NOTHING.(pre := {FIRST}), Accept(2, FIRST));
    var r2 := At(1, 1, false, 0, PRE_PREPARED, FIRST);
    run := TakeLocal(run, r0, r2, Init(), NOTHING.(pre := {FIRST}, prepares := {Vote(1, 1, Of(0), 2)}),
                     Accept(3, FIRST));
  }

  lemma TwoBackers(e: LogEntry)
    requires e.view == 1 && e.digest == Of(0)
    ensures HasPrepares(FOUR, {Vote(1, 1, Of(0), 2), Vote(1, 1, Of(0), 3)}, e, 1)
  {
    var votes := {Vote(1, 1, Of(0), 2), Vote(1, 1, Of(0), 3)};
    assert Vote(1, 1, Of(0), 2) in votes && Vote(1, 1, Of(0), 3) in votes;
    SubsetSize({2, 3}, Backers(FOUR, votes, 1, 1, Of(0)));
  }

  const COMMITS := {Vote(1, 1, Of(0), 0), Vote(1, 1, Of(0), 2), Vote(1, 1, Of(0), 3)}

  const PREPARES := {Vote(1, 1, Of(0), 2), Vote(1, 1, Of(0), 3)}

  /** A replica that has accepted the request can prepare it. */
  lemma CanPrepare(g: Group, i: nat, next: nat)
    requires i in FOUR.honest && i < |g.replicas| && g.replicas[i] == At(1, next, false, 0, PRE_PREPARED, FIRST)
    requires PREPARES <= g.net.prepares
    ensures Enabled(FOUR, g, Prepared(i, 1, PREPARES))
  {
    var e := LogEntry(1, PRE_PREPARED, Of(0));
    TwoBackers(e);
    assert g.replicas[i].log[1] == e;
  }

  lemma PreparedLocal(i: nat, next: nat, net: Net)
    ensures var r := At(1, next, false, 0, PRE_PREPARED, FIRST);
            && Local(FOUR, r, Prepared(i, 1, PREPARES)) == At(1, next, false, 0, PREPARED, FIRST)
            && Sent(net, r, Prepared(i, 1, PREPARES)) == net.(commits := net.commits + {Vote(1, 1, Of(0), i)})
  {
  }

  /** The leader prepares it and signs a commit. */
  lemma LeaderSigned() returns (run: Run)
    ensures Shows(run, At(1, 2, false, 0, PREPARED, FIRST), At(1, 1, false, 0, PRE_PREPARED, FIRST),
                  At(1, 1, false, 0, PRE_PREPARED, FIRST),
                  NOTHING.(prepares := PREPARES, commits := {Vote(1, 1, Of(0), 0)}))
  {
    run := Proposed();
    var p0, p := At(1, 2, false, 0, PRE_PREPARED, FIRST), At(1, 1, false, 0, PRE_PREPARED, FIRST);
    CanPrepare(run.groups[|run.actions|], 0, 2);
    PreparedLocal(0, 2, NOTHING.(prepares := PREPARES));
    run := TakeLocal(run, p0, p, p, NOTHING.(prepares := PREPARES), Prepared(0, 1, PREPARES));
  }

  /** So do the backups. */
  lemma Signed() returns (run: Run)
    ensures Shows(run, At(1, 2, false, 0, PREPARED, FIRST), At(1, 1, false, 0, PREPARED, FIRST),
                  At(1, 1, false, 0, PREPARED, FIRST),
                  NOTHING.(commits := COMMITS))
  {
    run := LeaderSigned();
    var net := NOTHING.(prepares := PREPARES, commits := {Vote(1, 1, Of(0), 0)});
    var p, r0, r := At(1, 1, false, 0, PRE_PREPARED, FIRST), At(1, 2, false, 0, PREPARED, FIRST),
        At(1, 1, false, 0, PREPARED, FIRST);
    CanPrepare(run.groups[|run.actions|], 2, 1);
    PreparedLocal(2, 1, net);
    run := TakeLocal(run, r0, p, p, net, Prepared(2, 1, PREPARES));
    CanPrepare(run.groups[|run.actions|], 3, 1);
    PreparedLocal(3, 1, net.(commits := {Vote(1, 1, Of(0), 0), Vote(1, 1, Of(0), 2)}));
    run := TakeLocal(run, r0, r, p, net.(commits := {Vote(1, 1, Of(0), 0), Vote(1, 1, Of(0), 2)}),
                     Prepared(3, 1, PREPARES));
  }

  /** The view changes of the three replicas. */
  function Changes(view: nat, prepared: map<nat, Digest>): set<ViewChange> {
    {ViewChange(view, 0, prepared), ViewChange(view, 2, prepared), ViewChange(view, 3, prepared)}
  }

  lemma ThreeSenders(view: nat, prepared: map<nat, Digest>)
    ensures |Senders(Changes(view, prepared)) * FOUR.All()| >= 3
  {
    var certs := Changes(view, prepared);
    assert ViewChange(view, 0, prepared) in certs && ViewChange(view, 2, prepared) in certs
           && ViewChange(view, 3, prepared) in certs;
    SubsetSize({0, 2, 3}, Senders(certs) * FOUR.All());
  }

  /** What the three replicas report when they leave a view. */
  function Leaving(stage: nat, pp: PrePrepare): map<nat, Digest> {
    if stage >= PREPARED then map[1 := pp.digest] else map[]
  }

  /** The three replicas leave the view. */
  lemma Left(run: Run, next: nat, view: nat, newView: nat, stage: nat, pp: PrePrepare, next': nat, net: Net)
    returns (run': Run)
    requires Shows(run, At(view, next', false, newView, stage, pp), At(view, next, false, newView, stage, pp),
                   At(view, next, false, newView, stage, pp), net)
    ensures Shows(run', At(view, next', true, view + 1, stage, pp), At(view, next, true, view + 1, stage, pp),
                  At(view, next, true, view + 1, stage, pp),
                  net.(vcs := net.vcs + Changes(view + 1, Leaving(stage, pp))))
  {
    var v, prepared := view + 1, Leaving(stage, pp);
    var p0, p := At(view, next', false, newView, stage, pp), At(view, next, false, newView, stage, pp);
    var r0, r := At(view, next', true, v, stage, pp), At(view, next, true, v, stage, pp);
    assert PreparedOf(p0) == PreparedOf(p) == prepared;
    run' := TakeLocal(run, p0, p, p, net, StartView(0, v));
    var one := net.(vcs := net.vcs + {ViewChange(v, 0, prepared)});
    run' := TakeLocal(run', r0, p, p, one, StartView(2, v));
    var two := one.(vcs := one.vcs + {ViewChange(v, 2, prepared)});
    run' := TakeLocal(run', r0, r, p, two, StartView(3, v));
    assert two.vcs + {ViewChange(v, 3, prepared)} == net.vcs + Changes(v, prepared);
  }

  /** A list that fits the three view changes, made by the leader of the view before. */
  function Offer(view: nat, stage: nat, pp: PrePrepare): NewView
    requires view >= 1
  {
    NewView(view, FOUR.Leader(view - 1), Changes(view, Leaving(stage, pp)),
            if stage >= PREPARED then [PrePrepare(view, 1, pp.digest, Plain)] else [])
  }

  lemma OfferFits(view: nat, stage: nat, pp: PrePrepare)
    requires view >= 1
    ensures Fits(Offer(view, stage, pp)) && NextAfter(Offer(view, stage, pp).list) == if stage >= PREPARED then 2 else 1
  {
    var nv := Offer(view, stage, pp);
    if stage >= PREPARED {
      var vc := ViewChange(view, 0, map[1 := pp.digest]);
      assert vc in nv.certs && 1 in vc.prepared;
      assert 1 in Reported(nv);
      assert Reported(nv) == {1};
    } else {
      assert Reported(nv) == {};
    }
  }

  /** A new view is offered. */
  lemma Changed(run: Run, next: nat, view: nat, newView: nat, stage: nat, pp: PrePrepare, next': nat, net: Net)
    returns (run': Run)
    requires Shows(run, At(view, next', false, newView, stage, pp), At(view, next, false, newView, stage, pp),
                   At(view, next, false, newView, stage, pp), net)
    requires view == 1 || view == 2
    ensures Shows(run', At(view, next', true, view + 1, stage, pp), At(view, next, true, view + 1, stage, pp),
                  At(view, next, true, view + 1, stage, pp),
                  net.(nvs := net.nvs + {Offer(view + 1, stage, pp)}))
  {
    run' := Left(run, next, view, newView, stage, pp, next', net);
    var nv := Offer(view + 1, stage, pp);
    ThreeSenders(view + 1, Leaving(stage, pp));
    OfferFits(view + 1, stage, pp);
    NetGrows(FOUR, run'.groups[|run'.actions|], OfferView(nv));
    run' := Take(run', OfferView(nv));
  }

  /** The second view starts above the committed number. */
  lemma SecondView() returns (run: Run)
    ensures Shows(run, At(2, 2, false, 2, PREPARED, FIRST), At(2, 2, false, 2, PREPARED, FIRST),
                  At(2, 2, false, 2, PREPARED, FIRST),
                  NOTHING.(commits := COMMITS))
  {
    run := Signed();
    run := Changed(run, 1, 1, 0, PREPARED, FIRST, 2, NOTHING.(commits := COMMITS));
    var nv := Offer(2, PREPARED, FIRST);
    var net := NOTHING.(commits := COMMITS, nvs := {nv});
    var p0, p := At(1, 2, true, 2, PREPARED, FIRST), At(1, 1, true, 2, PREPARED, FIRST);
    var r := At(2, 2, false, 2, PREPARED, FIRST);
    OfferFits(2, PREPARED, FIRST);
    run := TakeLocal(run, p0, p, p, net, AdoptView(0, nv));
    run := TakeLocal(run, r, p, p, net, AdoptView(2, nv));
    run := TakeLocal(run, r, r, p, net, AdoptView(3, nv));
  }

  /** Its faulty leader gives the number to another request all the same, and the others accept. */
  lemma GivenAgain() returns (run: Run)
    ensures Shows(run, At(2, 2, false, 2, PRE_PREPARED, AGAIN), At(2, 2, false, 2, PRE_PREPARED, AGAIN),
                  At(2, 2, false, 2, PRE_PREPARED, AGAIN),
                  NOTHING.(commits := COMMITS))
  {
    run := SecondView();
    var p, r := At(2, 2, false, 2, PREPARED, FIRST), At(2, 2, false, 2, PRE_PREPARED, AGAIN);
    NetGrows(FOUR, run.groups[|run.actions|], FaultyPrePrepare(AGAIN));
    run := Take(run, FaultyPrePrepare(AGAIN));
    var net := NOTHING.(pre := {AGAIN}, commits := COMMITS);
    run := TakeLocal(run, p, p, p, net, Accept(0, AGAIN));
    run := TakeLocal(run, r, p, p, net, Accept(2, AGAIN));
    run := TakeLocal(run, r, r, p, net, Accept(3, AGAIN));
  }

  /** Nobody reports the number any more, and the non-faulty leader of the third view starts with it,
      although all lists fit. */
  lemma Reused() returns (run: Run)
    ensures FOUR.Valid() && run.Of(FOUR) && run.NoRetransmission() && ListsChecked(FOUR, run)
    ensures !NeverReused(FOUR, run)
  {
    run := GivenAgain();
    run := Changed(run, 2, 2, 2, PRE_PREPARED, AGAIN, 2, NOTHING.(commits := COMMITS));
    var nv := Offer(3, PRE_PREPARED, AGAIN);
    var p := At(2, 2, true, 3, PRE_PREPARED, AGAIN);
    OfferFits(3, PRE_PREPARED, AGAIN);
    run := TakeLocal(run, p, p, p, NOTHING.(commits := COMMITS, nvs := {nv}), AdoptView(2, nv));
    var i := |run.actions|;
    var commits := run.groups[i].net.commits;
    assert Vote(1, 1, Of(0), 0) in commits && Vote(1, 1, Of(0), 2) in commits && Vote(1, 1, Of(0), 3) in commits;
    SubsetSize({0, 2, 3}, Signers(FOUR, commits, 1, 1, Of(0)));
    SubsetSize(FOUR.honest, FOUR.All());
    assert CountsAbove(FOUR, run.groups[i], 1, 1, Of(0), 2) == false;
  }

  /** Replica `r`, if it is in a later view, counts from above what was committed at `n` in view `w`. */
  ghost predicate CountsAbove(su: Setup, g: Group, w: nat, n: nat, digest: Digest, r: nat) {
    r in su.honest && r < |g.replicas| && g.replicas[r].view > w
        && |Signers(su, g.net.commits, w, n, digest)| >= 2 * su.f + 1 ==>
      g.replicas[r].next > n
  }

  ghost predicate NeverReused(su: Setup, run: Run) {
    forall i, w: nat, n: nat, digest, r: nat | 0 <= i < |run.groups| :: CountsAbove(su, run.groups[i], w, n, digest, r)
  }

  /***** A faulty sender whose list does not fit *****/

  /** A step that all non-faulty replicas of a group take, one after the other. */
  datatype Round = Leave(view: nat) | Hear(pp: PrePrepare) | Sign(cert: set<Vote>) | Enter(nv: NewView)

  function Act(round: Round, r: nat): Action {
    match round
    case Leave(view) => StartView(r, view)
    case Hear(pp) => Accept(r, pp)
    case Sign(cert) => Prepared(r, 1, cert)
    case Enter(nv) => AdoptView(r, nv)
  }

  /** A non-faulty replica in state `p` may take the step. */
  ghost predicate Ready(su: Setup, who: set<nat>, round: Round, p: State, net: Net) {
    match round
    case Leave(view) => CanStartView(p, view)
    case Hear(pp) =>
      && pp in net.pre && CanAccept(p, pp) && pp.num !in p.log && pp.num >= p.next
      && su.Leader(pp.view) !in who
    case Sign(cert) => Current(p, 1) && cert <= net.prepares && HasPrepares(su, cert, p.log[1], 1)
    case Enter(nv) => nv in net.nvs && nv.sender == su.Leader(p.view) && nv.view > p.view && nv.view >= p.newView
  }

  /** The message of replica `r` in this round has been sent. */
  predicate SentBy(round: Round, p: State, net: Net, r: nat) {
    match round
    case Leave(view) => ViewChange(view, r, PreparedOf(p)) in net.vcs
    case Hear(pp) => Vote(pp.view, pp.num, pp.digest, r) in net.prepares
    case Sign(cert) => 1 in p.log && Vote(p.view, 1, p.log[1].digest, r) in net.commits
    case Enter(nv) => true
  }

  /** Of the replicas that take the step, those that are still to take it are in state `p`, the others in
      state `p'`. */
  ghost predicate Halfway(su: Setup, g: Group, who: set<nat>, todo: set<nat>, round: Round, p: State, p': State) {
    && |g.replicas| == su.N() && todo <= who <= su.honest <= su.All()
    && (forall r | r in todo :: g.replicas[r] == p)
    && (forall r | r in who - todo :: g.replicas[r] == p' && SentBy(round, p, g.net, r))
    && Ready(su, who, round, p, g.net)
  }

  ghost predicate Runs(su: Setup, run: Run) {
    run.Of(su) && run.NoRetransmission() && NumbersChecked(su, run)
  }

  predicate Grown(net: Net, net': Net) {
    net.pre <= net'.pre && net.prepares <= net'.prepares && net.commits <= net'.commits && net.vcs <= net'.vcs
        && net.nvs <= net'.nvs
  }

  /** The other replicas stay as they are. */
  predicate SameOutside(g: Group, g': Group, who: set<nat>) {
    |g'.replicas| == |g.replicas| && forall r | 0 <= r < |g.replicas| && r !in who :: g'.replicas[r] == g.replicas[r]
  }

  lemma OneMore(su: Setup, g: Group, who: set<nat>, todo: set<nat>, round: Round, p: State, r: nat)
    requires su.Valid() && Halfway(su, g, who, todo, round, p, Local(su, p, Act(round, 0))) && r in todo
    ensures Enabled(su, g, Act(round, r)) && NumberChecked(su, g, Act(round, r))
    ensures Halfway(su, Do(su, g, Act(round, r)), who, todo - {r}, round, p, Local(su, p, Act(round, 0)))
    ensures Grown(g.net, Do(su, g, Act(round, r)).net)
    ensures SameOutside(g, Do(su, g, Act(round, r)), who)
  {
    NetGrows(su, g, Act(round, r));
    assert r in su.All();
  }

  /** All of them take it. */
  lemma {:induction false} Sweep(su: Setup, run: Run, who: set<nat>, todo: set<nat>, round: Round, p: State)
    returns (run': Run)
    requires su.Valid() && Runs(su, run)
    requires Halfway(su, run.groups[|run.actions|], who, todo, round, p, Local(su, p, Act(round, 0)))
    ensures Runs(su, run') && Halfway(su, run'.groups[|run'.actions|], who, {}, round, p, Local(su, p, Act(round, 0)))
    ensures Grown(run.groups[|run.actions|].net, run'.groups[|run'.actions|].net)
    ensures SameOutside(run.groups[|run.actions|], run'.groups[|run'.actions|], who)
    decreases todo
  {
    if todo == {} {
      run' := run;
    } else {
      var r :| r in todo;
      OneMore(su, run.groups[|run.actions|], who, todo, round, p, r);
      run' := Extended(su, run, Act(round, r));
      run' := Sweep(su, run', who, todo - {r}, round, p);
    }
  }

  /** These replicas are in this state, and these messages have been sent. */
  ghost predicate These(su: Setup, run: Run, who: set<nat>, p: State, net: Net) {
    && Runs(su, run)
    && var g := run.groups[|run.actions|];
    && |g.replicas| == su.N() && (forall r | r in who :: r < |g.replicas| && g.replicas[r] == p)
    && Grown(net, g.net)
  }

  /** All non-faulty replicas are. */
  ghost predicate Everyone(su: Setup, run: Run, p: State, net: Net) {
    These(su, run, su.honest, p, net)
  }

  lemma SweepThese(su: Setup, run: Run, who: set<nat>, round: Round, p: State, net: Net) returns (run': Run)
    requires su.Valid() && who <= su.honest && These(su, run, who, p, net) && Ready(su, who, round, p, net)
    ensures These(su, run', who, Local(su, p, Act(round, 0)), net)
    ensures forall r | r in who :: SentBy(round, p, run'.groups[|run'.actions|].net, r)
    ensures SameOutside(run.groups[|run.actions|], run'.groups[|run'.actions|], who)
  {
    assert forall r | r in su.honest :: r in su.All();
    run' := Sweep(su, run, who, who, round, p);
  }

  lemma SweepAll(su: Setup, run: Run, round: Round, p: State, net: Net) returns (run': Run)
    requires su.Valid() && Everyone(su, run, p, net) && Ready(su, su.honest, round, p, net)
    ensures Everyone(su, run', Local(su, p, Act(round, 0)), net)
    ensures forall r | r in su.honest :: SentBy(round, p, run'.groups[|run'.actions|].net, r)
  {
    run' := SweepThese(su, run, su.honest, round, p, net);
  }

  /** A faulty replica sends something. */
  lemma FaultySends(su: Setup, run: Run, a: Action, p: State, net: Net) returns (run': Run)
    requires su.Valid() && Everyone(su, run, p, net) && (a.FaultyPrePrepare? || a.OfferView?)
    requires Enabled(su, run.groups[|run.actions|], a)
    ensures Everyone(su, run', p, Sent(net, Init(), a))
  {
    run' := Extended(su, run, a);
    NetGrows(su, run.groups[|run.actions|], a);
  }

  /** The view changes of all non-faulty replicas. */
  function AllLeave(su: Setup, view: nat, prepared: map<nat, Digest>): set<ViewChange> {
    set r | r in su.honest :: ViewChange(view, r, prepared)
  }

  lemma AllSenders(su: Setup, view: nat, prepared: map<nat, Digest>)
    requires su.Valid()
    ensures |Senders(AllLeave(su, view, prepared)) * su.All()| >= 2 * su.f + 1
  {
    forall r | r in su.honest ensures r in Senders(AllLeave(su, view, prepared)) {
      assert ViewChange(view, r, prepared) in AllLeave(su, view, prepared);
    }
    SubsetSize(su.honest, Senders(AllLeave(su, view, prepared)) * su.All());
  }

  function AllVote(su: Setup, view: nat): set<Vote> {
    set r | r in su.honest :: Vote(view, 1, Of(0), r)
  }

  lemma AllVoters(su: Setup, votes: set<Vote>, view: nat)
    requires su.Valid() && AllVote(su, view) <= votes
    ensures |Signers(su, votes, view, 1, Of(0))| >= 2 * su.f + 1
    ensures su.Leader(view) !in su.honest ==> |Backers(su, votes, view, 1, Of(0))| >= 2 * su.f + 1
  {
    forall r | r in su.honest ensures r in Voters(votes, view, 1, Of(0)) {
      assert Vote(view, 1, Of(0), r) in AllVote(su, view);
    }
    SubsetSize(su.honest, Signers(su, votes, view, 1, Of(0)));
    if su.Leader(view) !in su.honest {
      SubsetSize(su.honest, Backers(su, votes, view, 1, Of(0)));
    }
  }

  /** A replica that has entered a view and done nothing in it. */
  function Entered(view: nat, newView: nat): State {
    State(view, 1, false, newView, map[], map[], map[], map[])
  }

  /** They leave their view. */
  lemma LeaveAll(su: Setup, run: Run, view: nat, p: State, net: Net) returns (run': Run)
    requires su.Valid() && Everyone(su, run, p, net) && CanStartView(p, view)
    ensures Everyone(su, run', Replica.StartView(p, view), net.(vcs := net.vcs + AllLeave(su, view, PreparedOf(p))))
  {
    run' := SweepAll(su, run, Leave(view), p, net);
  }

  /** A new view with an empty list is offered, by a faulty sender or because nothing is reported. */
  lemma OfferEmpty(su: Setup, run: Run, view: nat, p: State, prepared: map<nat, Digest>, sender: nat, net: Net)
    returns (run': Run)
    requires su.Valid() && Everyone(su, run, p, net) && AllLeave(su, view, prepared) <= net.vcs
    requires sender in su.honest ==> prepared == map[] && view > p.view && sender == su.Leader(p.view)
    ensures Everyone(su, run', p, net.(nvs := net.nvs + {NewView(view, sender, AllLeave(su, view, prepared), [])}))
  {
    var nv := NewView(view, sender, AllLeave(su, view, prepared), []);
    AllSenders(su, view, prepared);
    if sender in su.honest {
      assert Reported(nv) == {};
    }
    NetGrows(su, run.groups[|run.actions|], OfferView(nv));
    run' := Extended(su, run, OfferView(nv));
  }

  /** All non-faulty replicas get to the view that the faulty replica `q` leads. */
  lemma GetThere(su: Setup, q: nat) returns (run: Run, newView: nat)
    requires su.Valid() && q in su.All() && q !in su.honest
    ensures newView <= q + 1 && Everyone(su, run, Entered(q + 1, newView), NOTHING)
  {
    run, newView := Run([InitGroup(su)], []), 0;
    assert forall r | r in su.honest :: r in su.All();
    assert Everyone(su, run, Init(), NOTHING);
    if q != 0 {
      newView := q + 1;
      run := Skip(su, run, q + 1);
    }
  }

  /** The new view in which nothing is reported, sent by the leader of the first. */
  function EmptyView(su: Setup, view: nat): NewView {
    NewView(view, 0, AllLeave(su, view, map[]), [])
  }

  /** From the first view straight to a later one, with nothing done. */
  lemma Skip(su: Setup, run: Run, view: nat) returns (run': Run)
    requires su.Valid() && Everyone(su, run, Init(), NOTHING) && view > 1
    ensures Everyone(su, run', Entered(view, view), NOTHING.(nvs := {EmptyView(su, view)}))
  {
    run' := LeaveAll(su, run, view, Init(), NOTHING);
    assert PreparedOf(Init()) == map[];
    var certs := AllLeave(su, view, map[]);
    var nv := EmptyView(su, view);
    var p := Replica.StartView(Init(), view);
    assert NOTHING.vcs + certs == certs;
    LeaderOf(su, 0);
    run' := OfferEmpty(su, run', view, p, map[], 0, NOTHING.(vcs := certs));
    run' := SweepAll(su, run', Enter(nv), p, NOTHING.(vcs := certs, nvs := {nv}));
    assert Local(su, p, Act(Enter(nv), 0)) == Entered(view, view);
  }

  function Request(view: nat): PrePrepare {
    PrePrepare(view, 1, Of(0), Plain)
  }

  /** A replica with one entry. */
  function WithEntry(view: nat, changing: bool, newView: nat, stage: nat): State {
    State(view, 1, changing, newView, map[1 := LogEntry(view, stage, Of(0))], map[1 := Request(view)], map[], map[])
  }

  /** They accept the proposal of the faulty leader. */
  lemma HearAll(su: Setup, run: Run, view: nat, newView: nat) returns (run': Run)
    requires su.Valid() && Everyone(su, run, Entered(view, newView), NOTHING) && su.Leader(view) !in su.honest
    ensures Everyone(su, run', WithEntry(view, false, newView, PRE_PREPARED), NOTHING.(prepares := AllVote(su, view)))
  {
    var p := Entered(view, newView);
    run' := FaultySends(su, run, FaultyPrePrepare(Request(view)), p, NOTHING);
    run' := SweepAll(su, run', Hear(Request(view)), p, NOTHING.(pre := {Request(view)}));
    assert Local(su, p, Act(Hear(Request(view)), 0)) == WithEntry(view, false, newView, PRE_PREPARED);
  }

  /** They prepare it and sign commits. */
  lemma SignAll(su: Setup, run: Run, view: nat, newView: nat) returns (run': Run)
    requires su.Valid() && su.Leader(view) !in su.honest && newView <= view
    requires Everyone(su, run, WithEntry(view, false, newView, PRE_PREPARED), NOTHING.(prepares := AllVote(su, view)))
    ensures Everyone(su, run', WithEntry(view, false, newView, PREPARED), NOTHING.(commits := AllVote(su, view)))
  {
    var p, votes := WithEntry(view, false, newView, PRE_PREPARED), AllVote(su, view);
    CanSign(su, view, newView);
    run' := SweepAll(su, run, Sign(votes), p, NOTHING.(prepares := votes));
  }

  lemma CanSign(su: Setup, view: nat, newView: nat)
    requires su.Valid() && su.Leader(view) !in su.honest && newView <= view
    ensures var p, votes := WithEntry(view, false, newView, PRE_PREPARED), AllVote(su, view);
            && Ready(su, su.honest, Sign(votes), p, NOTHING.(prepares := votes))
            && Local(su, p, Act(Sign(votes), 0)) == WithEntry(view, false, newView, PREPARED)
  {
    var e := LogEntry(view, PRE_PREPARED, Of(0));
    AllVoters(su, AllVote(su, view), view);
    assert HasPrepares(su, AllVote(su, view), e, 1);
  }

  /** They leave again, and `q`, as the leader of the view that is left, offers a new view with an empty list. */
  lemma OfferedAgain(su: Setup, q: nat) returns (run: Run, newView: nat)
    requires su.Valid() && q in su.All() && q !in su.honest
    ensures newView <= q + 1
    ensures Everyone(su, run, Replica.StartView(WithEntry(q + 1, false, newView, PREPARED), q + 2),
                NOTHING.(commits := AllVote(su, q + 1),
                         nvs := {NewView(q + 2, q, AllLeave(su, q + 2, map[1 := Of(0)]), [])}))
  {
    var view := q + 1;
    run, newView := GetThere(su, q);
    LeaderOf(su, q);
    run := HearAll(su, run, view, newView);
    run := SignAll(su, run, view, newView);
    var p := WithEntry(view, false, newView, PREPARED);
    run := LeaveAll(su, run, view + 1, p, NOTHING.(commits := AllVote(su, view)));
    assert PreparedOf(p) == map[1 := Of(0)];
    var left := AllLeave(su, view + 1, map[1 := Of(0)]);
    assert NOTHING.vcs + left == left;
    run := OfferEmpty(su, run, view + 1, Replica.StartView(p, view + 1), map[1 := Of(0)], q,
                      NOTHING.(commits := AllVote(su, view), vcs := left));
  }

  lemma LeaderOf(su: Setup, q: nat)
    requires q in su.All()
    ensures su.Leader(q + 1) == q
  {
    SmallRemainder(q, su.N());
  }

  lemma SmallRemainder(x: nat, n: nat)
    requires x < n
    ensures x % n == x
  {
  }

  /** Whoever adopts that view starts again at the number that is committed. */
  lemma FaultySenderReuses(su: Setup, q: nat) returns (run: Run)
    requires su.Valid() && q in su.All() && q !in su.honest
    ensures run.Of(su) && run.NoRetransmission() && NumbersChecked(su, run) && !NeverReused(su, run)
  {
    var newView;
    run, newView := OfferedAgain(su, q);
    LeaderOf(su, q);
    var nv := NewView(q + 2, q, AllLeave(su, q + 2, map[1 := Of(0)]), []);
    var h :| h in su.honest;
    var g := run.groups[|run.actions|];
    AllVoters(su, g.net.commits, q + 1);
    run := Extended(su, run, AdoptView(h, nv));
    assert !CountsAbove(su, run.groups[|run.actions|], q + 1, 1, Of(0), h);
  }

  /** A committed number is never given out again, in all runs of a group, if and only if none of its
      replicas is faulty. Runs adopt only new views above the replica's own (`LateViewRepeats`). */
  lemma ExactCondition(su: Setup)
    requires su.Valid()
    ensures (forall run: Run | run.Of(su) && run.NoRetransmission() :: NeverReused(su, run)) <==> su.honest == su.All()
  {
    if su.honest == su.All() {
      forall run: Run | run.Of(su) && run.NoRetransmission() ensures NeverReused(su, run) {
        NobodyFaulty(su, run);
      }
    } else {
      var q :| q in su.All() && q !in su.honest;
      var run := FaultySenderReuses(su, q);
      assert !NeverReused(su, run);
    }
  }

  /** If the checks are made, or nothing needs checking, no committed number is given out again. */
  lemma CheckedNeverReuses(su: Setup, run: Run)
    requires su.Valid() && run.Of(su) && run.NoRetransmission() && ListsChecked(su, run) && NumbersChecked(su, run)
    ensures NeverReused(su, run)
  {
    forall i, w: nat, n: nat, digest, r: nat | 0 <= i < |run.groups|
      ensures CountsAbove(su, run.groups[i], w, n, digest, r)
    {
      if r in su.honest && r < |run.groups[i].replicas|
          && |Signers(su, run.groups[i].net.commits, w, n, digest)| >= 2 * su.f + 1 {
        NoReuse(su, run, i, w, n, digest, r);
      }
    }
  }

  lemma NobodyFaulty(su: Setup, run: Run)
    requires su.Valid() && su.honest == su.All() && run.Of(su) && run.NoRetransmission()
    ensures NeverReused(su, run)
  {
    forall i | 0 <= i < |run.actions|
      ensures ListChecked(su, run.actions[i]) && NumberChecked(su, run.groups[i], run.actions[i])
    {
      assert Step(su, run.groups[i], run.actions[i], run.groups[i + 1]);
    }
    CheckedNeverReuses(su, run);
  }
  /***** A new view that comes late *****/

  /** Everyone is in the second view that replica 0 leads, and it has proposed a request. */
  lemma SecondTurn(su: Setup) returns (run: Run)
    requires su.Valid() && 0 in su.honest
    ensures Runs(su, run)
    ensures var g, view := run.groups[|run.actions|], su.N() + 1;
            && These(su, run, su.honest - {0}, Entered(view, view),
                     NOTHING.(nvs := {EmptyView(su, view)}, pre := {Request(view)}))
            && g.replicas[0] == Replica.Propose(Entered(view, view), Of(0), Plain)
  {
    var view := su.N() + 1;
    run := Run([InitGroup(su)], []);
    assert forall r | r in su.honest :: r in su.All();
    assert Everyone(su, run, Init(), NOTHING);
    run := Skip(su, run, view);
    BackToFirst(su);
    NetGrows(su, run.groups[|run.actions|], Consensus.Propose(0, Of(0), Plain));
    run := Extended(su, run, Consensus.Propose(0, Of(0), Plain));
  }

  lemma BackToFirst(su: Setup)
    ensures su.Leader(su.N() + 1) == 0 && su.Leader(1) == 0
  {
    assert su.N() % su.N() == 0;
  }

  function VotesBy(who: set<nat>, view: nat): set<Vote> {
    set r | r in who :: Vote(view, 1, Of(0), r)
  }

  lemma BackupsBack(su: Setup, view: nat)
    requires su.Valid() && 0 in su.honest && su.Leader(view) == 0
    ensures HasPrepares(su, VotesBy(su.honest - {0}, view), LogEntry(view, PRE_PREPARED, Of(0)), 1)
  {
    var who, votes := su.honest - {0}, VotesBy(su.honest - {0}, view);
    forall r | r in who ensures r in Backers(su, votes, view, 1, Of(0)) {
      assert Vote(view, 1, Of(0), r) in votes;
    }
    SubsetSize(who, Backers(su, votes, view, 1, Of(0)));
  }

  /** What has been sent then, apart from the votes. */
  function Turn(su: Setup): Net {
    NOTHING.(nvs := {EmptyView(su, su.N() + 1)}, pre := {Request(su.N() + 1)})
  }

  /** The leader after its proposal. */
  function Leading(su: Setup): State {
    Replica.Propose(Entered(su.N() + 1, su.N() + 1), Of(0), Plain)
  }

  /** The backups accept it, */
  lemma BackupsHear(su: Setup) returns (run: Run)
    requires su.Valid() && 0 in su.honest
    ensures var view := su.N() + 1;
            && These(su, run, su.honest - {0}, WithEntry(view, false, view, PRE_PREPARED),
                     Turn(su).(prepares := VotesBy(su.honest - {0}, view)))
            && run.groups[|run.actions|].replicas[0] == Leading(su)
  {
    var view, who := su.N() + 1, su.honest - {0};
    run := SecondTurn(su);
    BackToFirst(su);
    HearsRequest(su);
    run := SweepThese(su, run, who, Hear(Request(view)), Entered(view, view), Turn(su));
  }

  lemma HearsRequest(su: Setup)
    requires su.Leader(su.N() + 1) == 0
    ensures var view := su.N() + 1;
            && Ready(su, su.honest - {0}, Hear(Request(view)), Entered(view, view), Turn(su))
            && Local(su, Entered(view, view), Act(Hear(Request(view)), 0)) == WithEntry(view, false, view, PRE_PREPARED)
  {
  }

  /** and sign commits. */
  lemma BackupsSign(su: Setup) returns (run: Run)
    requires su.Valid() && 0 in su.honest
    ensures var view := su.N() + 1;
            && These(su, run, su.honest - {0}, WithEntry(view, false, view, PREPARED),
                     Turn(su).(prepares := VotesBy(su.honest - {0}, view), commits := VotesBy(su.honest - {0}, view)))
            && run.groups[|run.actions|].replicas[0] == Leading(su)
  {
    var view, who := su.N() + 1, su.honest - {0};
    run := BackupsHear(su);
    BackToFirst(su);
    SignsRequest(su);
    run := SweepThese(su, run, who, Sign(VotesBy(who, view)), WithEntry(view, false, view, PRE_PREPARED),
                      Turn(su).(prepares := VotesBy(who, view)));
  }

  lemma SignsRequest(su: Setup)
    requires su.Valid() && 0 in su.honest && su.Leader(su.N() + 1) == 0
    ensures var view, who := su.N() + 1, su.honest - {0};
            var p, votes := WithEntry(view, false, view, PRE_PREPARED), VotesBy(who, view);
            && Ready(su, who, Sign(votes), p, Turn(su).(prepares := votes))
            && Local(su, p, Act(Sign(votes), 0)) == WithEntry(view, false, view, PREPARED)
  {
    BackupsBack(su, su.N() + 1);
  }

  /** The leader signs, too: the request is committed. */
  lemma AllSign(su: Setup) returns (run: Run)
    requires su.Valid() && 0 in su.honest
    ensures Runs(su, run)
    ensures var g, view := run.groups[|run.actions|], su.N() + 1;
            && |g.replicas| == su.N() && EmptyView(su, view) in g.net.nvs && Request(view) in g.net.pre
            && |Signers(su, g.net.commits, view, 1, Of(0))| >= 2 * su.f + 1
            && g.replicas[0] == UpdateLog(Leading(su), 1, PREPARED)
  {
    var view := su.N() + 1;
    run := BackupsSign(su);
    var g, a := run.groups[|run.actions|], Prepared(0, 1, VotesBy(su.honest - {0}, view));
    LeaderSigns(su, g);
    NetGrows(su, g, a);
    run := Extended(su, run, a);
    AllVoters(su, run.groups[|run.actions|].net.commits, view);
  }

  lemma LeaderSigns(su: Setup, g: Group)
    requires su.Valid() && 0 in su.honest && |g.replicas| == su.N() && g.replicas[0] == Leading(su)
    requires VotesBy(su.honest - {0}, su.N() + 1) <= g.net.prepares
    requires VotesBy(su.honest - {0}, su.N() + 1) <= g.net.commits
    ensures var a := Prepared(0, 1, VotesBy(su.honest - {0}, su.N() + 1));
            && Enabled(su, g, a) && AllVote(su, su.N() + 1) <= Do(su, g, a).net.commits
            && Do(su, g, a).replicas[0] == UpdateLog(Leading(su), 1, PREPARED)
  {
    var view, a := su.N() + 1, Prepared(0, 1, VotesBy(su.honest - {0}, su.N() + 1));
    BackToFirst(su);
    BackupsBack(su, view);
    forall v | v in AllVote(su, view) ensures v in Do(su, g, a).net.commits {
      assert v.node != 0 ==> v in VotesBy(su.honest - {0}, view);
    }
  }

  /** The third comparison that is missing is between views. In every group whose first leader is not
      faulty, also when nobody is, there is a run after which this leader, leading again, has had a
      request committed at a number; the new view that began its turn, when it is delivered once more,
      passes everything the handler looks at, and the leader proposes another request at that number of
      that view. */
  lemma LateViewRepeats(su: Setup) returns (run: Run, nv: NewView)
    requires su.Valid() && 0 in su.honest
    ensures run.Of(su) && run.NoRetransmission()
    ensures var g := run.groups[|run.actions|];
            && |g.replicas| > 0 && nv in g.net.nvs && Fits(nv) && nv.sender == su.Leader(g.replicas[0].view) == 0
            && |Signers(su, g.net.commits, g.replicas[0].view, 1, Of(0))| >= 2 * su.f + 1
            && PrePrepare(g.replicas[0].view, 1, Of(0), Plain) in g.net.pre
            && var late := Replica.AdoptView(g.replicas[0], nv.view, NextAfter(nv.list));
               !late.changing && Proposal(late, Of(1), Plain) == PrePrepare(g.replicas[0].view, 1, Of(1), Plain)
  {
    run := AllSign(su);
    nv := EmptyView(su, su.N() + 1);
    BackToFirst(su);
    assert Reported(nv) == {};
  }
}

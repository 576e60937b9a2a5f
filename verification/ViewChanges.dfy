/** Changing views: a number that has been committed is never given out again. */
module ViewChanges {
  import opened Transfers
  import opened Messages
  import opened Replica
  import opened Consensus

  /** The number `n` lies at or above the start of view `view`. */
  ghost predicate Started(net: Net, view: nat, n: nat) {
    view == 1 || exists nv | nv in net.nvs :: nv.view == view && Fits(nv) && n >= NextOf(nv)
  }

  /** A non-faulty replica has proposed or accepted a request for this number in this view. */
  ghost predicate GivenOut(su: Setup, net: Net, view: nat, n: nat) {
    || (exists pp | pp in net.pre :: pp.view == view && pp.num == n && su.Leader(view) in su.honest)
    || (exists v | v in net.prepares :: v.view == view && v.num == n && v.node in su.honest)
  }

  /** This number was given out again in a view strictly between the two. */
  ghost predicate Overwritten(su: Setup, net: Net, n: nat, lo: nat, hi: nat) {
    exists u: nat :: lo < u < hi && GivenOut(su, net, u, n)
  }

  /** The log still shows what the replica signed a commit for, or a later view's entry. */
  predicate Remembers(r: Replica.State, v: Vote) {
    && 1 <= v.view
    && v.num in r.log && r.log[v.num].view >= v.view
    && (r.log[v.num].view == v.view ==> r.log[v.num].stage >= PREPARED)
  }

  /** A view change reports every number its sender had signed a commit for in an earlier view,
      unless a view in between has used the number again. */
  ghost predicate Reports(su: Setup, net: Net, vc: ViewChange, v: Vote) {
    v.node == vc.node && v.view < vc.view ==> v.num in vc.prepared || Overwritten(su, net, v.num, v.view, vc.view)
  }

  ghost predicate ReplicaOk(su: Setup, net: Net, r: Replica.State) {
    && r.view >= 1 && r.next >= 1 && (!r.changing ==> r.newView <= r.view)
    && (forall n | n in r.log :: GivenOut(su, net, r.log[n].view, n))
  }

  ghost predicate CommitOk(su: Setup, g: Group, v: Vote) {
    v.node in su.honest && v.node < |g.replicas| ==> Remembers(g.replicas[v.node], v)
  }

  ghost predicate ChangeOk(su: Setup, g: Group, vc: ViewChange) {
    vc.node in su.honest && vc.node < |g.replicas| ==>
      vc.view <= g.replicas[vc.node].newView && forall v | v in g.net.commits :: Reports(su, g.net, vc, v)
  }

  ghost predicate OfferOk(su: Setup, net: Net, nv: NewView) {
    && nv.certs <= net.vcs && |Senders(nv.certs) * su.All()| >= 2 * su.f + 1
    && (nv.sender in su.honest ==> Fits(nv))
  }

  ghost predicate ViewInv(su: Setup, g: Group) {
    && (forall i | i in su.honest && i < |g.replicas| :: ReplicaOk(su, g.net, g.replicas[i]))
    && (forall v | v in g.net.commits :: CommitOk(su, g, v))
    && (forall vc | vc in g.net.vcs :: ChangeOk(su, g, vc))
    && (forall nv | nv in g.net.nvs :: OfferOk(su, g.net, nv))
  }

  lemma GivenStays(su: Setup, net: Net, net': Net, view: nat, n: nat)
    requires net.pre <= net'.pre && net.prepares <= net'.prepares && GivenOut(su, net, view, n)
    ensures GivenOut(su, net', view, n)
  {
    if v :| v in net.prepares && v.view == view && v.num == n && v.node in su.honest {
      assert v in net'.prepares;
    } else {
      var pp :| pp in net.pre && pp.view == view && pp.num == n && su.Leader(view) in su.honest;
      assert pp in net'.pre;
    }
  }

  lemma OverwrittenStays(su: Setup, net: Net, net': Net, n: nat, lo: nat, hi: nat)
    requires net.pre <= net'.pre && net.prepares <= net'.prepares && Overwritten(su, net, n, lo, hi)
    ensures Overwritten(su, net', n, lo, hi)
  {
    var u: nat :| lo < u < hi && GivenOut(su, net, u, n);
    GivenStays(su, net, net', u, n);
  }

  lemma StartedStays(net: Net, net': Net, view: nat, n: nat, m: nat)
    requires net.nvs <= net'.nvs && Started(net, view, n) && n <= m
    ensures Started(net', view, m)
  {
    if view != 1 {
      var nv :| nv in net.nvs && nv.view == view && Fits(nv) && n >= NextOf(nv);
      assert nv in net'.nvs && m >= NextOf(nv);
    }
  }

  /** A replica gives a number out when it proposes or accepts, and by no other step. */
  lemma LocalGives(su: Setup, r: Replica.State, net: Net, a: Action, n: nat)
    requires IsLocal(a) && a.r in su.honest && n in Local(su, r, a).log
    requires forall m | m in r.log :: GivenOut(su, net, r.log[m].view, m)
    requires a.Propose? ==> a.r == su.Leader(r.view)
    requires a.Accept? ==> a.pp.view == r.view
    requires a.Again? ==> a.num in r.log && r.log[a.num].view == r.view
    ensures GivenOut(su, Sent(net, r, a), Local(su, r, a).log[n].view, n)
  {
    if a.Propose? && n == r.next {
      assert Proposal(r, a.digest, a.st) in Sent(net, r, a).pre;
    } else if a.Accept? && n == a.pp.num {
      assert Vote(a.pp.view, a.pp.num, a.pp.digest, a.r) in Sent(net, r, a).prepares;
    } else {
      ViewsStay(su, r, a, n);
      SendsMore(net, r, a);
      GivenStays(su, net, Sent(net, r, a), r.log[n].view, n);
    }
  }

  lemma SendsMore(net: Net, r: Replica.State, a: Action)
    ensures net.pre <= Sent(net, r, a).pre && net.prepares <= Sent(net, r, a).prepares
  {
  }

  /** The other steps leave every entry in its view. */
  lemma ViewsStay(su: Setup, r: Replica.State, a: Action, n: nat)
    requires IsLocal(a) && n in Local(su, r, a).log
    requires a.Propose? ==> n != r.next
    requires a.Accept? ==> n != a.pp.num
    requires a.Again? ==> a.num in r.log && r.log[a.num].view == r.view
    ensures n in r.log && Local(su, r, a).log[n].view == r.log[n].view
  {
    if a.Committed? {
      CommittedViews(if a.r == su.Leader(r.view) then Keep(r, a.num, a.cert) else r, a.num, a.enough, n);
    }
  }

  lemma CommittedViews(r: Replica.State, num: nat, enough: bool, n: nat)
    requires n in AfterCommits(r, num, enough).log
    ensures n in r.log && AfterCommits(r, num, enough).log[n].view == r.log[n].view
  {
  }

  lemma StepReplica(su: Setup, g: Group, a: Action, i: nat)
    requires Inv(su, g) && ViewInv(su, g) && Enabled(su, g, a) && i in su.honest && i < |g.replicas|
    ensures ReplicaOk(su, Do(su, g, a).net, Do(su, g, a).replicas[i])
  {
    var r, r', net' := g.replicas[i], Do(su, g, a).replicas[i], Do(su, g, a).net;
    NetGrows(su, g, a);
    assert ReplicaOk(su, g.net, r);
    if IsLocal(a) && a.r == i {
      ViewFields(su, r, a);
      forall n | n in r'.log ensures GivenOut(su, net', r'.log[n].view, n) {
        LocalGives(su, r, g.net, a, n);
      }
    } else {
      forall n | n in r'.log ensures GivenOut(su, net', r'.log[n].view, n) {
        GivenStays(su, g.net, net', r.log[n].view, n);
      }
    }
  }

  lemma ViewFields(su: Setup, r: Replica.State, a: Action)
    requires IsLocal(a)
    ensures var r' := Local(su, r, a);
            && (!a.AdoptView? ==> r'.view == r.view && r'.next >= r.next)
            && (!a.AdoptView? && !a.StartView? ==> r'.changing == r.changing && r'.newView == r.newView)
            && (a.StartView? ==> r'.changing && r'.newView == a.view)
            && (a.AdoptView? ==>
                  !r'.changing && r'.newView == r.newView && r'.view == a.nv.view && r'.next == NextAfter(a.nv.list))
  {
  }

  lemma LocalRemembers(su: Setup, r: Replica.State, a: Action, v: Vote)
    requires IsLocal(a) && !a.Again? && Remembers(r, v) && v.view <= r.view
    requires a.Propose? ==> v.num == r.next ==> r.view > v.view
    requires a.Accept? ==> v.num == a.pp.num ==> r.view > v.view
    ensures Remembers(Local(su, r, a), v)
  {
    match a
    case Committed(i, num, cert, enough) =>
      CommittedRemembers(if i == su.Leader(r.view) then Keep(r, num, cert) else r, num, enough, v);
    case _ =>
  }

  lemma CommittedRemembers(r: Replica.State, num: nat, enough: bool, v: Vote)
    requires Remembers(r, v)
    ensures Remembers(AfterCommits(r, num, enough), v)
  {
  }

  lemma StepCommit(su: Setup, g: Group, a: Action, v: Vote)
    requires Inv(su, g) && ViewInv(su, g) && Enabled(su, g, a) && !a.Again? && v in Do(su, g, a).net.commits
    ensures CommitOk(su, Do(su, g, a), v)
  {
    if v in g.net.commits {
      assert CommitOk(su, g, v) && VoteOk(su, g.replicas, v);
      if IsLocal(a) && a.r == v.node && v.node in su.honest {
        if a.Propose? || a.Accept? {
          FreshNumber(su, g, a);
        }
        LocalRemembers(su, g.replicas[a.r], a, v);
      }
    } else if a.Prepared? {
      assert ReplicaOk(su, g.net, g.replicas[a.r]);
    }
  }

  /** A view change sent now reports every commit signed before. */
  lemma NewChange(su: Setup, g: Group, i: nat, view: nat, v: Vote)
    requires Inv(su, g) && ViewInv(su, g) && i in su.honest && i < |g.replicas| && view > g.replicas[i].view
    requires v in g.net.commits
    ensures Reports(su, g.net, ViewChange(view, i, PreparedOf(g.replicas[i])), v)
  {
    if v.node == i {
      assert CommitOk(su, g, v) && ReplicaOk(su, g.net, g.replicas[i]);
      assert EntryOk(su, g.net, g.replicas[i], v.num);
      if v.num !in PreparedOf(g.replicas[i]) {
        assert GivenOut(su, g.net, g.replicas[i].log[v.num].view, v.num);
      }
    }
  }

  lemma StepChange(su: Setup, g: Group, a: Action, vc: ViewChange)
    requires Inv(su, g) && ViewInv(su, g) && Enabled(su, g, a) && vc in Do(su, g, a).net.vcs
    ensures ChangeOk(su, Do(su, g, a), vc)
  {
    var g' := Do(su, g, a);
    NetGrows(su, g, a);
    if vc.node in su.honest && vc.node < |g.replicas| {
      assert ReplicaOk(su, g.net, g.replicas[vc.node]);
      assert vc in g.net.vcs ==> ChangeOk(su, g, vc);
      if IsLocal(a) && a.r == vc.node {
        ViewFields(su, g.replicas[a.r], a);
      }
      forall v | v in g'.net.commits ensures Reports(su, g'.net, vc, v) {
        if v in g.net.commits {
          if vc !in g.net.vcs {
            NewChange(su, g, a.r, a.view, v);
          }
          if Overwritten(su, g.net, v.num, v.view, vc.view) {
            OverwrittenStays(su, g.net, g'.net, v.num, v.view, vc.view);
          }
        }
      }
    }
  }

  lemma StepViewInv(su: Setup, g: Group, a: Action)
    requires su.Valid() && Inv(su, g) && ViewInv(su, g) && Enabled(su, g, a) && !a.Again?
    ensures ViewInv(su, Do(su, g, a))
  {
    var g' := Do(su, g, a);
    NetGrows(su, g, a);
    forall i | i in su.honest && i < |g'.replicas| ensures ReplicaOk(su, g'.net, g'.replicas[i]) {
      StepReplica(su, g, a, i);
    }
    forall v | v in g'.net.commits ensures CommitOk(su, g', v) {
      StepCommit(su, g, a, v);
    }
    forall vc | vc in g'.net.vcs ensures ChangeOk(su, g', vc) {
      StepChange(su, g, a, vc);
    }
    forall nv | nv in g'.net.nvs ensures OfferOk(su, g'.net, nv) {
      StepOffer(su, g, a, nv);
    }
  }

  lemma StepOffer(su: Setup, g: Group, a: Action, nv: NewView)
    requires su.Valid() && |g.replicas| == su.N() && ViewInv(su, g) && Enabled(su, g, a) && nv in Do(su, g, a).net.nvs
    ensures OfferOk(su, Do(su, g, a).net, nv)
  {
    NetGrows(su, g, a);
    if nv in g.net.nvs {
      assert OfferOk(su, g.net, nv);
    } else {
      assert nv.sender in su.honest ==> nv.sender in su.All();
    }
  }

  lemma InitViewInv(su: Setup)
    ensures ViewInv(su, InitGroup(su))
  {
  }

  lemma QuorumInView(su: Setup, g: Group, w: nat, n: nat, digest: Digest)
    requires su.Valid() && Inv(su, g) && ViewInv(su, g)
    requires |Signers(su, g.net.commits, w, n, digest)| >= 2 * su.f + 1
    ensures w >= 1
  {
    var h := QuorumsMeet(su, Signers(su, g.net.commits, w, n, digest), Signers(su, g.net.commits, w, n, digest));
    assert CommitOk(su, g, Vote(w, n, digest, h));
  }

  /** A new view whose list fits its view changes starts above every number that 2f+1 replicas have
      signed commits for in an earlier view and that no view in between has given out again. */
  lemma AboveUnlessOverwritten(su: Setup, g: Group, w: nat, n: nat, digest: Digest, nv: NewView)
    requires su.Valid() && Inv(su, g) && ViewInv(su, g)
    requires |Signers(su, g.net.commits, w, n, digest)| >= 2 * su.f + 1
    requires nv in g.net.nvs && Fits(nv) && nv.view > w && !Overwritten(su, g.net, n, w, nv.view)
    ensures n < NextOf(nv) == NextAfter(nv.list)
  {
    assert OfferOk(su, g.net, nv);
    var h := QuorumsMeet(su, Senders(nv.certs) * su.All(), Signers(su, g.net.commits, w, n, digest));
    var vc :| vc in nv.certs && vc.node == h;
    var v := Vote(w, n, digest, h);
    assert v in g.net.commits && CommitOk(su, g, v) && ChangeOk(su, g, vc) && Reports(su, g.net, vc, v);
    assert n in Reported(nv);
  }

  /***** What non-faulty replicas would have to check *****/

  /** A pre-prepare of a faulty leader is accepted only at or above the number its view started at. */
  predicate NumberChecked(su: Setup, g: Group, a: Action) {
    a.Accept? && a.r < |g.replicas| && su.Leader(a.pp.view) !in su.honest ==> a.pp.num >= g.replicas[a.r].next
  }

  /** A new view of a faulty sender is adopted only if its list fits its view changes. */
  ghost predicate ListChecked(su: Setup, a: Action) {
    a.AdoptView? && a.nv.sender !in su.honest ==> Fits(a.nv)
  }

  ghost predicate ListsChecked(su: Setup, run: Run) {
    forall i | 0 <= i < |run.actions| :: ListChecked(su, run.actions[i])
  }

  ghost predicate NumbersChecked(su: Setup, run: Run) {
    |run.groups| > |run.actions| && forall i | 0 <= i < |run.actions| ::
        NumberChecked(su, run.groups[i], run.actions[i])
  }

  /** Every replica counts from where its view started. */
  ghost predicate StartInv(su: Setup, g: Group) {
    forall i | i in su.honest && i < |g.replicas| :: Started(g.net, g.replicas[i].view, g.replicas[i].next)
  }

  lemma StepStart(su: Setup, g: Group, a: Action)
    requires su.Valid() && ViewInv(su, g) && StartInv(su, g) && Enabled(su, g, a) && ListChecked(su, a)
    ensures StartInv(su, Do(su, g, a))
  {
    var g' := Do(su, g, a);
    NetGrows(su, g, a);
    forall i | i in su.honest && i < |g'.replicas| ensures Started(g'.net, g'.replicas[i].view, g'.replicas[i].next) {
      if IsLocal(a) && a.r == i {
        ViewFields(su, g.replicas[i], a);
      }
      if a.AdoptView? && a.r == i {
        assert OfferOk(su, g.net, a.nv) && a.nv in g'.net.nvs;
      } else {
        StartedStays(g.net, g'.net, g.replicas[i].view, g.replicas[i].next, g'.replicas[i].next);
      }
    }
  }

  /** Every number a non-faulty replica proposes or accepts lies at or above the start of its view. */
  ghost predicate NumberInv(su: Setup, net: Net) {
    forall view: nat, n: nat :: GivenOut(su, net, view, n) ==> Started(net, view, n)
  }

  lemma StepNumbers(su: Setup, g: Group, a: Action)
    requires su.Valid() && Inv(su, g) && ViewInv(su, g) && StartInv(su, g) && NumberInv(su, g.net)
    requires Enabled(su, g, a) && NumberChecked(su, g, a)
    ensures NumberInv(su, Do(su, g, a).net)
  {
    var net' := Do(su, g, a).net;
    NetGrows(su, g, a);
    forall view: nat, n: nat | GivenOut(su, net', view, n) ensures Started(net', view, n) {
      if GivenOut(su, g.net, view, n) {
        StartedStays(g.net, net', view, n, n);
      } else {
        NewNumber(su, g, a, view, n);
      }
    }
  }

  lemma ProposedGiven(su: Setup, net: Net, pp: PrePrepare)
    requires pp in net.pre
    ensures su.Leader(pp.view) in su.honest ==> GivenOut(su, net, pp.view, pp.num)
  {
  }

  lemma NewNumber(su: Setup, g: Group, a: Action, view: nat, n: nat)
    requires su.Valid() && Inv(su, g) && ViewInv(su, g) && StartInv(su, g) && NumberInv(su, g.net)
    requires Enabled(su, g, a) && NumberChecked(su, g, a)
    requires GivenOut(su, Do(su, g, a).net, view, n) && !GivenOut(su, g.net, view, n)
    ensures Started(Do(su, g, a).net, view, n)
  {
    NetGrows(su, g, a);
    if a.Propose? {
      StartedStays(g.net, Do(su, g, a).net, view, g.replicas[a.r].next, n);
    } else if a.Accept? {
      ProposedGiven(su, g.net, a.pp);
      StartedStays(g.net, Do(su, g, a).net, view, g.replicas[a.r].next, n);
    }
  }

  /** All of it, for runs in which both are checked. */
  ghost predicate CheckedInv(su: Setup, g: Group) {
    Inv(su, g) && ViewInv(su, g) && StartInv(su, g) && NumberInv(su, g.net)
  }

  lemma StepChecked(su: Setup, g: Group, a: Action)
    requires su.Valid() && CheckedInv(su, g) && Enabled(su, g, a) && !a.Again? && ListChecked(su, a)
             && NumberChecked(su, g, a)
    ensures CheckedInv(su, Do(su, g, a))
  {
    StepInv(su, g, a);
    StepViewInv(su, g, a);
    StepStart(su, g, a);
    StepNumbers(su, g, a);
  }

  lemma RunChecked(su: Setup, run: Run, i: nat)
    requires su.Valid() && run.Of(su) && run.NoRetransmission() && ListsChecked(su, run) && NumbersChecked(su, run)
    requires i < |run.groups|
    ensures CheckedInv(su, run.groups[i])
  {
    InitViewInv(su);
    forall g: Group, a: Action
      | CheckedInv(su, g) && !a.Again? && ListChecked(su, a) && NumberChecked(su, g, a) && Enabled(su, g, a)
      ensures CheckedInv(su, Do(su, g, a))
    {
      StepChecked(su, g, a);
    }
    Throughout(su, run, (g: Group, a: Action) => !a.Again? && ListChecked(su, a)
               && NumberChecked(su, g, a), g => CheckedInv(su, g), i);
  }

  lemma RunStart(su: Setup, run: Run, i: nat)
    requires su.Valid() && run.Of(su) && run.NoRetransmission() && ListsChecked(su, run) && i < |run.groups|
    ensures Inv(su, run.groups[i]) && ViewInv(su, run.groups[i]) && StartInv(su, run.groups[i])
  {
    InitViewInv(su);
    forall g: Group, a: Action | Inv(su, g) && ViewInv(su, g) && StartInv(su, g) && !a.Again? && ListChecked(su, a)
        && Enabled(su, g, a)
      ensures Inv(su, Do(su, g, a)) && ViewInv(su, Do(su, g, a)) && StartInv(su, Do(su, g, a))
    {
      StepInv(su, g, a);
      StepViewInv(su, g, a);
      StepStart(su, g, a);
    }
    Throughout(su, run, (g: Group, a: Action) => !a.Again? && ListChecked(su, a),
               g => Inv(su, g) && ViewInv(su, g) && StartInv(su, g), i);
  }

  /** Every new view whose list fits starts above every number committed in an earlier view. */
  lemma {:induction false} NewViewAbove(su: Setup, g: Group, w: nat, n: nat, digest: Digest, nv: NewView)
    requires su.Valid() && CheckedInv(su, g)
    requires |Signers(su, g.net.commits, w, n, digest)| >= 2 * su.f + 1
    requires nv in g.net.nvs && Fits(nv) && nv.view > w
    ensures n < NextOf(nv)
    decreases nv.view
  {
    if !Overwritten(su, g.net, n, w, nv.view) {
      AboveUnlessOverwritten(su, g, w, n, digest, nv);
    } else {
      QuorumInView(su, g, w, n, digest);
      var u: nat :| w < u < nv.view && GivenOut(su, g.net, u, n);
      assert Started(g.net, u, n);
      var other :| other in g.net.nvs && other.view == u && Fits(other) && n >= NextOf(other);
      NewViewAbove(su, g, w, n, digest, other);
    }
  }

  /** If lists are checked, the view right after the one of the commits cannot reuse the number,
      whatever numbers faulty leaders give out. */
  lemma NextViewAbove(su: Setup, run: Run, i: nat, w: nat, n: nat, digest: Digest, r: nat)
    requires su.Valid() && run.Of(su) && run.NoRetransmission() && ListsChecked(su, run) && i < |run.groups|
    requires |Signers(su, run.groups[i].net.commits, w, n, digest)| >= 2 * su.f + 1
    requires r in su.honest && r < |run.groups[i].replicas| && run.groups[i].replicas[r].view == w + 1
    ensures run.groups[i].replicas[r].next > n
  {
    RunStart(su, run, i);
    var g := run.groups[i];
    QuorumInView(su, g, w, n, digest);
    assert Started(g.net, w + 1, g.replicas[r].next);
    var nv :| nv in g.net.nvs && nv.view == w + 1 && Fits(nv) && g.replicas[r].next >= NextOf(nv);
    AboveUnlessOverwritten(su, g, w, n, digest, nv);
  }

  /** No reuse of a committed number. If non-faulty replicas check, for what comes from faulty ones, the
      list of a new view and the number of a pre-prepare, then, once 2f+1 replicas have signed commits
      for a number, every non-faulty replica in a later view counts from above it, and none proposes or
      accepts anything for it in a later view. */
  lemma NoReuse(su: Setup, run: Run, i: nat, w: nat, n: nat, digest: Digest, r: nat)
    requires su.Valid() && run.Of(su) && run.NoRetransmission() && ListsChecked(su, run) && NumbersChecked(su, run)
    requires i < |run.groups| && |Signers(su, run.groups[i].net.commits, w, n, digest)| >= 2 * su.f + 1
    requires r in su.honest && r < |run.groups[i].replicas|
    ensures run.groups[i].replicas[r].view > w ==> run.groups[i].replicas[r].next > n
    ensures forall u: nat | u > w :: !GivenOut(su, run.groups[i].net, u, n)
  {
    RunChecked(su, run, i);
    var g := run.groups[i];
    QuorumInView(su, g, w, n, digest);
    if g.replicas[r].view > w {
      assert Started(g.net, g.replicas[r].view, g.replicas[r].next);
      var nv :| nv in g.net.nvs && nv.view == g.replicas[r].view && Fits(nv) && g.replicas[r].next >= NextOf(nv);
      NewViewAbove(su, g, w, n, digest, nv);
    }
    forall u: nat | u > w ensures !GivenOut(su, g.net, u, n) {
      if GivenOut(su, g.net, u, n) {
        assert Started(g.net, u, n);
        var nv :| nv in g.net.nvs && nv.view == u && Fits(nv) && n >= NextOf(nv);
        NewViewAbove(su, g, w, n, digest, nv);
      }
    }
  }
}

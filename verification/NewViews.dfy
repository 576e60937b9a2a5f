/** What a new view is made of: the prepared messages that the view changes report, and the list of
    pre-prepares the new leader makes from them. */
module NewViews {
  import opened Transfers
  import opened Messages
  import opened Sorting
  import Consensus

  /** A prepared message: the number and the digest of its pre-prepare. */
  datatype Report = Report(num: nat, digest: Digest)

  /** A view change as it arrives; `verified` says whether its signature is right. */
  datatype SignedChange = SignedChange(view: nat, node: nat, prepared: seq<Report>, verified: bool)

  function Numbers(reports: seq<Report>): set<nat> {
    set r | r in reports :: r.num
  }

  /** The digest of the first report for this number; the null digest if there is none. */
  function First(reports: seq<Report>, n: nat): Digest {
    if reports == [] then Null
    else
      var init, last := reports[..|reports| - 1], reports[|reports| - 1];
      if n in Numbers(init) || last.num != n then First(init, n) else last.digest
  }

  function Flatten(certs: seq<SignedChange>): seq<Report> {
    if certs == [] then [] else Flatten(certs[..|certs| - 1]) + certs[|certs| - 1].prepared
  }

  ghost predicate Agree(reports: seq<Report>) {
    forall r, s | r in reports && s in reports && r.num == s.num :: r.digest == s.digest
  }

  /** The list covers every number from the least to the greatest reported one, once each and in
      ascending order, with the first reported digest, or the null digest where nothing is reported. */
  ghost predicate IsList(view: nat, reports: seq<Report>, list: seq<PrePrepare>) {
    && (list == [] <==> reports == [])
    && (forall k | 0 <= k < |list| ::
        list[k] == PrePrepare(view, list[0].num + k, First(reports, list[0].num + k), Plain))
    && (list != [] ==> list[0].num in Numbers(reports) && list[|list| - 1].num in Numbers(reports))
    && (forall r | r in reports :: list[0].num <= r.num <= list[|list| - 1].num)
  }

  predicate Le(a: nat, b: nat) {
    a <= b
  }

  lemma LeOrder()
    ensures TotalOrder(Le)
  {
  }

  /** The first report for each number has been noted. */
  ghost predicate Noted(prePrepares: map<nat, Digest>, nums: seq<nat>, reports: seq<Report>) {
    && prePrepares.Keys == Numbers(reports)
    && (forall n | n in prePrepares :: prePrepares[n] == First(reports, n))
    && (forall n :: n in nums <==> n in prePrepares)
  }

  lemma NoteNext(prePrepares: map<nat, Digest>, nums: seq<nat>, reports: seq<Report>, r: Report)
    requires Noted(prePrepares, nums, reports)
    ensures if r.num in prePrepares then Noted(prePrepares, nums, reports + [r])
            else Noted(prePrepares[r.num := r.digest], nums + [r.num], reports + [r])
  {
    var more := reports + [r];
    assert more[..|reports|] == reports;
    assert Numbers(more) == Numbers(reports) + {r.num} by {
      assert r in more && forall q | q in reports :: q in more;
    }
  }

  /** Notes the first report for each number. */
  method Collect(certs: seq<SignedChange>) returns (prePrepares: map<nat, Digest>, nums: seq<nat>)
    ensures Noted(prePrepares, nums, Flatten(certs))
  {
    prePrepares, nums := map[], [];
    var i := 0;
    while i < |certs|
      invariant 0 <= i <= |certs|
      invariant Noted(prePrepares, nums, Flatten(certs[..i]))
    {
      prePrepares, nums := NoteAll(prePrepares, nums, Flatten(certs[..i]), certs[i].prepared);
      assert certs[..i + 1][..i] == certs[..i];
      i := i + 1;
    }
    assert certs[..i] == certs;
  }

  /** Notes the reports of one view change. */
  method NoteAll(before: map<nat, Digest>, numsBefore: seq<nat>, ghost reports: seq<Report>, prepared: seq<Report>)
    returns (prePrepares: map<nat, Digest>, nums: seq<nat>)
    requires Noted(before, numsBefore, reports)
    ensures Noted(prePrepares, nums, reports + prepared)
  {
    prePrepares, nums := before, numsBefore;
    var j := 0;
    assert reports + prepared[..0] == reports;
    while j < |prepared|
      invariant 0 <= j <= |prepared|
      invariant Noted(prePrepares, nums, reports + prepared[..j])
    {
      NoteNext(prePrepares, nums, reports + prepared[..j], prepared[j]);
      assert reports + prepared[..j + 1] == reports + prepared[..j] + [prepared[j]];
      if prepared[j].num !in prePrepares {
        prePrepares := prePrepares[prepared[j].num := prepared[j].digest];
        nums := nums + [prepared[j].num];
      }
      j := j + 1;
    }
    assert prepared[..j] == prepared;
  }

  lemma SortedSame(nums: seq<nat>)
    ensures |Sort(Le, nums)| == |nums| && Ascending(Le, Sort(Le, nums))
    ensures forall n :: n in Sort(Le, nums) <==> n in nums
  {
    LeOrder();
    SortSorts(Le, nums);
    assert |Sort(Le, nums)| == |multiset(Sort(Le, nums))| == |nums|;
    assert forall n :: n in Sort(Le, nums) <==> n in multiset(Sort(Le, nums));
  }

  /** The first and the last of the sorted numbers bound all of them. */
  lemma SortedEnds(nums: seq<nat>)
    ensures var sorted := Sort(Le, nums);
            && |sorted| == |nums|
            && (sorted != [] ==> sorted[0] in nums && sorted[|sorted| - 1] in nums)
            && forall n | n in nums :: sorted[0] <= n <= sorted[|sorted| - 1]
  {
    var sorted := Sort(Le, nums);
    SortedSame(nums);
    if sorted != [] {
      assert sorted[0] in sorted && sorted[|sorted| - 1] in sorted;
    }
    forall n | n in nums ensures sorted[0] <= n <= sorted[|sorted| - 1] {
      assert n in sorted;
      var k :| 0 <= k < |sorted| && sorted[k] == n;
      assert Le(sorted[0], sorted[0]) && (k > 0 ==> Le(sorted[0], sorted[k]));
      assert k < |sorted| - 1 ==> Le(sorted[k], sorted[|sorted| - 1]);
    }
  }

  /** The pre-prepares for the numbers lo..hi. */
  method FillRange(view: nat, prePrepares: map<nat, Digest>, ghost reports: seq<Report>, lo: nat, hi: nat)
    returns (list: seq<PrePrepare>)
    requires prePrepares.Keys == Numbers(reports) && lo <= hi
    requires forall n | n in prePrepares :: prePrepares[n] == First(reports, n)
    ensures |list| == hi - lo + 1
    ensures forall k | 0 <= k < |list| :: list[k] == PrePrepare(view, lo + k, First(reports, lo + k), Plain)
  {
    list := [];
    var i := lo;
    while i <= hi
      invariant lo <= i <= hi + 1 && |list| == i - lo
      invariant forall k | 0 <= k < |list| :: list[k] == PrePrepare(view, lo + k, First(reports, lo + k), Plain)
    {
      if i in prePrepares {
        list := list + [PrePrepare(view, i, prePrepares[i], Plain)];
      } else {
        FirstReport(reports, i);
        list := list + [PrePrepare(view, i, Null, Plain)];
      }
      i := i + 1;
    }
  }

  lemma RangeIsList(view: nat, reports: seq<Report>, lo: nat, hi: nat, list: seq<PrePrepare>)
    requires reports != [] && |list| == hi - lo + 1 > 0 && lo in Numbers(reports) && hi in Numbers(reports)
    requires forall n | n in Numbers(reports) :: lo <= n <= hi
    requires forall k | 0 <= k < |list| :: list[k] == PrePrepare(view, lo + k, First(reports, lo + k), Plain)
    ensures IsList(view, reports, list)
  {
    assert list[0].num == lo && list[|list| - 1].num == hi;
    forall r | r in reports ensures lo <= r.num <= hi {
      assert r.num in Numbers(reports);
    }
  }

  /** Whatever the view changes report is in the list, as long as no two reports for one number differ. */
  method BuildList(view: nat, certs: seq<SignedChange>) returns (list: seq<PrePrepare>)
    ensures IsList(view, Flatten(certs), list)
    ensures (forall i, j, k, l {:trigger certs[i].prepared[j].digest, certs[k].prepared[l].digest} |
               && 0 <= i < |certs| && 0 <= j < |certs[i].prepared| && 0 <= k < |certs| && 0 <= l < |certs[k].prepared|
               && certs[i].prepared[j].num == certs[k].prepared[l].num ::
               certs[i].prepared[j].digest == certs[k].prepared[l].digest) ==>
              forall i, j {:trigger certs[i].prepared[j].digest} | 0 <= i < |certs| && 0 <= j < |certs[i].prepared| ::
                PrePrepare(view, certs[i].prepared[j].num, certs[i].prepared[j].digest, Plain) in list
  {
    var prePrepares, nums := Collect(certs);
    var sorted := Sort(Le, nums);
    SortedEnds(nums);
    ghost var reports := Flatten(certs);
    assert reports != [] ==> reports[0].num in Numbers(reports);
    list := [];
    if |sorted| > 0 {
      list := FillRange(view, prePrepares, reports, sorted[0], sorted[|sorted| - 1]);
      RangeIsList(view, reports, sorted[0], sorted[|sorted| - 1], list);
    }
    ListKeepsChanges(view, certs, list);
  }

  /** A number is given a reported digest, if there is one. */
  lemma {:induction false} FirstReport(reports: seq<Report>, n: nat)
    ensures if n in Numbers(reports) then Report(n, First(reports, n)) in reports else First(reports, n) == Null
  {
    if reports != [] {
      var init, last := reports[..|reports| - 1], reports[|reports| - 1];
      FirstReport(init, n);
      assert reports == init + [last];
    }
  }

  /** The list has exactly one entry for each number in its range and none besides; where nothing is
      reported its digest is null, elsewhere it is a reported one. */
  lemma ListCovers(view: nat, reports: seq<Report>, list: seq<PrePrepare>, n: nat)
    requires IsList(view, reports, list) && list != []
    ensures (exists k :: 0 <= k < |list| && list[k].num == n) <==> list[0].num <= n <= list[|list| - 1].num
    ensures forall j, k | 0 <= j < k < |list| :: list[j].num < list[k].num
    ensures forall k | 0 <= k < |list| && list[k].num == n ::
              if n in Numbers(reports) then Report(n, list[k].digest) in reports else list[k].digest == Null
  {
    FirstReport(reports, n);
    assert |list| - 1 == list[|list| - 1].num - list[0].num;
    if list[0].num <= n <= list[|list| - 1].num {
      assert list[n - list[0].num].num == n;
    }
  }

  /** Every reported digest is kept exactly if no two reports for one number differ. */
  lemma ListKeepsReports(view: nat, reports: seq<Report>, list: seq<PrePrepare>)
    requires IsList(view, reports, list)
    ensures (forall r | r in reports :: PrePrepare(view, r.num, r.digest, Plain) in list) <==> Agree(reports)
  {
    if Agree(reports) {
      forall r | r in reports ensures PrePrepare(view, r.num, r.digest, Plain) in list {
        assert r.num in Numbers(reports);
        FirstReport(reports, r.num);
        assert |list| - 1 == list[|list| - 1].num - list[0].num;
        assert list[r.num - list[0].num] in list;
      }
    }
    if forall r | r in reports :: PrePrepare(view, r.num, r.digest, Plain) in list {
      forall r, s | r in reports && s in reports && r.num == s.num ensures r.digest == s.digest {
        var j :| 0 <= j < |list| && list[j] == PrePrepare(view, r.num, r.digest, Plain);
        var k :| 0 <= k < |list| && list[k] == PrePrepare(view, s.num, s.digest, Plain);
        assert j == k;
      }
    }
  }

  lemma ListStart(view: nat, a: seq<Report>, b: seq<Report>, l: seq<PrePrepare>, m: seq<PrePrepare>)
    requires IsList(view, a, l) && IsList(view, b, m) && forall r | r in a :: r in b
    ensures l != [] ==> m != [] && m[0].num <= l[0].num && l[|l| - 1].num <= m[|m| - 1].num
  {
    if l != [] {
      var r :| r in a && r.num == l[0].num;
      var s :| s in a && s.num == l[|l| - 1].num;
      assert r in b && s in b;
    }
  }

  /** As long as the reports agree, neither their order nor repetitions matter. */
  lemma ListIgnoresOrder(view: nat, a: seq<Report>, b: seq<Report>, l: seq<PrePrepare>, m: seq<PrePrepare>)
    requires IsList(view, a, l) && IsList(view, b, m)
    requires Agree(a) && forall r :: r in a <==> r in b
    ensures l == m
  {
    ListStart(view, a, b, l, m);
    ListStart(view, b, a, m, l);
    if l != [] {
      ListLength(view, a, l);
      ListLength(view, b, m);
      forall k | 0 <= k < |l| ensures l[k] == m[k] {
        SameFirst(a, b, l[0].num + k);
      }
    }
  }

  lemma ListLength(view: nat, reports: seq<Report>, list: seq<PrePrepare>)
    requires IsList(view, reports, list) && list != []
    ensures |list| - 1 == list[|list| - 1].num - list[0].num
  {
  }

  lemma SameFirst(a: seq<Report>, b: seq<Report>, n: nat)
    requires Agree(a) && forall r :: r in a <==> r in b
    ensures First(a, n) == First(b, n)
  {
    FirstReport(a, n);
    FirstReport(b, n);
    if n in Numbers(a) {
      var r :| r in a && r.num == n;
      assert r in b;
    }
    if n in Numbers(b) {
      var r :| r in b && r.num == n;
      assert r in a;
    }
  }

  /***** The list in terms of the view changes *****/

  /** A report is among all of them exactly if a view change has it. */
  lemma {:induction false} FlattenHolds(certs: seq<SignedChange>, r: Report)
    ensures r in Flatten(certs) <==> exists c :: c in certs && r in c.prepared
  {
    if certs != [] {
      var init, last := certs[..|certs| - 1], certs[|certs| - 1];
      FlattenHolds(init, r);
      assert certs == init + [last];
    }
  }

  lemma ListKeepsChanges(view: nat, certs: seq<SignedChange>, list: seq<PrePrepare>)
    requires IsList(view, Flatten(certs), list)
    ensures (forall i, j, k, l {:trigger certs[i].prepared[j].digest, certs[k].prepared[l].digest} |
               && 0 <= i < |certs| && 0 <= j < |certs[i].prepared| && 0 <= k < |certs| && 0 <= l < |certs[k].prepared|
               && certs[i].prepared[j].num == certs[k].prepared[l].num ::
               certs[i].prepared[j].digest == certs[k].prepared[l].digest) ==>
              forall i, j {:trigger certs[i].prepared[j].digest} | 0 <= i < |certs| && 0 <= j < |certs[i].prepared| ::
                PrePrepare(view, certs[i].prepared[j].num, certs[i].prepared[j].digest, Plain) in list
  {
    forall r ensures r in Flatten(certs) <==> exists c :: c in certs && r in c.prepared {
      FlattenHolds(certs, r);
    }
    ListKeepsReports(view, Flatten(certs), list);
  }

  /** The reports of one view change come after those of the view changes before it. */
  lemma {:induction false} FlattenSplits(certs: seq<SignedChange>, i: nat) returns (after: seq<Report>)
    requires i < |certs|
    ensures Flatten(certs) == Flatten(certs[..i]) + certs[i].prepared + after
  {
    var init, last := certs[..|certs| - 1], certs[|certs| - 1];
    if i == |certs| - 1 {
      after := [];
    } else {
      var more := FlattenSplits(init, i);
      assert init[..i] == certs[..i];
      after := more + last.prepared;
    }
  }

  /** The report decides the digest of its number if there is none for this number before it. */
  lemma {:induction false} FirstFound(before: seq<Report>, r: Report, after: seq<Report>)
    requires r.num !in Numbers(before)
    ensures First(before + [r] + after, r.num) == r.digest
  {
    var all := before + [r] + after;
    if after == [] {
      assert all[..|before|] == before;
      FirstReport(before, r.num);
    } else {
      assert all[..|all| - 1] == before + [r] + after[..|after| - 1];
      assert r in all[..|all| - 1];
      FirstFound(before, r, after[..|after| - 1]);
    }
  }

  lemma Regrouped(a: seq<Report>, b: seq<Report>, c: seq<Report>, j: nat)
    requires j < |b|
    ensures a + b + c == (a + b[..j]) + [b[j]] + (b[j + 1..] + c)
  {
    assert b == b[..j] + [b[j]] + b[j + 1..];
  }

  /** The first report for a number, in the order of the view changes and of each one's reports, decides
      the digest that the list gives it. */
  lemma ListDecided(view: nat, certs: seq<SignedChange>, list: seq<PrePrepare>, i: nat, j: nat)
    requires IsList(view, Flatten(certs), list) && i < |certs| && j < |certs[i].prepared|
    requires forall c, r | c in certs[..i] && r in c.prepared :: r.num != certs[i].prepared[j].num
    requires forall l | 0 <= l < j :: certs[i].prepared[l].num != certs[i].prepared[j].num
    ensures var r := certs[i].prepared[j]; PrePrepare(view, r.num, r.digest, Plain) in list
  {
    var r := certs[i].prepared[j];
    FirstDecides(certs, i, j);
    FlattenHolds(certs, r);
    assert list[r.num - list[0].num] in list;
  }

  lemma FirstDecides(certs: seq<SignedChange>, i: nat, j: nat)
    requires i < |certs| && j < |certs[i].prepared|
    requires forall c, r | c in certs[..i] && r in c.prepared :: r.num != certs[i].prepared[j].num
    requires forall l | 0 <= l < j :: certs[i].prepared[l].num != certs[i].prepared[j].num
    ensures First(Flatten(certs), certs[i].prepared[j].num) == certs[i].prepared[j].digest
  {
    var prepared := certs[i].prepared;
    var after := FlattenSplits(certs, i);
    Regrouped(Flatten(certs[..i]), prepared, after, j);
    assert prepared[j].num !in Numbers(Flatten(certs[..i]) + prepared[..j]) by {
      FlattenHas(certs[..i], prepared[j].num);
    }
    FirstFound(Flatten(certs[..i]) + prepared[..j], prepared[j], prepared[j + 1..] + after);
  }

  /***** The number a new view starts at *****/

  function PreparedMap(reports: seq<Report>): map<nat, Digest> {
    map n | n in Numbers(reports) :: First(reports, n)
  }

  /** The view changes and the new view, as the protocol's steps see them. */
  function ChangeOf(c: SignedChange): ViewChange {
    ViewChange(c.view, c.node, PreparedMap(c.prepared))
  }

  function NewViewOf(view: nat, sender: nat, certs: seq<SignedChange>, list: seq<PrePrepare>): NewView {
    NewView(view, sender, set c | c in certs :: ChangeOf(c), list)
  }

  lemma {:induction false} FlattenHas(certs: seq<SignedChange>, n: nat)
    ensures n in Numbers(Flatten(certs)) <==> exists c :: c in certs && n in Numbers(c.prepared)
  {
    if certs != [] {
      var init, last := certs[..|certs| - 1], certs[|certs| - 1];
      FlattenHas(init, n);
      assert certs == init + [last];
      assert Numbers(Flatten(certs)) == Numbers(Flatten(init)) + Numbers(last.prepared) by {
        forall m | m in Numbers(Flatten(init)) + Numbers(last.prepared) ensures m in Numbers(Flatten(certs)) {
          var r :| (r in Flatten(init) || r in last.prepared) && r.num == m;
          assert r in Flatten(certs);
        }
      }
    }
  }

  /** The list of a new view, and the number its sender goes on with. */
  method Start(view: nat, sender: nat, certs: seq<SignedChange>) returns (list: seq<PrePrepare>, next: nat)
    ensures IsList(view, Flatten(certs), list)
    ensures next == NextAfter(list) == Consensus.NextOf(NewViewOf(view, sender, certs, list))
    ensures (forall i, j, k, l {:trigger certs[i].prepared[j].digest, certs[k].prepared[l].digest} |
               && 0 <= i < |certs| && 0 <= j < |certs[i].prepared| && 0 <= k < |certs| && 0 <= l < |certs[k].prepared|
               && certs[i].prepared[j].num == certs[k].prepared[l].num ::
               certs[i].prepared[j].digest == certs[k].prepared[l].digest) ==>
              forall i, j {:trigger certs[i].prepared[j].digest} | 0 <= i < |certs| && 0 <= j < |certs[i].prepared| ::
                PrePrepare(view, certs[i].prepared[j].num, certs[i].prepared[j].digest, Plain) in list
  {
    list := BuildList(view, certs);
    ListEnds(view, sender, certs, list);
    next := if |list| > 0 then list[|list| - 1].num + 1 else 1;
  }

  /** The number after the end of the list is one above every reported number, and no higher than that. */
  lemma ListGreatest(view: nat, certs: seq<SignedChange>, list: seq<PrePrepare>)
    requires IsList(view, Flatten(certs), list)
    ensures forall c, r | c in certs && r in c.prepared :: r.num < NextAfter(list)
    ensures NextAfter(list) > 1 ==> exists c, r :: c in certs && r in c.prepared && r.num + 1 == NextAfter(list)
  {
    forall c, r | c in certs && r in c.prepared ensures r.num < NextAfter(list) {
      FlattenHolds(certs, r);
    }
    if list != [] {
      var r :| r in Flatten(certs) && r.num == list[|list| - 1].num;
      FlattenHolds(certs, r);
    }
  }

  lemma ReportedAre(nv: NewView, certs: seq<SignedChange>)
    requires nv.certs == set c | c in certs :: ChangeOf(c)
    ensures Consensus.Reported(nv) == Numbers(Flatten(certs))
  {
    forall n ensures n in Consensus.Reported(nv) <==> n in Numbers(Flatten(certs)) {
      FlattenHas(certs, n);
      if n in Consensus.Reported(nv) {
        var vc :| vc in nv.certs && n in vc.prepared;
        var c :| c in certs && ChangeOf(c) == vc;
        assert n in Numbers(c.prepared);
      }
      if n in Numbers(Flatten(certs)) {
        var c :| c in certs && n in Numbers(c.prepared);
        assert ChangeOf(c) in nv.certs && n in ChangeOf(c).prepared;
      }
    }
  }

  /** The end of the list is where the new view starts: one above every reported number; so a list that
      is made from view changes for this view fits them. */
  lemma ListEnds(view: nat, sender: nat, certs: seq<SignedChange>, list: seq<PrePrepare>)
    requires IsList(view, Flatten(certs), list)
    ensures NextAfter(list) == Consensus.NextOf(NewViewOf(view, sender, certs, list))
    ensures (forall c | c in certs :: c.view == view) ==> Consensus.Fits(NewViewOf(view, sender, certs, list))
  {
    var reports, nums := Flatten(certs), Numbers(Flatten(certs));
    ReportedAre(NewViewOf(view, sender, certs, list), certs);
    if list != [] {
      assert list[|list| - 1].num in nums;
      assert forall n | n in nums :: n <= list[|list| - 1].num;
    } else {
      assert nums == {};
    }
  }
}

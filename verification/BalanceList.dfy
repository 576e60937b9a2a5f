/** Balances on the wire: a map becomes a list ordered by client name, and a list becomes a map. */
module BalanceLists {
  import opened Sorting

  datatype Balance = Balance(client: string, amount: int)

  /** Names are compared character by character; a prefix comes first. */
  predicate NameLe(a: string, b: string) {
    a == "" || (b != "" && (a[0] < b[0] || (a[0] == b[0] && NameLe(a[1..], b[1..]))))
  }

  lemma {:induction false} NameTotal(a: string, b: string)
    ensures NameLe(a, b) || NameLe(b, a)
    ensures NameLe(a, b) && NameLe(b, a) ==> a == b
  {
    if a != "" && b != "" {
      NameTotal(a[1..], b[1..]);
      assert a == [a[0]] + a[1..] && b == [b[0]] + b[1..];
    }
  }

  /** Either the first name is a prefix of the second, or it has the smaller character where they first differ. */
  lemma {:induction false} NameLexicographic(a: string, b: string)
    ensures NameLe(a, b) <==> a <= b || exists n :: 0 <= n < |a| && n < |b| && a[..n] == b[..n] && a[n] < b[n]
  {
    if a != "" && b != "" {
      var s, t := a[1..], b[1..];
      NameLexicographic(s, t);
      assert a == [a[0]] + s && b == [b[0]] + t;
      if a[0] == b[0] {
        forall n | 0 <= n < |s| && n < |t| && s[..n] == t[..n] && s[n] < t[n] ensures NameDiffers(a, b, n + 1) {
          assert a[..n + 1] == [a[0]] + s[..n] && b[..n + 1] == [b[0]] + t[..n];
        }
        forall n | 0 < n < |a| && n < |b| && a[..n] == b[..n] && a[n] < b[n] ensures NameDiffers(s, t, n - 1) {
          assert s[..n - 1] == a[..n][1..] && t[..n - 1] == b[..n][1..];
        }
      } else if a[0] < b[0] {
        assert NameDiffers(a, b, 0);
      }
    }
  }

  predicate NameDiffers(a: string, b: string, n: nat) {
    n < |a| && n < |b| && a[..n] == b[..n] && a[n] < b[n]
  }

  lemma {:induction false} NameTransitive(a: string, b: string, c: string)
    requires NameLe(a, b) && NameLe(b, c)
    ensures NameLe(a, c)
  {
    if a != "" && a[0] == b[0] && b[0] == c[0] {
      NameTransitive(a[1..], b[1..], c[1..]);
    }
  }

  lemma NameOrder()
    ensures TotalOrder(NameLe)
  {
    forall a, b {
      NameTotal(a, b);
    }
    forall a, b, c | NameLe(a, b) && NameLe(b, c) {
      NameTransitive(a, b, c);
    }
  }

  ghost predicate StrictlySorted(list: seq<Balance>) {
    forall i, j | 0 <= i < j < |list| :: NameLe(list[i].client, list[j].client) && list[i].client != list[j].client
  }

  /** The map a list stands for; of two entries for one client the later one counts. */
  function FromList(list: seq<Balance>): map<string, int> {
    if list == [] then map[]
    else
      var last := list[|list| - 1];
      FromList(list[..|list| - 1])[last.client := last.amount]
  }

  method ToMap(list: seq<Balance>) returns (balances: map<string, int>)
    ensures balances == FromList(list)
    ensures forall k :: k in balances <==> exists b :: b in list && b.client == k
    ensures forall i | 0 <= i < |list| && (forall j | i < j < |list| :: list[j].client != list[i].client) ::
              list[i].client in balances && balances[list[i].client] == list[i].amount
  {
    balances := map[];
    var i := 0;
    while i < |list|
      invariant 0 <= i <= |list|
      invariant balances == FromList(list[..i])
    {
      balances := balances[list[i].client := list[i].amount];
      i := i + 1;
      assert list[..i][..i - 1] == list[..i - 1];
    }
    assert list[..i] == list;
    MapOfLast(list);
  }

  /** The last entry for a client is the one that counts. */
  lemma {:induction false} FromListLast(list: seq<Balance>, i: nat)
    requires i < |list| && forall j | i < j < |list| :: list[j].client != list[i].client
    ensures list[i].client in FromList(list) && FromList(list)[list[i].client] == list[i].amount
  {
    if i < |list| - 1 {
      FromListLast(list[..|list| - 1], i);
    }
  }

  lemma {:induction false} FromListDomain(list: seq<Balance>, k: string)
    ensures k in FromList(list) <==> exists b :: b in list && b.client == k
  {
    if list != [] {
      var init, last := list[..|list| - 1], list[|list| - 1];
      FromListDomain(init, k);
      assert list == init + [last];
    }
  }

  lemma MapOfLast(list: seq<Balance>)
    ensures forall k :: k in FromList(list) <==> exists b :: b in list && b.client == k
    ensures forall i | 0 <= i < |list| && (forall j | i < j < |list| :: list[j].client != list[i].client) ::
              list[i].client in FromList(list) && FromList(list)[list[i].client] == list[i].amount
  {
    forall k ensures k in FromList(list) <==> exists b :: b in list && b.client == k {
      FromListDomain(list, k);
    }
    forall i | 0 <= i < |list| && (forall j | i < j < |list| :: list[j].client != list[i].client)
      ensures list[i].client in FromList(list) && FromList(list)[list[i].client] == list[i].amount
    {
      FromListLast(list, i);
    }
  }

  /** The keys in whatever order the map yields them. */
  method KeysOf(balances: map<string, int>) returns (keys: seq<string>)
    ensures forall k :: k in keys <==> k in balances
    ensures forall k | k in keys :: multiset(keys)[k] == 1
  {
    keys := [];
    var left := balances.Keys;
    while left != {}
      invariant left <= balances.Keys
      invariant forall k :: k in keys <==> k in balances && k !in left
      invariant forall k | k in keys :: multiset(keys)[k] == 1
    {
      var k :| k in left;
      assert k !in multiset(keys);
      keys := keys + [k];
      left := left - {k};
    }
  }

  lemma {:induction false} TwiceIsTwo<T>(s: seq<T>, i: nat, j: nat)
    requires i < j < |s| && s[i] == s[j]
    ensures multiset(s)[s[i]] >= 2
  {
    assert s == s[..i] + [s[i]] + s[i + 1..j] + [s[j]] + s[j + 1..];
  }

  ghost predicate StrictNames(keys: seq<string>) {
    forall i, j | 0 <= i < j < |keys| :: NameLe(keys[i], keys[j]) && keys[i] != keys[j]
  }

  lemma SortedKeys(keys: seq<string>)
    requires forall k | k in keys :: multiset(keys)[k] == 1
    ensures StrictNames(Sort(NameLe, keys)) && forall k :: k in Sort(NameLe, keys) <==> k in keys
  {
    var sorted := Sort(NameLe, keys);
    NameOrder();
    SortSorts(NameLe, keys);
    assert forall k :: k in sorted <==> k in multiset(sorted);
    forall i, j | 0 <= i < j < |sorted| ensures sorted[i] != sorted[j] {
      if sorted[i] == sorted[j] {
        TwiceIsTwo(sorted, i, j);
      }
    }
  }

  /** The entries of these keys. */
  function Entries(keys: seq<string>, balances: map<string, int>): (r: seq<Balance>)
    requires forall k | k in keys :: k in balances
    ensures |r| == |keys|
  {
    seq(|keys|, i requires 0 <= i < |keys| => Balance(keys[i], balances[keys[i]]))
  }

  lemma {:induction false} EntriesMap(keys: seq<string>, balances: map<string, int>)
    requires forall k | k in keys :: k in balances
    ensures FromList(Entries(keys, balances)) == map k | k in keys :: balances[k]
    ensures (forall k | k in balances :: k in keys) ==> FromList(Entries(keys, balances)) == balances
  {
    if keys != [] {
      var init, last := keys[..|keys| - 1], keys[|keys| - 1];
      EntriesMap(init, balances);
      assert keys == init + [last];
      assert Entries(keys, balances)[..|keys| - 1] == Entries(init, balances);
    }
  }

  lemma EntriesFit(keys: seq<string>, balances: map<string, int>)
    requires StrictNames(keys) && forall k :: k in keys <==> k in balances
    ensures StrictlySorted(Entries(keys, balances)) && FromList(Entries(keys, balances)) == balances
  {
    EntriesMap(keys, balances);
  }

  method SortedKeysOf(balances: map<string, int>) returns (keys: seq<string>)
    ensures StrictNames(keys) && forall k :: k in keys <==> k in balances
  {
    var unsorted := KeysOf(balances);
    SortedKeys(unsorted);
    keys := Sort(NameLe, unsorted);
  }

  /** The list is strictly ordered by client and stands for the very map it was made from. */
  method ToList(balances: map<string, int>) returns (list: seq<Balance>)
    ensures StrictlySorted(list)
    ensures FromList(list) == balances
    ensures forall i, j | 0 <= i < j < |list| ::
              NameLe(list[i].client, list[j].client) && list[i].client != list[j].client
    ensures forall b :: b in list <==> b.client in balances && balances[b.client] == b.amount
  {
    var sorted := SortedKeysOf(balances);
    list := [];
    var i := 0;
    while i < |sorted|
      invariant 0 <= i <= |sorted|
      invariant list == Entries(sorted, balances)[..i]
    {
      list := list + [Balance(sorted[i], balances[sorted[i]])];
      i := i + 1;
    }
    assert list == Entries(sorted, balances);
    EntriesFit(sorted, balances);
    EntriesAre(sorted, balances);
  }

  lemma EntriesAre(keys: seq<string>, balances: map<string, int>)
    requires forall k :: k in keys <==> k in balances
    ensures forall b :: b in Entries(keys, balances) <==> b.client in balances && balances[b.client] == b.amount
  {
    forall b: Balance | b.client in balances && balances[b.client] == b.amount ensures b in Entries(keys, balances) {
      var i :| 0 <= i < |keys| && keys[i] == b.client;
      assert Entries(keys, balances)[i] == b;
    }
  }

  lemma FromListHas(list: seq<Balance>, i: nat)
    requires StrictlySorted(list) && i < |list|
    ensures list[i].client in FromList(list) && FromList(list)[list[i].client] == list[i].amount
  {
    FromListLast(list, i);
  }

  lemma {:induction false} FromListOnly(list: seq<Balance>, k: string)
    requires k in FromList(list)
    ensures exists i :: 0 <= i < |list| && list[i].client == k
  {
    var last := list[|list| - 1];
    if k != last.client {
      FromListOnly(list[..|list| - 1], k);
      var i :| 0 <= i < |list| - 1 && list[..|list| - 1][i].client == k;
      assert list[i].client == k;
    } else {
      assert list[|list| - 1].client == k;
    }
  }

  /** The first client of a strictly sorted list is the least of its map. */
  lemma FirstIsLeast(list: seq<Balance>, k: string)
    requires StrictlySorted(list) && k in FromList(list)
    ensures list != [] && NameLe(list[0].client, k)
  {
    FromListOnly(list, k);
    NameTotal(k, k);
  }

  /** Two strictly sorted lists of the same map are the same list: the wire form does not depend on
      the order in which a map yields its keys. */
  lemma {:induction false} ListUnique(a: seq<Balance>, b: seq<Balance>)
    requires StrictlySorted(a) && StrictlySorted(b) && FromList(a) == FromList(b)
    ensures a == b
  {
    if a != [] && b != [] {
      SameHead(a, b);
      TailMap(a);
      TailMap(b);
      ListUnique(a[1..], b[1..]);
      assert a == [a[0]] + a[1..] && b == [b[0]] + b[1..];
    } else if a != [] {
      FromListHas(a, 0);
    } else if b != [] {
      FromListHas(b, 0);
    }
  }

  lemma SameHead(a: seq<Balance>, b: seq<Balance>)
    requires StrictlySorted(a) && StrictlySorted(b) && FromList(a) == FromList(b) && a != [] && b != []
    ensures a[0] == b[0]
  {
    FromListHas(a, 0);
    FromListHas(b, 0);
    FirstIsLeast(a, b[0].client);
    FirstIsLeast(b, a[0].client);
    NameTotal(a[0].client, b[0].client);
  }

  lemma PutElsewhere(m: map<string, int>, k: string, v: int, other: string)
    requires k != other
    ensures (m - {other})[k := v] == m[k := v] - {other}
  {
  }

  lemma {:induction false} TailMap(list: seq<Balance>)
    requires StrictlySorted(list) && list != []
    ensures FromList(list[1..]) == FromList(list) - {list[0].client}
  {
    if |list| > 1 {
      var init := list[..|list| - 1];
      TailMap(init);
      assert list[1..][..|list| - 2] == init[1..];
      assert list[1..][|list| - 2] == list[|list| - 1];
      PutElsewhere(FromList(init), list[|list| - 1].client, list[|list| - 1].amount, list[0].client);
    } else {
      assert FromList(list) == map[list[0].client := list[0].amount];
    }
  }
}

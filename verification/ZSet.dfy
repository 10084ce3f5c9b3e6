/** A Redis sorted set: members in the order ZREVRANGE lists them, and the decimal members used here. */
module ZSet {
  import opened Domain
  import opened Tally
  import opened Decimal

  type Set = map<string, int>

  /** A member as the store writes it. */
  predicate IsMember(m: string) {
    ParseInt(m).Some? && FormatInt(ParseInt(m).value) == m
  }

  predicate Canonical(z: Set) {
    forall m :: m in z ==> IsMember(m)
  }

  // ----- order

  /** memcmp order: the first difference decides, and a proper prefix comes first. */
  predicate LexLess(a: string, b: string) {
    if b == [] then false
    else if a == [] then true
    else a[0] < b[0] || (a[0] == b[0] && LexLess(a[1..], b[1..]))
  }

  /** The first differing rune decides; with none, the shorter member comes first. */
  lemma {:induction false} LexLessIs(a: string, b: string)
    ensures LexLess(a, b) <==> exists n: nat :: FirstDiffers(a, b, n)
  {
    if a != [] && b != [] && a[0] == b[0] {
      LexLessIs(a[1..], b[1..]);
      if n: nat :| FirstDiffers(a[1..], b[1..], n) {
        assert a[..n + 1] == [a[0]] + a[1..][..n] && b[..n + 1] == [b[0]] + b[1..][..n];
        assert FirstDiffers(a, b, n + 1);
      }
      if n: nat :| FirstDiffers(a, b, n) {
        assert n > 0;
        assert a[..n][1..] == a[1..][..n - 1] && b[..n][1..] == b[1..][..n - 1];
        assert FirstDiffers(a[1..], b[1..], n - 1);
      }
    } else {
      assert b != [] && (a == [] || a[0] < b[0]) ==> FirstDiffers(a, b, 0);
    }
  }

  ghost predicate FirstDiffers(a: string, b: string, n: nat) {
    n <= |a| && n < |b| && a[..n] == b[..n] && (n == |a| || a[n] < b[n])
  }

  lemma {:induction false} LexTotal(a: string, b: string)
    ensures LexLess(a, b) || LexLess(b, a) || a == b
  {
    if a != [] && b != [] && a[0] == b[0] {
      LexTotal(a[1..], b[1..]);
      assert a == [a[0]] + a[1..] && b == [b[0]] + b[1..];
    }
  }

  lemma {:induction false} LexTransitive(a: string, b: string, c: string)
    requires LexLess(a, b) && LexLess(b, c)
    ensures LexLess(a, c)
  {
    if a != [] && a[0] == b[0] == c[0] {
      LexTransitive(a[1..], b[1..], c[1..]);
    }
  }

  lemma {:induction false} LexIrreflexive(a: string)
    ensures !LexLess(a, a)
  {
    if a != [] {
      LexIrreflexive(a[1..]);
    }
  }

  /** Higher score first; among equal scores the greater member first. */
  predicate Above(z: Set, a: string, b: string)
    requires a in z && b in z
  {
    z[a] > z[b] || (z[a] == z[b] && LexLess(b, a))
  }

  lemma AboveOrders(z: Set, a: string, b: string, c: string)
    requires a in z && b in z && c in z
    ensures !Above(z, a, a)
    ensures Above(z, a, b) || Above(z, b, a) || a == b
    ensures Above(z, a, b) && Above(z, b, c) ==> Above(z, a, c)
  {
    LexIrreflexive(a);
    LexTotal(a, b);
    if LexLess(c, b) && LexLess(b, a) {
      LexTransitive(c, b, a);
    }
  }

  predicate IsTop(z: Set, m: string) {
    m in z && forall k :: k in z && k != m ==> Above(z, m, k)
  }

  lemma OneLess(z: Set, m: string)
    requires m in z
    ensures |z - {m}| == |z| - 1
    ensures forall k :: k in z <==> k == m || k in z - {m}
  {
    assert (z - {m}).Keys == z.Keys - {m};
  }

  lemma TopOf(z: Set, k: string, m: string)
    requires k in z && IsTop(z - {k}, m)
    ensures IsTop(z, if Above(z, m, k) then m else k)
  {
    hide LexLess;
    OneLess(z, k);
    AboveOrders(z, m, k, k);
    forall j | j in z && j != k && !Above(z, m, k) ensures Above(z, k, j) {
      AboveOrders(z, k, m, j);
    }
  }

  lemma {:induction false} SomeTop(z: Set)
    requires z != map[]
    ensures exists m :: IsTop(z, m)
    decreases |z|
  {
    var k :| k in z;
    OneLess(z, k);
    if z - {k} == map[] {
      assert forall j :: j in z && j != k ==> j in z - {k};
      assert IsTop(z, k);
    } else {
      SomeTop(z - {k});
      var m :| IsTop(z - {k}, m);
      TopOf(z, k, m);
    }
  }

  function Top(z: Set): (m: string)
    requires z != map[]
    ensures IsTop(z, m)
  {
    SomeTop(z);
    assert forall a, b :: IsTop(z, a) && IsTop(z, b) ==> a == b by {
      forall a, b | IsTop(z, a) && IsTop(z, b) ensures a == b {
        OneTop(z, a, b);
      }
    }
    var m :| m in z && IsTop(z, m);
    m
  }

  lemma OneTop(z: Set, a: string, b: string)
    requires IsTop(z, a) && IsTop(z, b)
    ensures a == b
  {
    hide LexLess;
    AboveOrders(z, a, a, a);
    AboveOrders(z, a, b, a);
  }

  /** The whole set in ZREVRANGE order. */
  function Ranked(z: Set): (s: seq<string>)
    ensures |s| == |z|
    decreases |z|
  {
    if z == map[] then []
    else
      OneLess(z, Top(z));
      [Top(z)] + Ranked(z - {Top(z)})
  }

  ghost predicate IsListing(z: Set, s: seq<string>) {
    && (forall i :: 0 <= i < |s| ==> s[i] in z)
    && (forall m :: m in z ==> m in s)
    && (forall i, j :: 0 <= i < j < |s| ==> Above(z, s[i], s[j]))
  }

  lemma ConsLists(z: Set, m: string, s: seq<string>)
    requires IsTop(z, m) && IsListing(z - {m}, s)
    ensures IsListing(z, [m] + s)
  {
    hide LexLess;
    OneLess(z, m);
  }

  lemma TailLists(z: Set, s: seq<string>)
    requires s != [] && IsListing(z, s)
    ensures IsTop(z, s[0]) && IsListing(z - {s[0]}, s[1..])
  {
    hide LexLess;
    OneLess(z, s[0]);
    forall i | 1 <= i < |s| ensures s[i] != s[0] {
      AboveOrders(z, s[0], s[i], s[0]);
    }
    assert forall m :: m in s <==> m == s[0] || m in s[1..];
  }

  lemma {:induction false} RankedLists(z: Set)
    ensures IsListing(z, Ranked(z))
    decreases |z|
  {
    if z != map[] {
      OneLess(z, Top(z));
      RankedLists(z - {Top(z)});
      ConsLists(z, Top(z), Ranked(z - {Top(z)}));
    }
  }

  /** Higher scores come first; of equal scores the greater member does. */
  lemma RankedDescends(z: Set, i: nat, j: nat)
    requires i < j < |z|
    ensures var a, b := Ranked(z)[i], Ranked(z)[j];
            a in z && b in z && z[a] >= z[b] && (z[a] == z[b] ==> LexLess(b, a))
  {
    RankedLists(z);
  }

  /** The order leaves no choice: there is only one listing. */
  lemma {:induction false} OneListing(z: Set, s: seq<string>)
    requires IsListing(z, s)
    ensures s == Ranked(z)
    decreases |z|
  {
    if s == [] {
      assert z == map[];
    } else {
      TailLists(z, s);
      OneTop(z, s[0], Top(z));
      OneLess(z, s[0]);
      OneListing(z - {s[0]}, s[1..]);
    }
  }

  /** The members listed before m. */
  ghost function AllAbove(z: Set, m: string): set<string>
    requires m in z
  {
    set k | k in z && Above(z, k, m)
  }

  lemma {:induction false} PrefixSize(s: seq<string>)
    requires Distinct(s)
    ensures |Elems(s)| == |s|
  {
    if s != [] {
      var front := s[..|s| - 1];
      PrefixSize(front);
      assert Elems(s) == Elems(front) + {s[|s| - 1]};
    }
  }

  lemma ListingDistinct(z: Set, s: seq<string>)
    requires IsListing(z, s)
    ensures Distinct(s)
  {
    hide LexLess;
    forall j, k | 0 <= j < k < |s| ensures s[j] != s[k] {
      AboveOrders(z, s[j], s[j], s[j]);
    }
  }

  /** A position in the listing is the number of members above. */
  lemma PositionCounts(z: Set, i: nat)
    requires i < |z|
    ensures Ranked(z)[i] in z && |AllAbove(z, Ranked(z)[i])| == i
  {
    hide LexLess, Ranked;
    RankedLists(z);
    var s := Ranked(z);
    var front := s[..i];
    ListingDistinct(z, s);
    PrefixSize(front);
    forall k ensures k in AllAbove(z, s[i]) <==> k in front {
      if k in z {
        var j :| 0 <= j < |s| && s[j] == k;
        AboveOrders(z, s[i], s[j], s[i]);
        assert j < i ==> front[j] == k;
      }
    }
    assert AllAbove(z, s[i]) == Elems(front);
  }
}

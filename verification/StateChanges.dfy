/** State changes reported by a client, and the stable order that reports list them in. */
module StateChanges {

  /** What one process did to an object, or the creation or end of a process. Times are in milliseconds. */
  datatype Change =
    | ObjectChange(kind: string, time: int, pid: int, process: string, action: string, object1: string, object2: string)
    | ProcessChange(kind: string, time: int, ppid: int, parent: string, action: string, pid: int, process: string)

  /** Strings in dictionary order, by their units. */
  predicate StringLeq(a: string, b: string) {
    if a == [] then true
    else if b == [] then false
    else if a[0] == b[0] then StringLeq(a[1..], b[1..])
    else a[0] < b[0]
  }

  lemma {:induction false} StringTotal(a: string, b: string)
    ensures StringLeq(a, b) || StringLeq(b, a)
    ensures StringLeq(a, b) && StringLeq(b, a) ==> a == b
  {
    if a != [] && b != [] && a[0] == b[0] {
      StringTotal(a[1..], b[1..]);
      assert a == [a[0]] + a[1..] && b == [b[0]] + b[1..];
    }
  }

  lemma {:induction false} StringTransitive(a: string, b: string, c: string)
    requires StringLeq(a, b) && StringLeq(b, c)
    ensures StringLeq(a, c)
  {
    if a != [] && b != [] && c != [] && a[0] == b[0] == c[0] {
      StringTransitive(a[1..], b[1..], c[1..]);
    }
  }

  /** Up to unit k the strings agree; there a ends, or has the smaller unit. */
  predicate FirstDifference(a: string, b: string, k: nat) {
    k <= |a| && k <= |b| && a[..k] == b[..k] && (k == |a| || (k < |b| && a[k] < b[k]))
  }

  /** The order is that of the first difference: a prefix, or the smaller unit, comes first. */
  lemma {:induction false} StringLeqIs(a: string, b: string)
    ensures StringLeq(a, b) <==> exists k: nat :: FirstDifference(a, b, k)
  {
    if a == [] {
      assert FirstDifference(a, b, 0);
    } else if b != [] && a[0] == b[0] {
      StringLeqIs(a[1..], b[1..]);
      if k: nat :| FirstDifference(a[1..], b[1..], k) {
        assert a[..k + 1] == [a[0]] + a[1..][..k] && b[..k + 1] == [b[0]] + b[1..][..k];
        assert FirstDifference(a, b, k + 1);
      }
      if k: nat :| FirstDifference(a, b, k) {
        assert k > 0 && a[1..][..k - 1] == a[..k][1..] && b[1..][..k - 1] == b[..k][1..];
        assert FirstDifference(a[1..], b[1..], k - 1);
      }
    } else if b != [] {
      assert a[..0] == b[..0];
      forall k: nat | 0 < k <= |a| && k <= |b|
        ensures a[..k] != b[..k]
      {
        assert a[..k][0] == a[0] && b[..k][0] == b[0];
      }
      assert a[0] < b[0] ==> FirstDifference(a, b, 0);
    }
  }

  /** Earlier first; at one time, the greater type first. */
  predicate Leq(a: Change, b: Change) {
    a.time < b.time || (a.time == b.time && StringLeq(b.kind, a.kind))
  }

  lemma LeqTotal(a: Change, b: Change)
    ensures Leq(a, b) || Leq(b, a)
    ensures Leq(a, b) && Leq(b, a) <==> a.time == b.time && a.kind == b.kind
  {
    StringTotal(a.kind, b.kind);
    StringTotal(a.kind, a.kind);
  }

  lemma LeqTransitive(a: Change, b: Change, c: Change)
    requires Leq(a, b) && Leq(b, c)
    ensures Leq(a, c)
  {
    if a.time == b.time == c.time {
      StringTransitive(c.kind, b.kind, a.kind);
    }
  }

  predicate Ordered(s: seq<Change>) {
    forall i, j :: 0 <= i < j < |s| ==> Leq(s[i], s[j])
  }

  /** The changes of s that the order does not tell apart from those with this time and type. */
  function Ties(s: seq<Change>, time: int, kind: string): seq<Change> {
    if s == [] then [] else
      (if s[0].time == time && s[0].kind == kind then [s[0]] else []) + Ties(s[1..], time, kind)
  }

  /** The same ties, each in the same order. */
  ghost predicate SameTies(s: seq<Change>, t: seq<Change>) {
    forall time, kind :: Ties(s, time, kind) == Ties(t, time, kind)
  }

  /** t is s sorted, and the sort is stable. */
  ghost predicate StablySorted(s: seq<Change>, t: seq<Change>) {
    Ordered(t) && SameTies(s, t)
  }

  /** c goes before the first change that it must precede. */
  function Insert(c: Change, s: seq<Change>): seq<Change> {
    if s == [] then [c]
    else if Leq(c, s[0]) then [c] + s
    else [s[0]] + Insert(c, s[1..])
  }

  function StableSort(s: seq<Change>): seq<Change> {
    if s == [] then [] else Insert(s[0], StableSort(s[1..]))
  }

  lemma {:induction false} TiesConcat(s: seq<Change>, t: seq<Change>, time: int, kind: string)
    ensures Ties(s + t, time, kind) == Ties(s, time, kind) + Ties(t, time, kind)
  {
    if s == [] {
      assert s + t == t;
    } else {
      TiesConcat(s[1..], t, time, kind);
      assert (s + t)[1..] == s[1..] + t;
    }
  }

  lemma SplitCount(s: seq<Change>, t: seq<Change>, c: Change)
    ensures multiset(s + t)[c] == multiset(s)[c] + multiset(t)[c]
  {
  }

  lemma {:induction false} TiesCount(s: seq<Change>, c: Change)
    ensures multiset(s)[c] == multiset(Ties(s, c.time, c.kind))[c]
  {
    if s != [] {
      TiesCount(s[1..], c);
      var first := if s[0].time == c.time && s[0].kind == c.kind then [s[0]] else [];
      assert multiset(first)[c] == multiset([s[0]])[c];
      SplitCount([s[0]], s[1..], c);
      SplitCount(first, Ties(s[1..], c.time, c.kind), c);
      assert s == [s[0]] + s[1..];
    }
  }

  /** A stable sort is a permutation. */
  lemma SameTiesPermute(s: seq<Change>, t: seq<Change>)
    requires SameTies(s, t)
    ensures multiset(s) == multiset(t)
  {
    forall c: Change
      ensures multiset(s)[c] == multiset(t)[c]
    {
      TiesCount(s, c);
      TiesCount(t, c);
    }
  }

  lemma {:induction false} InsertOrdered(c: Change, s: seq<Change>)
    requires Ordered(s)
    ensures Ordered(Insert(c, s)) && forall x :: x in Insert(c, s) <==> x == c || x in s
  {
    if s != [] {
      if Leq(c, s[0]) {
        forall j | 0 <= j < |s|
          ensures Leq(c, s[j])
        {
          if j > 0 {
            LeqTransitive(c, s[0], s[j]);
          }
        }
      } else {
        LeqTotal(c, s[0]);
        InsertOrdered(c, s[1..]);
        assert s == [s[0]] + s[1..];
        forall x | x in Insert(c, s[1..])
          ensures Leq(s[0], x)
        {
        }
      }
    }
  }

  lemma {:induction false} InsertTies(c: Change, s: seq<Change>, time: int, kind: string)
    ensures Ties(Insert(c, s), time, kind) == Ties([c] + s, time, kind)
  {
    if s != [] && !Leq(c, s[0]) {
      InsertTies(c, s[1..], time, kind);
      LeqTotal(c, s[0]);
      assert ([c] + s)[1..] == s && ([c] + s[1..])[1..] == s[1..];
      assert Insert(c, s)[1..] == Insert(c, s[1..]);
    }
  }

  lemma {:induction false} StableSortIsStable(s: seq<Change>)
    ensures StablySorted(s, StableSort(s))
  {
    if s != [] {
      StableSortIsStable(s[1..]);
      InsertOrdered(s[0], StableSort(s[1..]));
      forall time, kind
        ensures Ties(StableSort(s), time, kind) == Ties(s, time, kind)
      {
        InsertTies(s[0], StableSort(s[1..]), time, kind);
        assert ([s[0]] + StableSort(s[1..]))[1..] == StableSort(s[1..]);
      }
    }
  }

  lemma SameTiesTail(t: seq<Change>, u: seq<Change>)
    requires t != [] && u != [] && t[0] == u[0] && SameTies(t, u)
    ensures SameTies(t[1..], u[1..])
  {
    forall time, kind
      ensures Ties(t[1..], time, kind) == Ties(u[1..], time, kind)
    {
      var first := if t[0].time == time && t[0].kind == kind then [t[0]] else [];
      assert Ties(t, time, kind) == first + Ties(t[1..], time, kind);
      assert Ties(u, time, kind) == first + Ties(u[1..], time, kind);
      assert Ties(t[1..], time, kind) == Ties(t, time, kind)[|first|..];
    }
  }

  /** There is one stable sort of a sequence, whatever algorithm computes it. */
  lemma {:induction false} StableSortUnique(t: seq<Change>, u: seq<Change>)
    requires Ordered(t) && Ordered(u) && SameTies(t, u)
    ensures t == u
  {
    SameTiesPermute(t, u);
    assert |t| == |multiset(t)| == |multiset(u)| == |u|;
    if t != [] {
      var a, b := t[0], u[0];
      assert a in multiset(u) && b in multiset(t);
      LeqTotal(a, b);
      LeqTotal(a, a);
      LeqTotal(b, b);
      assert Leq(a, b) && Leq(b, a);
      assert Ties(t, a.time, a.kind)[0] == a && Ties(u, a.time, a.kind)[0] == b;
      SameTiesTail(t, u);
      StableSortUnique(t[1..], u[1..]);
      assert t == [a] + t[1..] && u == [b] + u[1..];
    }
  }

  /** Sorting a part first does not change the sort of the whole. */
  lemma SortedPartSorts(a: seq<Change>, b: seq<Change>, b': seq<Change>, c: seq<Change>)
    requires SameTies(b, b')
    ensures StableSort(a + b' + c) == StableSort(a + b + c)
  {
    StableSortIsStable(a + b' + c);
    StableSortIsStable(a + b + c);
    forall time, kind
      ensures Ties(a + b' + c, time, kind) == Ties(a + b + c, time, kind)
    {
      TiesConcat(a + b', c, time, kind);
      TiesConcat(a, b', time, kind);
      TiesConcat(a + b, c, time, kind);
      TiesConcat(a, b, time, kind);
    }
    StableSortUnique(StableSort(a + b' + c), StableSort(a + b + c));
  }
}

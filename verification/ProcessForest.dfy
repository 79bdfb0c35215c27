/** State changes attributed to a forest of processes, one tree for each process whose parent is unknown. */
module ProcessForest {
  import opened Prelude
  import opened StateChanges

  /** A process with the changes it made and the processes it created. */
  datatype Node = Node(info: Change, objects: seq<Change>, children: seq<Node>)

  /** The process a change belongs under. */
  function Owner(c: Change): int {
    if c.ObjectChange? then c.pid else c.ppid
  }

  function Leaf(c: Change): Node {
    Node(c, [], [])
  }

  function Attach(n: Node, c: Change): Node {
    if c.ObjectChange? then n.(objects := n.objects + [c]) else n.(children := n.children + [Leaf(c)])
  }

  function Add(n: Node, c: Change): Option<Node>
    decreases n
  {
    if n.info.pid == Owner(c) then Some(Attach(n, c))
    else match AddToFirst(n.children, c)
      case None => None
      case Some(children) => Some(n.(children := children))
  }

  function AddToFirst(ns: seq<Node>, c: Change): Option<seq<Node>>
    decreases ns
  {
    if ns == [] then None
    else match Add(ns[0], c)
      case Some(n) => Some([n] + ns[1..])
      case None =>
        match AddToFirst(ns[1..], c)
        case None => None
        case Some(rest) => Some([ns[0]] + rest)
  }

  const CLIENT := "CaptureClient.exe"

  /** The process assumed for a change whose process was never announced. */
  function Assumed(c: Change): Change {
    ProcessChange("process", c.time, 0, CLIENT, "created", c.pid, c.process)
  }

  function NewTree(c: Change): Node {
    if c.ProcessChange? then Leaf(c) else Node(Assumed(c), [c], [])
  }

  function AddChange(trees: seq<Node>, c: Change): seq<Node> {
    match AddToFirst(trees, c)
    case Some(trees') => trees'
    case None => trees + [NewTree(c)]
  }

  function Build(cs: seq<Change>): seq<Node> {
    if cs == [] then [] else AddChange(Build(cs[..|cs| - 1]), cs[|cs| - 1])
  }

  // ---- The forest as an outline: one row for each process, parents before children ----

  datatype Row = Row(depth: nat, info: Change, objects: seq<Change>)

  function Outline(n: Node, d: nat): seq<Row>
    decreases n
  {
    [Row(d, n.info, n.objects)] + Outlines(n.children, d + 1)
  }

  function Outlines(ns: seq<Node>, d: nat): seq<Row>
    decreases ns
  {
    if ns == [] then [] else Outline(ns[0], d) + Outlines(ns[1..], d)
  }

  /** The first row for process p, or the number of rows. */
  function Find(rows: seq<Row>, p: int): (k: nat)
    ensures k <= |rows| && forall i :: 0 <= i < k ==> rows[i].info.pid != p
    ensures k < |rows| ==> rows[k].info.pid == p
  {
    if rows == [] || rows[0].info.pid == p then 0 else Find(rows[1..], p) + 1
  }

  /** The first row from k on that is not deeper than d, or the number of rows. */
  function EndOf(rows: seq<Row>, k: nat, d: nat): (e: nat)
    requires k <= |rows|
    ensures k <= e <= |rows| && forall i :: k <= i < e ==> rows[i].depth > d
    ensures e < |rows| ==> rows[e].depth <= d
    decreases |rows| - k
  {
    if k == |rows| || rows[k].depth <= d then k else EndOf(rows, k + 1, d)
  }

  lemma {:induction false} EndUnique(rows: seq<Row>, k: nat, d: nat, e: nat)
    requires k <= e <= |rows| && forall i :: k <= i < e ==> rows[i].depth > d
    requires e < |rows| ==> rows[e].depth <= d
    ensures EndOf(rows, k, d) == e
    decreases |rows| - k
  {
    if k < e {
      EndUnique(rows, k + 1, d, e);
    }
  }

  lemma {:induction false} FindUnique(rows: seq<Row>, p: int, k: nat)
    requires k <= |rows| && forall i :: 0 <= i < k ==> rows[i].info.pid != p
    requires k < |rows| ==> rows[k].info.pid == p
    ensures Find(rows, p) == k
  {
    if k > 0 {
      FindUnique(rows[1..], p, k - 1);
    }
  }

  /** c written into the row at k, or as a new last child of it. */
  function WriteAt(rows: seq<Row>, k: nat, c: Change): seq<Row>
    requires k < |rows|
  {
    if c.ObjectChange? then rows[k := rows[k].(objects := rows[k].objects + [c])]
    else
      var e := EndOf(rows, k + 1, rows[k].depth);
      rows[..e] + [Row(rows[k].depth + 1, c, [])] + rows[e..]
  }

  lemma {:induction false} OutlinesConcat(ns: seq<Node>, ms: seq<Node>, d: nat)
    ensures Outlines(ns + ms, d) == Outlines(ns, d) + Outlines(ms, d)
  {
    if ns == [] {
      assert ns + ms == ms;
    } else {
      assert (ns + ms)[1..] == ns[1..] + ms;
      OutlinesConcat(ns[1..], ms, d);
    }
  }

  lemma {:induction false} OutlineDepth(n: Node, d: nat)
    ensures forall i :: 0 <= i < |Outline(n, d)| ==> Outline(n, d)[i].depth >= d
    ensures forall i :: 1 <= i < |Outline(n, d)| ==> Outline(n, d)[i].depth > d
    decreases n
  {
    OutlinesDepth(n.children, d + 1);
  }

  lemma {:induction false} OutlinesDepth(ns: seq<Node>, d: nat)
    ensures forall i :: 0 <= i < |Outlines(ns, d)| ==> Outlines(ns, d)[i].depth >= d
    ensures ns != [] ==> Outlines(ns, d) != [] && Outlines(ns, d)[0].depth == d
    decreases ns
  {
    if ns != [] {
      OutlineDepth(ns[0], d);
      OutlinesDepth(ns[1..], d);
    }
  }

  /** Where a tree's outline ends within that of a forest can be seen from the rows. */
  lemma SameHeads(n: Node, ns: seq<Node>, m: Node, ms: seq<Node>, d: nat)
    requires Outline(n, d) + Outlines(ns, d) == Outline(m, d) + Outlines(ms, d)
    ensures Outline(n, d) == Outline(m, d) && Outlines(ns, d) == Outlines(ms, d)
  {
    HeadLength(n, ns, d);
    HeadLength(m, ms, d);
    var rows := Outline(n, d) + Outlines(ns, d);
    assert Outline(n, d) == rows[..|Outline(n, d)|] && Outlines(ns, d) == rows[|Outline(n, d)|..];
    assert Outline(m, d) == rows[..|Outline(m, d)|] && Outlines(ms, d) == rows[|Outline(m, d)|..];
  }

  lemma SameRoots(n: Node, m: Node, d: nat)
    requires Outline(n, d) == Outline(m, d)
    ensures n.info == m.info && n.objects == m.objects && Outlines(n.children, d + 1) == Outlines(m.children, d + 1)
  {
    assert Outline(n, d)[0] == Outline(m, d)[0];
    assert Outlines(n.children, d + 1) == Outline(n, d)[1..] && Outlines(m.children, d + 1) == Outline(m, d)[1..];
  }

  /** Different forests have different outlines. */
  lemma {:induction false} OutlinesInjective(ns: seq<Node>, ms: seq<Node>, d: nat)
    requires Outlines(ns, d) == Outlines(ms, d)
    ensures ns == ms
    decreases ns
  {
    OutlinesDepth(ns, d);
    OutlinesDepth(ms, d);
    if ns != [] {
      SameHeads(ns[0], ns[1..], ms[0], ms[1..], d);
      SameRoots(ns[0], ms[0], d);
      OutlinesInjective(ns[0].children, ms[0].children, d + 1);
      OutlinesInjective(ns[1..], ms[1..], d);
      assert ns == [ns[0]] + ns[1..] && ms == [ms[0]] + ms[1..];
    }
  }

  /** A tree's outline ends where the next row is not deeper than its root. */
  lemma HeadLength(n: Node, rest: seq<Node>, d: nat)
    ensures |Outline(n, d)| == EndOf(Outline(n, d) + Outlines(rest, d), 1, d)
  {
    OutlineDepth(n, d);
    OutlinesDepth(rest, d);
    var rows := Outline(n, d) + Outlines(rest, d);
    EndUnique(rows, 1, d, |Outline(n, d)|);
  }

  lemma LeafOutline(c: Change, d: nat)
    ensures Outlines([Leaf(c)], d) == [Row(d, c, [])]
  {
    assert [Leaf(c)][1..] == [];
    assert Outline(Leaf(c), d) == [Row(d, c, [])] + Outlines([], d + 1);
  }

  // ---- Insertion is writing at the first row of the owner ----

  lemma SplicedLeft<T>(a: seq<T>, b: seq<T>, e: nat, x: T)
    requires e <= |a|
    ensures (a + b)[..e] + [x] + (a + b)[e..] == a[..e] + [x] + a[e..] + b
    ensures e < |a| ==> (a + b)[e] == a[e] && (a + b)[e := x] == a[e := x] + b
  {
    assert (a + b)[..e] == a[..e] && (a + b)[e..] == a[e..] + b;
  }

  lemma {:induction false} EndLeft(a: seq<Row>, b: seq<Row>, k: nat, d: nat)
    requires k <= |a| && (b != [] ==> b[0].depth <= d)
    ensures EndOf(a + b, k, d) == EndOf(a, k, d)
    decreases |a| - k
  {
    if k < |a| {
      assert (a + b)[k] == a[k];
      EndLeft(a, b, k + 1, d);
    }
  }

  lemma WriteLeft(a: seq<Row>, b: seq<Row>, k: nat, c: Change)
    requires k < |a| && (b != [] ==> b[0].depth <= a[k].depth)
    ensures WriteAt(a + b, k, c) == WriteAt(a, k, c) + b
  {
    if c.ObjectChange? {
      SplicedLeft(a, b, k, a[k].(objects := a[k].objects + [c]));
    } else {
      assert (a + b)[k] == a[k];
      EndLeft(a, b, k + 1, a[k].depth);
      SplicedLeft(a, b, EndOf(a, k + 1, a[k].depth), Row(a[k].depth + 1, c, []));
    }
  }

  lemma {:induction false} EndRight(a: seq<Row>, b: seq<Row>, k: nat, d: nat)
    requires k <= |b|
    ensures EndOf(a + b, |a| + k, d) == |a| + EndOf(b, k, d)
    decreases |b| - k
  {
    if k < |b| {
      assert (a + b)[|a| + k] == b[k];
      EndRight(a, b, k + 1, d);
    }
  }

  lemma SplicedRight<T>(a: seq<T>, b: seq<T>, e: nat, x: T)
    requires e <= |b|
    ensures (a + b)[..|a| + e] + [x] + (a + b)[|a| + e..] == a + (b[..e] + [x] + b[e..])
    ensures e < |b| ==> (a + b)[|a| + e] == b[e] && (a + b)[|a| + e := x] == a + b[e := x]
  {
    assert (a + b)[..|a| + e] == a + b[..e] && (a + b)[|a| + e..] == b[e..];
  }

  lemma WriteRight(a: seq<Row>, b: seq<Row>, k: nat, c: Change)
    requires k < |b|
    ensures WriteAt(a + b, |a| + k, c) == a + WriteAt(b, k, c)
  {
    if c.ObjectChange? {
      SplicedRight(a, b, k, b[k].(objects := b[k].objects + [c]));
    } else {
      assert (a + b)[|a| + k] == b[k];
      EndRight(a, b, k + 1, b[k].depth);
      SplicedRight(a, b, EndOf(b, k + 1, b[k].depth), Row(b[k].depth + 1, c, []));
    }
  }

  lemma FindConcat(a: seq<Row>, b: seq<Row>, p: int)
    ensures Find(a + b, p) == if Find(a, p) < |a| then Find(a, p) else |a| + Find(b, p)
  {
    FindUnique(a + b, p, if Find(a, p) < |a| then Find(a, p) else |a| + Find(b, p));
  }

  /** What an insertion should do to an outline. */
  predicate Inserted(before: seq<Row>, after: Option<seq<Row>>, c: Change) {
    var k := Find(before, Owner(c));
    after == if k < |before| then Some(WriteAt(before, k, c)) else None
  }

  function OutlineOf(n: Option<Node>, d: nat): Option<seq<Row>> {
    match n
    case None => None
    case Some(n) => Some(Outline(n, d))
  }

  function OutlinesOf(ns: Option<seq<Node>>, d: nat): Option<seq<Row>> {
    match ns
    case None => None
    case Some(ns) => Some(Outlines(ns, d))
  }

  lemma AttachWrites(n: Node, c: Change, d: nat)
    ensures Outline(Attach(n, c), d) == WriteAt(Outline(n, d), 0, c)
  {
    var rows := Outline(n, d);
    if c.ProcessChange? {
      OutlineDepth(n, d);
      EndUnique(rows, 1, d, |rows|);
      OutlinesConcat(n.children, [Leaf(c)], d + 1);
      LeafOutline(c, d + 1);
      assert rows[..|rows|] == rows;
    }
  }

  lemma OutlinesOfCons(n: Node, ns: seq<Node>, d: nat)
    ensures Outlines([n] + ns, d) == Outline(n, d) + Outlines(ns, d)
  {
    assert ([n] + ns)[1..] == ns;
  }

  lemma InsertedHead(head: seq<Row>, rest: seq<Row>, out: seq<Row>, c: Change)
    requires Inserted(head, Some(out), c) && forall i :: 0 <= i < |head| && rest != [] ==> rest[0].depth <= head[i].depth
    ensures Inserted(head + rest, Some(out + rest), c)
  {
    FindConcat(head, rest, Owner(c));
    WriteLeft(head, rest, Find(head, Owner(c)), c);
  }

  lemma InsertedRest(head: seq<Row>, rest: seq<Row>, out: seq<Row>, c: Change)
    requires Inserted(head, None, c) && Inserted(rest, Some(out), c)
    ensures Inserted(head + rest, Some(head + out), c)
  {
    FindConcat(head, rest, Owner(c));
    WriteRight(head, rest, Find(rest, Owner(c)), c);
  }

  lemma InsertedNowhere(head: seq<Row>, rest: seq<Row>, c: Change)
    requires Inserted(head, None, c) && Inserted(rest, None, c)
    ensures Inserted(head + rest, None, c)
  {
    FindConcat(head, rest, Owner(c));
  }

  lemma {:induction false} AddInserts(n: Node, c: Change, d: nat)
    ensures Inserted(Outline(n, d), OutlineOf(Add(n, c), d), c)
    decreases n
  {
    if n.info.pid == Owner(c) {
      AttachWrites(n, c, d);
    } else {
      var root, rest := [Row(d, n.info, n.objects)], Outlines(n.children, d + 1);
      FindUnique(root, Owner(c), 1);
      AddToFirstInserts(n.children, c, d + 1);
      match AddToFirst(n.children, c)
      case Some(children) => InsertedRest(root, rest, Outlines(children, d + 1), c);
      case None => InsertedNowhere(root, rest, c);
    }
  }

  lemma {:induction false} AddToFirstInserts(ns: seq<Node>, c: Change, d: nat)
    ensures Inserted(Outlines(ns, d), OutlinesOf(AddToFirst(ns, c), d), c)
    decreases ns
  {
    if ns != [] {
      var head, rest := Outline(ns[0], d), Outlines(ns[1..], d);
      AddInserts(ns[0], c, d);
      AddToFirstInserts(ns[1..], c, d);
      match Add(ns[0], c)
      case Some(n) =>
        OutlineDepth(ns[0], d);
        OutlinesDepth(ns[1..], d);
        InsertedHead(head, rest, Outline(n, d), c);
        OutlinesOfCons(n, ns[1..], d);
      case None =>
        match AddToFirst(ns[1..], c)
        case Some(later) =>
          InsertedRest(head, rest, Outlines(later, d), c);
          OutlinesOfCons(ns[0], later, d);
        case None =>
          InsertedNowhere(head, rest, c);
    }
  }

  /** Every insertion succeeds: at the first process, parents before children, with the owner's id, or as a new
      tree; and the outline determines the forest. */
  lemma AddChangeRefines(trees: seq<Node>, c: Change)
    ensures var rows := Outlines(trees, 0);
            var k := Find(rows, Owner(c));
            Outlines(AddChange(trees, c), 0) ==
              if k < |rows| then WriteAt(rows, k, c)
              else if c.ProcessChange? then rows + [Row(0, c, [])]
              else rows + [Row(0, Assumed(c), [c])]
  {
    AddToFirstInserts(trees, c, 0);
    if AddToFirst(trees, c).None? {
      OutlinesConcat(trees, [NewTree(c)], 0);
      assert Outlines([NewTree(c)], 0) == Outline(NewTree(c), 0);
    }
  }
}

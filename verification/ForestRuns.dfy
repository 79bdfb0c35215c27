/** What every run of insertions keeps in the forest, and what its trees list. */
module ForestRuns {
  import opened Prelude
  import opened StateChanges
  import opened ProcessForest

  // ---- Attribution ----

  predicate ObjectsOf(objects: seq<Change>, pid: int) {
    forall c :: c in objects ==> c.ObjectChange? && c.pid == pid
  }

  /** Changes and children hang under the process they name. */
  predicate Attributed(n: Node)
    decreases n
  {
    n.info.ProcessChange? && ObjectsOf(n.objects, n.info.pid) && AllAttributed(n.children, Some(n.info.pid))
  }

  /** The trees are attributed, and all created by the parent if there is one. */
  predicate AllAttributed(ns: seq<Node>, parent: Option<int>)
    decreases ns
  {
    ns == [] ||
    (Attributed(ns[0]) && (parent.Some? ==> ns[0].info.ppid == parent.value) && AllAttributed(ns[1..], parent))
  }

  /** All changes in a tree, with their multiplicities. */
  function Contents(n: Node): multiset<Change>
    decreases n
  {
    multiset{n.info} + multiset(n.objects) + AllContents(n.children)
  }

  function AllContents(ns: seq<Node>): multiset<Change>
    decreases ns
  {
    if ns == [] then multiset{} else Contents(ns[0]) + AllContents(ns[1..])
  }

  /** The ids of the processes in a tree. */
  function Pids(n: Node): set<int>
    decreases n
  {
    {n.info.pid} + AllPids(n.children)
  }

  function AllPids(ns: seq<Node>): set<int>
    decreases ns
  {
    if ns == [] then {} else Pids(ns[0]) + AllPids(ns[1..])
  }

  lemma {:induction false} ContentsConcat(ns: seq<Node>, ms: seq<Node>)
    ensures AllContents(ns + ms) == AllContents(ns) + AllContents(ms)
    ensures AllPids(ns + ms) == AllPids(ns) + AllPids(ms)
  {
    if ns == [] {
      assert ns + ms == ms;
    } else {
      assert (ns + ms)[1..] == ns[1..] + ms;
      ContentsConcat(ns[1..], ms);
    }
  }

  lemma {:induction false} AttributedConcat(ns: seq<Node>, n: Node, parent: Option<int>)
    requires AllAttributed(ns, parent) && Attributed(n) && (parent.Some? ==> n.info.ppid == parent.value)
    ensures AllAttributed(ns + [n], parent)
  {
    if ns == [] {
      assert ns + [n] == [n] && [n][1..] == [];
    } else {
      assert (ns + [n])[1..] == ns[1..] + [n];
      AttributedConcat(ns[1..], n, parent);
    }
  }

  lemma OneTree(n: Node)
    ensures AllContents([n]) == Contents(n) && AllPids([n]) == Pids(n)
  {
    assert [n][1..] == [];
  }

  lemma {:induction false} AddFinds(n: Node, c: Change)
    ensures Add(n, c).Some? <==> Owner(c) in Pids(n)
    decreases n
  {
    AddToFirstFinds(n.children, c);
  }

  lemma {:induction false} AddToFirstFinds(ns: seq<Node>, c: Change)
    ensures AddToFirst(ns, c).Some? <==> Owner(c) in AllPids(ns)
    decreases ns
  {
    if ns != [] {
      AddFinds(ns[0], c);
      AddToFirstFinds(ns[1..], c);
    }
  }

  lemma {:induction false} AddAttributes(n: Node, c: Change)
    requires Attributed(n) && Add(n, c).Some?
    ensures Attributed(Add(n, c).value) && Add(n, c).value.info == n.info
    decreases n
  {
    if n.info.pid == Owner(c) {
      if c.ProcessChange? {
        AttributedConcat(n.children, Leaf(c), Some(n.info.pid));
      }
    } else {
      AddToFirstAttributes(n.children, c, Some(n.info.pid));
    }
  }

  lemma {:induction false} AddToFirstAttributes(ns: seq<Node>, c: Change, parent: Option<int>)
    requires AllAttributed(ns, parent) && AddToFirst(ns, c).Some?
    ensures AllAttributed(AddToFirst(ns, c).value, parent)
    decreases ns
  {
    match Add(ns[0], c)
    case Some(n) =>
      AddAttributes(ns[0], c);
      assert ([n] + ns[1..])[1..] == ns[1..];
    case None =>
      AddToFirstAttributes(ns[1..], c, parent);
      var rest := AddToFirst(ns[1..], c).value;
      assert ([ns[0]] + rest)[1..] == rest;
  }

  /** The process that c brings into a forest, if any. */
  function Created(c: Change): set<int> {
    if c.ProcessChange? then {c.pid} else {}
  }

  lemma AddLast<T>(a: multiset<T>, b: multiset<T>, c: multiset<T>)
    ensures a + c + b == a + b + c == a + (b + c)
  {
  }

  lemma {:induction false} AddCounts(n: Node, c: Change)
    requires Add(n, c).Some?
    ensures Contents(Add(n, c).value) == Contents(n) + multiset{c}
    decreases n
  {
    if n.info.pid == Owner(c) {
      OneTree(Leaf(c));
      ContentsConcat(n.children, [Leaf(c)]);
      if c.ObjectChange? {
        AddLast(multiset{n.info} + multiset(n.objects), AllContents(n.children), multiset{c});
      }
    } else {
      AddToFirstCounts(n.children, c);
    }
  }

  lemma {:induction false} AddToFirstCounts(ns: seq<Node>, c: Change)
    requires AddToFirst(ns, c).Some?
    ensures AllContents(AddToFirst(ns, c).value) == AllContents(ns) + multiset{c}
    decreases ns
  {
    AddLast(Contents(ns[0]), AllContents(ns[1..]), multiset{c});
    match Add(ns[0], c)
    case Some(n) =>
      AddCounts(ns[0], c);
      assert ([n] + ns[1..])[1..] == ns[1..];
    case None =>
      AddToFirstCounts(ns[1..], c);
      var rest := AddToFirst(ns[1..], c).value;
      assert ([ns[0]] + rest)[1..] == rest;
  }

  lemma {:induction false} AddNames(n: Node, c: Change)
    requires Add(n, c).Some?
    ensures Pids(Add(n, c).value) == Pids(n) + Created(c)
    decreases n
  {
    if n.info.pid == Owner(c) {
      OneTree(Leaf(c));
      ContentsConcat(n.children, [Leaf(c)]);
    } else {
      AddToFirstNames(n.children, c);
    }
  }

  lemma {:induction false} AddToFirstNames(ns: seq<Node>, c: Change)
    requires AddToFirst(ns, c).Some?
    ensures AllPids(AddToFirst(ns, c).value) == AllPids(ns) + Created(c)
    decreases ns
  {
    match Add(ns[0], c)
    case Some(n) =>
      AddNames(ns[0], c);
      assert ([n] + ns[1..])[1..] == ns[1..];
    case None =>
      AddToFirstNames(ns[1..], c);
      var rest := AddToFirst(ns[1..], c).value;
      assert ([ns[0]] + rest)[1..] == rest;
  }

  // ---- Runs ----

  /** The ids that the changes name as acting or created. */
  function Named(cs: seq<Change>): set<int> {
    set c | c in cs :: c.pid
  }

  function AssumedFor(known: set<int>, c: Change): seq<Change> {
    if c.ObjectChange? && c.pid !in known then [Assumed(c)] else []
  }

  /** The processes assumed in a run: one for the first change of every process not announced before. */
  function AssumedIn(cs: seq<Change>): seq<Change> {
    if cs == [] then [] else
      var before, c := cs[..|cs| - 1], cs[|cs| - 1];
      AssumedIn(before) + AssumedFor(Named(before), c)
  }

  lemma AddChangeAttributes(trees: seq<Node>, c: Change)
    requires AllAttributed(trees, None)
    ensures AllAttributed(AddChange(trees, c), None)
  {
    if AddToFirst(trees, c).Some? {
      AddToFirstAttributes(trees, c, None);
    } else {
      AttributedConcat(trees, NewTree(c), None);
    }
  }

  lemma AddChangeNames(trees: seq<Node>, c: Change)
    ensures AllPids(AddChange(trees, c)) == AllPids(trees) + {c.pid}
  {
    AddToFirstFinds(trees, c);
    if AddToFirst(trees, c).Some? {
      AddToFirstNames(trees, c);
    } else {
      ContentsConcat(trees, [NewTree(c)]);
      OneTree(NewTree(c));
    }
  }

  lemma AddChangeCounts(trees: seq<Node>, c: Change)
    ensures AllContents(AddChange(trees, c)) == AllContents(trees) + multiset{c} + multiset(AssumedFor(AllPids(trees), c))
  {
    AddToFirstFinds(trees, c);
    if AddToFirst(trees, c).Some? {
      AddToFirstCounts(trees, c);
    } else {
      ContentsConcat(trees, [NewTree(c)]);
      OneTree(NewTree(c));
    }
  }

  lemma Regroup<T>(a: seq<T>, b: seq<T>, c: T, d: seq<T>)
    ensures multiset(a) + multiset(b) + multiset{c} + multiset(d) == multiset(a + [c]) + multiset(b + d)
  {
  }

  lemma {:induction false} RunAttributes(cs: seq<Change>)
    ensures AllAttributed(Build(cs), None)
  {
    if cs != [] {
      RunAttributes(cs[..|cs| - 1]);
      AddChangeAttributes(Build(cs[..|cs| - 1]), cs[|cs| - 1]);
    }
  }

  lemma NamedNext(cs: seq<Change>, c: Change)
    ensures Named(cs + [c]) == Named(cs) + {c.pid}
  {
  }

  lemma RunNamesStep(before: seq<Change>, c: Change, trees: seq<Node>)
    requires AllPids(trees) == Named(before)
    ensures AllPids(AddChange(trees, c)) == Named(before + [c])
  {
    AddChangeNames(trees, c);
    NamedNext(before, c);
  }

  lemma {:induction false} RunNames(cs: seq<Change>, trees: seq<Node>)
    requires trees == Build(cs)
    ensures AllPids(trees) == Named(cs)
    decreases |cs|
  {
    if cs != [] {
      var before, c := cs[..|cs| - 1], cs[|cs| - 1];
      RunNames(before, Build(before));
      RunNamesStep(before, c, Build(before));
      assert before + [c] == cs;
    }
  }

  lemma RunCountsStep(before: seq<Change>, c: Change, trees: seq<Node>, assumed: seq<Change>)
    requires AllContents(trees) == multiset(before) + multiset(assumed) && AllPids(trees) == Named(before)
    ensures AllContents(AddChange(trees, c)) == multiset(before + [c]) + multiset(assumed + AssumedFor(Named(before), c))
  {
    AddChangeCounts(trees, c);
    Regroup(before, assumed, c, AssumedFor(AllPids(trees), c));
  }

  lemma {:induction false} RunCounts(cs: seq<Change>, trees: seq<Node>, assumed: seq<Change>)
    requires trees == Build(cs) && assumed == AssumedIn(cs)
    ensures AllContents(trees) == multiset(cs) + multiset(assumed)
    decreases |cs|
  {
    if cs != [] {
      var before, c := cs[..|cs| - 1], cs[|cs| - 1];
      RunCounts(before, Build(before), AssumedIn(before));
      RunNames(before, Build(before));
      assert before + [c] == cs && trees == AddChange(Build(before), c);
      RunCountsStep(before, c, Build(before), AssumedIn(before));
    }
  }

  /** Attribution, conservation and the processes known, after every run of insertions. */
  lemma ForestTheorem(cs: seq<Change>)
    ensures AllAttributed(Build(cs), None)
    ensures AllContents(Build(cs)) == multiset(cs) + multiset(AssumedIn(cs))
    ensures AllPids(Build(cs)) == Named(cs)
  {
    RunAttributes(cs);
    RunNames(cs, Build(cs));
    RunCounts(cs, Build(cs), AssumedIn(cs));
  }

  /** The process assumed for the first change of an unknown one: created by the client, whose id is not known, at the
      time of the change and under the name that the change gives. */
  lemma AssumedTheorem(cs: seq<Change>, c: Change)
    requires c.ObjectChange? && c.pid !in Named(cs)
    ensures var root := ProcessChange("process", c.time, 0, "CaptureClient.exe", "created", c.pid, c.process);
            && AssumedIn(cs + [c]) == AssumedIn(cs) + [root]
            && Build(cs + [c]) == Build(cs) + [Node(root, [c], [])]
  {
    assert (cs + [c])[..|cs|] == cs;
    RunNames(cs, Build(cs));
    AddToFirstFinds(Build(cs), c);
  }

  // ---- Reading a tree out ----

  /** A tree read out without sorting: own changes, child trees, then the process itself. */
  function Flat(n: Node): seq<Change>
    decreases n
  {
    n.objects + AllFlat(n.children) + [n.info]
  }

  function AllFlat(ns: seq<Node>): seq<Change>
    decreases ns
  {
    if ns == [] then [] else Flat(ns[0]) + AllFlat(ns[1..])
  }

  /** A tree read out as the server does, sorting again at every level. */
  function AllStateChanges(n: Node): seq<Change>
    decreases n
  {
    StableSort(n.objects + ChildChanges(n.children) + [n.info])
  }

  function ChildChanges(ns: seq<Node>): seq<Change>
    decreases ns
  {
    if ns == [] then [] else AllStateChanges(ns[0]) + ChildChanges(ns[1..])
  }

  lemma {:induction false} ChildTies(ns: seq<Node>)
    ensures SameTies(AllFlat(ns), ChildChanges(ns))
    decreases ns
  {
    if ns != [] {
      NestedSort(ns[0]);
      StableSortIsStable(Flat(ns[0]));
      ChildTies(ns[1..]);
      forall time, kind
        ensures Ties(AllFlat(ns), time, kind) == Ties(ChildChanges(ns), time, kind)
      {
        TiesConcat(Flat(ns[0]), AllFlat(ns[1..]), time, kind);
        TiesConcat(AllStateChanges(ns[0]), ChildChanges(ns[1..]), time, kind);
        assert Ties(Flat(ns[0]), time, kind) == Ties(AllStateChanges(ns[0]), time, kind);
      }
    }
  }

  /** The nested sorts collapse to one stable sort of the flat reading. */
  lemma {:induction false} NestedSort(n: Node)
    ensures AllStateChanges(n) == StableSort(Flat(n))
    decreases n
  {
    ChildTies(n.children);
    SortedPartSorts(n.objects, AllFlat(n.children), ChildChanges(n.children), [n.info]);
  }

  lemma {:induction false} FlatContents(n: Node)
    ensures multiset(Flat(n)) == Contents(n)
    decreases n
  {
    AllFlatContents(n.children);
  }

  lemma {:induction false} AllFlatContents(ns: seq<Node>)
    ensures multiset(AllFlat(ns)) == AllContents(ns)
    decreases ns
  {
    if ns != [] {
      FlatContents(ns[0]);
      AllFlatContents(ns[1..]);
    }
  }

  /** A tree's report goes forward in time; at one time the types go backward: the later one ends where the earlier one
      goes on, or has the smaller unit at the first difference, or is the same. */
  lemma OrderTheorem(n: Node, i: nat, j: nat)
    requires i < j < |AllStateChanges(n)|
    ensures var a, b := AllStateChanges(n)[i], AllStateChanges(n)[j];
            a.time < b.time || (a.time == b.time && exists k: nat :: FirstDifference(b.kind, a.kind, k))
  {
    ReadingTheorem(n);
    var a, b := AllStateChanges(n)[i], AllStateChanges(n)[j];
    assert Leq(a, b);
    StringLeqIs(b.kind, a.kind);
  }

  /** A tree's report lists its changes in order, each as often as the tree holds it, ties as in the flat reading. */
  lemma ReadingTheorem(n: Node)
    ensures Ordered(AllStateChanges(n))
    ensures multiset(AllStateChanges(n)) == Contents(n)
    ensures SameTies(Flat(n), AllStateChanges(n))
  {
    NestedSort(n);
    StableSortIsStable(Flat(n));
    SameTiesPermute(Flat(n), AllStateChanges(n));
    FlatContents(n);
  }
}

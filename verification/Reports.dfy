/** The reports made from a forest: one for each listed process, and one for what is left. */
module Reports {
  import opened Prelude
  import opened StateChanges
  import opened ProcessForest
  import opened ForestRuns

  predicate Answers(n: Node, pid: int) {
    n.info.pid == pid || (n.info.ProcessChange? && n.info.ppid == pid)
  }

  function FirstAnswer(trees: seq<Node>, pid: int): (i: nat)
    ensures i <= |trees| && forall j :: 0 <= j < i ==> !Answers(trees[j], pid)
    ensures i < |trees| ==> Answers(trees[i], pid)
  {
    if trees == [] || Answers(trees[0], pid) then 0 else FirstAnswer(trees[1..], pid) + 1
  }

  /** The tree reported for a process, or the number of trees. */
  function Selected(trees: seq<Node>, pid: int): (i: nat)
    ensures i <= |trees|
  {
    var i := FirstAnswer(trees, pid);
    if i == |trees| == 1 && pid == 0 then 0 else i
  }

  function Report(trees: seq<Node>, pid: int): seq<Change> {
    var i := Selected(trees, pid);
    if i < |trees| then AllStateChanges(trees[i]) else []
  }

  /** The changes of the trees whose process is not listed. */
  function Remainder(trees: seq<Node>, pids: seq<int>): seq<Change> {
    if trees == [] then [] else
      (if trees[0].info.pid in pids then [] else AllStateChanges(trees[0])) + Remainder(trees[1..], pids)
  }

  function AllReports(trees: seq<Node>, pids: seq<int>): seq<Change> {
    if pids == [] then [] else AllReports(trees, pids[..|pids| - 1]) + Report(trees, pids[|pids| - 1])
  }

  predicate DistinctRoots(trees: seq<Node>) {
    forall i, j :: 0 <= i < j < |trees| ==> trees[i].info.pid != trees[j].info.pid
  }

  /** The tree reported for a listed process is that process's own. */
  predicate SelectsOwn(trees: seq<Node>, pid: int) {
    Selected(trees, pid) < |trees| ==> trees[Selected(trees, pid)].info.pid == pid
  }

  /** Every root whose parent is pid comes after a root with pid itself, and pid is not the 0 that a single tree of
      another process is reported for. */
  predicate OwnFirst(trees: seq<Node>, pid: int) {
    && (forall i :: 0 <= i < |trees| && trees[i].info.ProcessChange? && trees[i].info.ppid == pid != trees[i].info.pid ==>
          exists j :: 0 <= j < i && trees[j].info.pid == pid)
    && !(pid == 0 && |trees| == 1 && trees[0].info.pid != 0)
  }

  /** That is exactly when the tree selected for pid, if any, is its own. */
  lemma OwnFirstSelects(trees: seq<Node>, pid: int)
    ensures OwnFirst(trees, pid) <==> SelectsOwn(trees, pid)
  {
    var s := FirstAnswer(trees, pid);
    assert forall j :: 0 <= j < s ==> !Answers(trees[j], pid);
    if SelectsOwn(trees, pid) {
      forall i | 0 <= i < |trees| && trees[i].info.ProcessChange? && trees[i].info.ppid == pid != trees[i].info.pid
        ensures exists j :: 0 <= j < i && trees[j].info.pid == pid
      {
        assert Answers(trees[i], pid);
        assert s < i && trees[s].info.pid == pid;
      }
    }
  }

  /** No root's id is listed twice. */
  predicate ListedOnce(trees: seq<Node>, pids: seq<int>) {
    forall j, k, i :: 0 <= j < k < |pids| && 0 <= i < |trees| && pids[j] == pids[k] ==> trees[i].info.pid != pids[k]
  }

  /** The condition on the listed ids. */
  predicate Clean(trees: seq<Node>, pids: seq<int>) {
    ListedOnce(trees, pids) && forall k :: 0 <= k < |pids| ==> OwnFirst(trees, pids[k])
  }

  /** How many of the reports show tree i. */
  function Shown(trees: seq<Node>, pids: seq<int>, i: nat): nat {
    if pids == [] then 0
    else Shown(trees, pids[..|pids| - 1], i) + if Selected(trees, pids[|pids| - 1]) == i then 1 else 0
  }

  /** Every tree is shown by exactly one report, the remainder included. */
  ghost predicate Partition(trees: seq<Node>, pids: seq<int>) {
    forall i {:trigger Shown(trees, pids, i)} :: 0 <= i < |trees| ==>
      Shown(trees, pids, i) + (if trees[i].info.pid in pids then 0 else 1) == 1
  }

  lemma {:induction false} ShownNone(trees: seq<Node>, pids: seq<int>, i: nat)
    requires forall k :: 0 <= k < |pids| ==> Selected(trees, pids[k]) != i
    ensures Shown(trees, pids, i) == 0
  {
    if pids != [] {
      ShownNone(trees, pids[..|pids| - 1], i);
    }
  }

  lemma {:induction false} ShownOnce(trees: seq<Node>, pids: seq<int>, i: nat, k: nat)
    requires k < |pids| && Selected(trees, pids[k]) == i
    requires forall m :: 0 <= m < |pids| && m != k ==> Selected(trees, pids[m]) != i
    ensures Shown(trees, pids, i) == 1
  {
    if k == |pids| - 1 {
      ShownNone(trees, pids[..|pids| - 1], i);
    } else {
      ShownOnce(trees, pids[..|pids| - 1], i, k);
    }
  }

  lemma {:induction false} ShownAtLeast(trees: seq<Node>, pids: seq<int>, i: nat, k: nat)
    requires k < |pids| && Selected(trees, pids[k]) == i
    ensures Shown(trees, pids, i) >= 1
  {
    if k < |pids| - 1 {
      ShownAtLeast(trees, pids[..|pids| - 1], i, k);
    }
  }

  lemma {:induction false} ShownTwice(trees: seq<Node>, pids: seq<int>, i: nat, k: nat, m: nat)
    requires k < m < |pids| && Selected(trees, pids[k]) == i == Selected(trees, pids[m])
    ensures Shown(trees, pids, i) >= 2
  {
    if m < |pids| - 1 {
      ShownTwice(trees, pids[..|pids| - 1], i, k, m);
    } else {
      ShownAtLeast(trees, pids[..|pids| - 1], i, k);
    }
  }

  lemma CleanPartition(trees: seq<Node>, pids: seq<int>)
    requires DistinctRoots(trees) && Clean(trees, pids)
    ensures Partition(trees, pids)
  {
    forall i | 0 <= i < |trees|
      ensures Shown(trees, pids, i) + (if trees[i].info.pid in pids then 0 else 1) == 1
    {
      ShownRight(trees, pids, i);
    }
  }

  lemma ShownRight(trees: seq<Node>, pids: seq<int>, i: nat)
    requires DistinctRoots(trees) && Clean(trees, pids) && i < |trees|
    ensures Shown(trees, pids, i) + (if trees[i].info.pid in pids then 0 else 1) == 1
  {
    var p := trees[i].info.pid;
    forall k | 0 <= k < |pids|
      ensures Selected(trees, pids[k]) == i <==> pids[k] == p
    {
      OwnFirstSelects(trees, pids[k]);
      assert pids[k] == p ==> Answers(trees[i], pids[k]);
    }
    if p in pids {
      var k :| 0 <= k < |pids| && pids[k] == p;
      ShownOnce(trees, pids, i, k);
    } else {
      ShownNone(trees, pids, i);
    }
  }

  /** In a partition no listed process selects a tree that is not its own: else the tree's own process, which is
      then listed too, selects an earlier tree that is not its own, and so on. */
  lemma {:induction false} PartitionOwns(trees: seq<Node>, pids: seq<int>, k: nat)
    requires DistinctRoots(trees) && Partition(trees, pids)
    requires k < |pids| && Selected(trees, pids[k]) < |trees|
    ensures trees[Selected(trees, pids[k])].info.pid == pids[k]
    decreases Selected(trees, pids[k])
  {
    var i := Selected(trees, pids[k]);
    var q := trees[i].info.pid;
    if q != pids[k] {
      ShownAtLeast(trees, pids, i, k);
      var m :| 0 <= m < |pids| && pids[m] == q;
      assert Answers(trees[i], q);
      var j := Selected(trees, q);
      if j == i {
        ShownTwice(trees, pids, i, if k < m then k else m, if k < m then m else k);
        assert false;
      } else {
        PartitionOwns(trees, pids, m);
        assert false;
      }
    }
  }

  /** In a partition no root's process is listed twice. */
  lemma PartitionListedOnce(trees: seq<Node>, pids: seq<int>)
    requires Partition(trees, pids)
    ensures ListedOnce(trees, pids)
  {
    forall j, k, i | 0 <= j < k < |pids| && 0 <= i < |trees| && pids[j] == pids[k]
      ensures trees[i].info.pid != pids[k]
    {
      if trees[i].info.pid == pids[k] {
        assert Answers(trees[i], pids[k]);
        ShownTwice(trees, pids, Selected(trees, pids[k]), j, k);
        assert false;
      }
    }
  }

  /** The exact condition for the reports to show every tree exactly once. */
  lemma PartitionTheorem(trees: seq<Node>, pids: seq<int>)
    requires DistinctRoots(trees)
    ensures Partition(trees, pids) <==> Clean(trees, pids)
  {
    if Clean(trees, pids) {
      CleanPartition(trees, pids);
    }
    if Partition(trees, pids) {
      PartitionListedOnce(trees, pids);
      forall k | 0 <= k < |pids|
        ensures OwnFirst(trees, pids[k])
      {
        OwnFirstSelects(trees, pids[k]);
        if Selected(trees, pids[k]) < |trees| {
          PartitionOwns(trees, pids, k);
        }
      }
    }
  }

  /** Process 7 was created by 5, which is announced only afterwards: the tree of 7 is reported for both, that of 5 never. */
  lemma ReportedTwice(cs: seq<Change>)
    requires |cs| == 2 && cs[0].ProcessChange? && cs[0].pid == 7 && cs[0].ppid == 5
    requires cs[1].ProcessChange? && cs[1].pid == 5 && cs[1].ppid == 1
    ensures Build(cs) == [Leaf(cs[0]), Leaf(cs[1])] && DistinctRoots(Build(cs))
    ensures Selected(Build(cs), 5) == 0 == Selected(Build(cs), 7) && !Partition(Build(cs), [5, 7])
  {
    assert cs[..1] == [cs[0]] && cs[..0] == [];
    assert Build(cs[..0]) == [];
    assert Build(cs[..1]) == [Leaf(cs[0])];
    assert Add(Leaf(cs[0]), cs[1]) == None && [Leaf(cs[0])][1..] == [];
    assert AddToFirst([Leaf(cs[0])], cs[1]) == None;
    var trees := [Leaf(cs[0]), Leaf(cs[1])];
    assert Build(cs) == trees;
    assert Answers(trees[0], 5) && Answers(trees[0], 7);
    assert trees[1].info.pid == 5;
    ShownTwice(trees, [5, 7], 0, 0, 1);
  }

  /** The condition is met when no id is listed twice and neither 0 nor a root's parent is listed. */
  lemma NoParentListed(trees: seq<Node>, pids: seq<int>)
    requires NoDup(pids) && 0 !in pids
    requires forall i :: 0 <= i < |trees| ==> trees[i].info.ProcessChange? && trees[i].info.ppid !in pids
    ensures Clean(trees, pids)
  {
    forall k | 0 <= k < |pids|
      ensures OwnFirst(trees, pids[k])
    {
      assert pids[k] in pids;
    }
  }

  // ---- Every change is reported once ----

  /** A tree in front whose process is not p stays where it is when p is listed. */
  lemma NextLater(trees: seq<Node>, pids: seq<int>, p: int, moved: multiset<Change>)
    requires trees != [] && trees[0].info.pid != p
    requires multiset(Remainder(trees[1..], pids)) == multiset(Remainder(trees[1..], pids + [p])) + moved
    ensures multiset(Remainder(trees, pids)) == multiset(Remainder(trees, pids + [p])) + moved
  {
    var first := if trees[0].info.pid in pids then [] else AllStateChanges(trees[0]);
    assert Remainder(trees, pids) == first + Remainder(trees[1..], pids);
    assert Remainder(trees, pids + [p]) == first + Remainder(trees[1..], pids + [p]);
  }

  /** Listing one more process takes its tree, and no other, out of the remainder. */
  lemma {:induction false} RemainderNext(trees: seq<Node>, pids: seq<int>, p: int, i: nat)
    requires DistinctRoots(trees) && p !in pids && i <= |trees|
    requires if i < |trees| then trees[i].info.pid == p else forall j :: 0 <= j < |trees| ==> trees[j].info.pid != p
    ensures multiset(Remainder(trees, pids)) ==
              multiset(Remainder(trees, pids + [p])) + if i < |trees| then multiset(AllStateChanges(trees[i])) else multiset{}
  {
    if trees != [] {
      if i == 0 {
        assert forall j :: 0 <= j < |trees[1..]| ==> trees[1..][j].info.pid != p;
        RemainderNext(trees[1..], pids, p, |trees| - 1);
      } else {
        assert i < |trees| ==> trees[1..][i - 1] == trees[i];
        assert trees[0].info.pid != p;
        RemainderNext(trees[1..], pids, p, i - 1);
        NextLater(trees, pids, p, if i < |trees| then multiset(AllStateChanges(trees[i])) else multiset{});
      }
    }
  }

  lemma {:induction false} RemainderAll(trees: seq<Node>)
    ensures multiset(Remainder(trees, [])) == AllContents(trees)
  {
    if trees != [] {
      RemainderAll(trees[1..]);
      ReadingTheorem(trees[0]);
    }
  }

  /** The remainder lists the trees in their order. */
  lemma {:induction false} RemainderInOrder(trees: seq<Node>, more: seq<Node>, pids: seq<int>)
    ensures Remainder(trees + more, pids) == Remainder(trees, pids) + Remainder(more, pids)
  {
    if trees == [] {
      assert trees + more == more;
    } else {
      assert (trees + more)[1..] == trees[1..] + more;
      RemainderInOrder(trees[1..], more, pids);
    }
  }

  /** A report is in the order of its tree. */
  lemma ReportInOrder(trees: seq<Node>, pid: int, i: nat, j: nat)
    requires i < j < |Report(trees, pid)|
    ensures var a, b := Report(trees, pid)[i], Report(trees, pid)[j];
            a.time < b.time || (a.time == b.time && exists k: nat :: FirstDifference(b.kind, a.kind, k))
  {
    OrderTheorem(trees[Selected(trees, pid)], i, j);
  }

  /** Listing a process again changes nothing. */
  lemma {:induction false} RemainderAgain(trees: seq<Node>, pids: seq<int>, p: int)
    requires p in pids
    ensures Remainder(trees, pids + [p]) == Remainder(trees, pids)
  {
    if trees != [] {
      RemainderAgain(trees[1..], pids, p);
    }
  }

  /** On clean lists the reports and the remainder together hold every change of the forest exactly as often as the
      forest does. */
  lemma {:induction false} ReportTheorem(trees: seq<Node>, pids: seq<int>)
    requires DistinctRoots(trees) && Clean(trees, pids)
    ensures multiset(AllReports(trees, pids)) + multiset(Remainder(trees, pids)) == AllContents(trees)
  {
    if pids == [] {
      RemainderAll(trees);
    } else {
      var before, p := pids[..|pids| - 1], pids[|pids| - 1];
      CleanBefore(trees, before, p, pids);
      ReportTheorem(trees, before);
      OwnFirstSelects(trees, p);
      NextReport(trees, before, p);
    }
  }

  lemma CleanBefore(trees: seq<Node>, before: seq<int>, p: int, pids: seq<int>)
    requires Clean(trees, pids) && pids == before + [p]
    ensures Clean(trees, before) && OwnFirst(trees, p)
    ensures p in before ==> forall i :: 0 <= i < |trees| ==> trees[i].info.pid != p
  {
    assert forall k :: 0 <= k < |before| ==> before[k] == pids[k];
    assert pids[|before|] == p;
  }

  /** One more listed process moves its tree from the remainder to its report. */
  lemma NextReport(trees: seq<Node>, pids: seq<int>, p: int)
    requires DistinctRoots(trees) && SelectsOwn(trees, p)
    requires p in pids ==> forall i :: 0 <= i < |trees| ==> trees[i].info.pid != p
    ensures multiset(Remainder(trees, pids)) == multiset(Remainder(trees, pids + [p])) + multiset(Report(trees, p))
  {
    var i := Selected(trees, p);
    if i == |trees| {
      forall j | 0 <= j < |trees|
        ensures trees[j].info.pid != p
      {
        assert !Answers(trees[j], p);
      }
    }
    if p in pids {
      RemainderAgain(trees, pids, p);
    } else {
      RemainderNext(trees, pids, p, i);
    }
  }

  // ---- Forests built from changes ----

  /** The ids for which a run plants a tree: those of the changes whose owner was not named before. */
  function Planted(cs: seq<Change>): seq<int> {
    if cs == [] then [] else
      var before, c := cs[..|cs| - 1], cs[|cs| - 1];
      Planted(before) + if Owner(c) in Named(before) then [] else [c.pid]
  }

  lemma {:induction false} AddKeepsRoots(ns: seq<Node>, c: Change)
    requires AddToFirst(ns, c).Some?
    ensures var ms := AddToFirst(ns, c).value;
            |ms| == |ns| && forall i :: 0 <= i < |ns| ==> ms[i].info == ns[i].info
  {
    if Add(ns[0], c).None? {
      AddKeepsRoots(ns[1..], c);
      var rest := AddToFirst(ns[1..], c).value;
      assert forall i :: 0 < i < |ns| ==> ([ns[0]] + rest)[i] == rest[i - 1] && ns[i] == ns[1..][i - 1];
    }
  }

  lemma {:induction false} PlantedRoots(cs: seq<Change>, trees: seq<Node>)
    requires trees == Build(cs)
    ensures |trees| == |Planted(cs)| && forall i :: 0 <= i < |trees| ==> trees[i].info.pid == Planted(cs)[i]
  {
    if cs != [] {
      var before, c := cs[..|cs| - 1], cs[|cs| - 1];
      PlantedRoots(before, Build(before));
      RunNames(before, Build(before));
      AddToFirstFinds(Build(before), c);
      if Owner(c) in Named(before) {
        AddKeepsRoots(Build(before), c);
      }
    }
  }

  /** The roots of a built forest are distinct exactly when no id is planted twice. */
  lemma RootsDistinct(cs: seq<Change>)
    ensures DistinctRoots(Build(cs)) <==> NoDup(Planted(cs))
  {
    PlantedRoots(cs, Build(cs));
  }

  /** The same for a forest built from changes: each of them, and each process assumed, is reported once. */
  lemma RunReports(cs: seq<Change>, pids: seq<int>)
    requires NoDup(Planted(cs)) && Clean(Build(cs), pids)
    ensures multiset(AllReports(Build(cs), pids)) + multiset(Remainder(Build(cs), pids)) == multiset(cs) + multiset(AssumedIn(cs))
  {
    RootsDistinct(cs);
    ReportTheorem(Build(cs), pids);
    RunCounts(cs, Build(cs), AssumedIn(cs));
  }
}

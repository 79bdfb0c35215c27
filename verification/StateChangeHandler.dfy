/** The forest as the server keeps it: linked nodes, updated in place and read out recursively. */
module StateChangeHandler {
  import opened Prelude
  import opened StateChanges
  import opened ProcessForest
  import opened ForestRuns
  import opened Reports

  /** Only the first tree that takes the change is changed. */
  lemma {:induction false} AddToFirstAt(ns: seq<Node>, c: Change, i: nat)
    requires i <= |ns| && forall j :: 0 <= j < i ==> Add(ns[j], c).None?
    requires i < |ns| ==> Add(ns[i], c).Some?
    ensures AddToFirst(ns, c) == if i < |ns| then Some(ns[i := Add(ns[i], c).value]) else None
  {
    if ns != [] && i > 0 {
      AddToFirstAt(ns[1..], c, i - 1);
      assert i < |ns| ==> ns[i := Add(ns[i], c).value] == [ns[0]] + ns[1..][i - 1 := Add(ns[i], c).value];
    } else if ns != [] {
      assert ns[0 := Add(ns[0], c).value] == [Add(ns[0], c).value] + ns[1..];
    }
  }

  lemma {:induction false} ChildChangesConcat(ns: seq<Node>, n: Node)
    ensures ChildChanges(ns + [n]) == ChildChanges(ns) + AllStateChanges(n)
  {
    if ns == [] {
      assert ns + [n] == [n] && [n][1..] == [];
    } else {
      assert (ns + [n])[1..] == ns[1..] + [n];
      ChildChangesConcat(ns[1..], n);
    }
  }

  lemma {:induction false} RemainderConcat(ns: seq<Node>, n: Node, pids: seq<int>)
    ensures Remainder(ns + [n], pids) == Remainder(ns, pids) + if n.info.pid in pids then [] else AllStateChanges(n)
  {
    if ns == [] {
      assert ns + [n] == [n] && [n][1..] == [];
    } else {
      assert (ns + [n])[1..] == ns[1..] + [n];
      RemainderConcat(ns[1..], n, pids);
    }
  }

  lemma {:induction false} FirstAnswerAt(trees: seq<Node>, pid: int, i: nat)
    requires i <= |trees| && forall j :: 0 <= j < i ==> !Answers(trees[j], pid)
    requires i < |trees| ==> Answers(trees[i], pid)
    ensures FirstAnswer(trees, pid) == i
  {
    if i > 0 {
      FirstAnswerAt(trees[1..], pid, i - 1);
    }
  }

  class ProcessStateChange {
    const info: Change
    var stateChanges: seq<Change>
    var childProcesses: seq<ProcessStateChange>
    ghost var repr: set<object>
    ghost var tree: Node

    ghost predicate Valid()
      reads this, repr
      decreases repr
    {
      && this in repr
      && tree.info == info && tree.objects == stateChanges && |tree.children| == |childProcesses|
      && (forall i :: 0 <= i < |childProcesses| ==>
            && childProcesses[i] in repr && childProcesses[i].repr < repr && this !in childProcesses[i].repr
            && childProcesses[i].Valid() && childProcesses[i].tree == tree.children[i])
      && (forall i, j :: 0 <= i < j < |childProcesses| ==> childProcesses[i].repr !! childProcesses[j].repr)
    }

    constructor (info: Change)
      ensures Valid() && this.info == info && tree == Leaf(info) && repr == {this}
    {
      this.info := info;
      stateChanges, childProcesses := [], [];
      repr, tree := {this}, Leaf(info);
    }

    /** A created process comes as a node of its own. */
    static ghost predicate Comes(c: Change, created: ProcessStateChange?)
      reads created, if created == null then {} else created.repr
    {
      (c.ProcessChange? <==> created != null) && (created != null ==> created.Valid() && created.tree == Leaf(c))
    }

    /** c hangs under this process. */
    method Take(c: Change, created: ProcessStateChange?)
      requires Valid() && Comes(c, created) && (created != null ==> created.repr !! repr)
      modifies this
      ensures Valid() && tree == Attach(old(tree), c)
      ensures repr == old(repr) + if created == null then {} else created.repr
    {
      tree := Attach(tree, c);
      if created == null {
        stateChanges := stateChanges + [c];
      } else {
        childProcesses := childProcesses + [created];
        repr := repr + created.repr;
      }
    }

    /** One child's tree grew apart from the others. */
    ghost method Grow(i: nat, extra: set<object>)
      requires i < |childProcesses| && |tree.children| == |childProcesses| && this in repr && this !in extra && extra !! repr
      requires tree.info == info && tree.objects == stateChanges
      requires forall j :: 0 <= j < |childProcesses| ==> childProcesses[j] in repr + extra && childProcesses[j].Valid()
      requires forall j :: 0 <= j < |childProcesses| ==> this !in childProcesses[j].repr
      requires forall j :: 0 <= j < |childProcesses| && j != i ==>
        childProcesses[j].tree == tree.children[j] && childProcesses[j].repr < repr
      requires childProcesses[i].repr <= repr + extra
      requires forall j, k :: 0 <= j < k < |childProcesses| ==> childProcesses[j].repr !! childProcesses[k].repr
      modifies `repr, `tree
      ensures Valid() && repr == old(repr) + extra
      ensures tree == old(tree).(children := old(tree).children[i := childProcesses[i].tree])
    {
      repr := repr + extra;
      tree := tree.(children := tree.children[i := childProcesses[i].tree]);
    }

    method AddStateChange(c: Change, created: ProcessStateChange?) returns (added: bool)
      requires Valid() && Comes(c, created) && (created != null ==> created.repr !! repr)
      modifies repr
      ensures Valid() && added == Add(old(tree), c).Some?
      ensures added ==> tree == Add(old(tree), c).value
      ensures repr == old(repr) + if added && created != null then created.repr else {}
      ensures !added ==> unchanged(old(repr))
      decreases repr, 2
    {
      if Owner(c) == info.pid {
        Take(c, created);
        added := true;
      } else {
        added := AddToChildren(c, created);
      }
    }

    method AddToChild(i: nat, c: Change, created: ProcessStateChange?) returns (added: bool)
      requires Valid() && Comes(c, created) && (created != null ==> created.repr !! repr) && i < |childProcesses|
      modifies repr
      ensures Valid() && added == Add(old(tree).children[i], c).Some?
      ensures added ==> tree == old(tree).(children := old(tree).children[i := Add(old(tree).children[i], c).value])
      ensures repr == old(repr) + if added && created != null then created.repr else {}
      ensures !added ==> unchanged(old(repr))
      decreases repr, 0
    {
      added := childProcesses[i].AddStateChange(c, created);
      if added {
        Grow(i, if created == null then {} else created.repr);
      }
    }

    method AddToChildren(c: Change, created: ProcessStateChange?) returns (added: bool)
      requires Valid() && Comes(c, created) && (created != null ==> created.repr !! repr)
      modifies repr
      ensures Valid() && added == AddToFirst(old(tree).children, c).Some?
      ensures added ==> tree == old(tree).(children := AddToFirst(old(tree).children, c).value)
      ensures repr == old(repr) + if added && created != null then created.repr else {}
      ensures !added ==> unchanged(old(repr))
      decreases repr, 1
    {
      var i := 0;
      while i < |childProcesses|
        invariant i <= |childProcesses| && unchanged(old(repr))
        invariant forall j :: 0 <= j < i ==> Add(tree.children[j], c).None?
      {
        added := AddToChild(i, c, created);
        if added {
          AddToFirstAt(old(tree).children, c, i);
          return;
        }
        i := i + 1;
      }
      AddToFirstAt(tree.children, c, |tree.children|);
      return false;
    }

    method GetAllStateChanges() returns (all: seq<Change>)
      requires Valid()
      ensures all == AllStateChanges(tree)
      decreases repr
    {
      all := stateChanges;
      for i := 0 to |childProcesses|
        invariant all == stateChanges + ChildChanges(tree.children[..i])
      {
        var changes := childProcesses[i].GetAllStateChanges();
        ChildChangesConcat(tree.children[..i], tree.children[i]);
        assert tree.children[..i + 1] == tree.children[..i] + [tree.children[i]];
        all := all + changes;
      }
      assert tree.children[..|childProcesses|] == tree.children;
      all := StableSort(all + [info]);
    }
  }

  class StateChangeHandler {
    var processTrees: seq<ProcessStateChange>
    ghost var repr: set<object>
    ghost var trees: seq<Node>

    ghost predicate Valid()
      reads this, repr
    {
      && this in repr && |trees| == |processTrees|
      && (forall i :: 0 <= i < |processTrees| ==>
            && processTrees[i] in repr && processTrees[i].repr <= repr && this !in processTrees[i].repr
            && processTrees[i].Valid() && processTrees[i].tree == trees[i])
      && (forall i, j :: 0 <= i < j < |processTrees| ==> processTrees[i].repr !! processTrees[j].repr)
    }

    constructor ()
      ensures Valid() && trees == Build([]) && fresh(repr)
    {
      processTrees := [];
      repr, trees := {this}, [];
    }

    /** One tree grew apart from the others. */
    ghost method Grow(i: nat, extra: set<object>)
      requires i < |processTrees| == |trees| && this in repr && this !in extra
      requires forall j :: 0 <= j < |processTrees| ==>
        && processTrees[j] in repr + extra && processTrees[j].repr <= repr + extra && this !in processTrees[j].repr
        && processTrees[j].Valid() && (j != i ==> processTrees[j].tree == trees[j])
      requires forall j, k :: 0 <= j < k < |processTrees| ==> processTrees[j].repr !! processTrees[k].repr
      modifies `repr, `trees
      ensures Valid() && repr == old(repr) + extra && trees == old(trees)[i := processTrees[i].tree]
    {
      repr := repr + extra;
      trees := trees[i := processTrees[i].tree];
    }

    method Plant(t: ProcessStateChange)
      requires Valid() && t.Valid() && t.repr !! repr
      modifies this
      ensures Valid() && trees == old(trees) + [t.tree] && repr == old(repr) + t.repr
    {
      processTrees := processTrees + [t];
      trees := trees + [t.tree];
      repr := repr + t.repr;
    }

    method AddToTree(i: nat, c: Change, created: ProcessStateChange?) returns (added: bool)
      requires Valid() && ProcessStateChange.Comes(c, created) && (created != null ==> created.repr !! repr)
      requires i < |processTrees|
      modifies repr
      ensures Valid() && added == Add(old(trees)[i], c).Some?
      ensures added ==> trees == old(trees)[i := Add(old(trees)[i], c).value]
      ensures repr == old(repr) + if added && created != null then created.repr else {}
      ensures !added ==> unchanged(old(repr))
    {
      added := processTrees[i].AddStateChange(c, created);
      if added {
        Grow(i, if created == null then {} else created.repr);
      }
    }

    method AddToTrees(c: Change, created: ProcessStateChange?) returns (added: bool)
      requires Valid() && ProcessStateChange.Comes(c, created) && (created != null ==> created.repr !! repr)
      modifies repr
      ensures Valid() && added == AddToFirst(old(trees), c).Some?
      ensures added ==> trees == AddToFirst(old(trees), c).value
      ensures repr == old(repr) + if added && created != null then created.repr else {}
      ensures !added ==> unchanged(old(repr))
    {
      var i := 0;
      while i < |processTrees|
        invariant i <= |processTrees| && unchanged(old(repr))
        invariant forall j :: 0 <= j < i ==> Add(trees[j], c).None?
      {
        added := AddToTree(i, c, created);
        if added {
          AddToFirstAt(old(trees), c, i);
          return;
        }
        i := i + 1;
      }
      AddToFirstAt(trees, c, |trees|);
      return false;
    }

    method AddStateChange(c: Change, created: ProcessStateChange?) returns (added: bool)
      requires Valid() && ProcessStateChange.Comes(c, created) && (created != null ==> created.repr !! repr)
      modifies repr
      ensures Valid() && added && trees == AddChange(old(trees), c)
      ensures fresh(repr - old(repr) - if created == null then {} else created.repr)
    {
      added := AddToTrees(c, created);
      if added {
        return;
      }
      var t := created;
      if created == null {
        t := new ProcessStateChange(Assumed(c));
        t.Take(c, null);
      }
      assert t.tree == NewTree(c);
      Plant(t);
      added := true;
    }

    method GetStateChanges(pid: int) returns (report: seq<Change>)
      requires Valid()
      ensures report == Report(trees, pid)
    {
      var i := 0;
      while i < |processTrees|
        invariant i <= |processTrees| && forall j :: 0 <= j < i ==> !Answers(trees[j], pid)
      {
        var info := processTrees[i].info;
        if info.pid == pid || (info.ProcessChange? && info.ppid == pid) {
          FirstAnswerAt(trees, pid, i);
          report := processTrees[i].GetAllStateChanges();
          return;
        }
        i := i + 1;
      }
      FirstAnswerAt(trees, pid, |trees|);
      if |processTrees| == 1 && pid == 0 {
        report := processTrees[0].GetAllStateChanges();
      } else {
        report := [];
      }
    }

    method GetRemainderStateChanges(pids: seq<int>) returns (remainder: seq<Change>)
      requires Valid()
      ensures remainder == Remainder(trees, pids)
    {
      remainder := [];
      for i := 0 to |processTrees|
        invariant remainder == Remainder(trees[..i], pids)
      {
        RemainderConcat(trees[..i], trees[i], pids);
        assert trees[..i + 1] == trees[..i] + [trees[i]];
        if processTrees[i].info.pid !in pids {
          var changes := processTrees[i].GetAllStateChanges();
          remainder := remainder + changes;
        }
      }
      assert trees[..|processTrees|] == trees;
    }
  }
}

/**
 * `getNameGraph` / `getNameGraphHelper` (identical in all four frameworks):
 * a nested object keyed by node names that mirrors the tree. Writing a key
 * twice keeps the later value, so among siblings that share a name the last
 * one wins. The object is modelled as a map, without JavaScript's key order.
 */
module NameGraphs {
  import opened SceneTree

  datatype NameGraph = NameGraph(entries: map<string, NameGraph>)

  /** The names of the first `k` children of `t`. */
  function ChildNames<M>(t: Node<M>, k: nat): set<string>
    requires k <= |t.children|
  {
    set j | 0 <= j < k :: t.children[j].name
  }

  /** The object `getNameGraphHelper(t)` returns. */
  function Helper<M>(t: Node<M>): NameGraph
    decreases t, 1
  {
    NameGraph(Fold(t, |t.children|))
  }

  /** The helper's object after the loop has handled the first `k` children. */
  function Fold<M>(t: Node<M>, k: nat): map<string, NameGraph>
    requires k <= |t.children|
    decreases t, 0, k
  {
    if k == 0 then map[]
    else Fold(t, k - 1)[t.children[k - 1].name := Helper(t.children[k - 1])]
  }

  /** `getNameGraph(t)`: a single key, the root's name. */
  function GetNameGraph<M>(t: Node<M>): (g: NameGraph)
    ensures g.entries.Keys == {t.name} && g.entries[t.name] == Helper(t)
  {
    NameGraph(map[t.name := Helper(t)])
  }

  /** `getNameGraphHelper(t)`: one loop step per child, recursing into it. */
  method GetNameGraphHelper<M>(t: Node<M>) returns (g: NameGraph)
    ensures g == Helper(t)
    decreases t
  {
    var currNode: map<string, NameGraph> := map[];
    var k := 0;
    while k < |t.children|
      invariant k <= |t.children|
      invariant currNode == Fold(t, k)
    {
      var sub := GetNameGraphHelper(t.children[k]);
      currNode := currNode[t.children[k].name := sub];
      k := k + 1;
    }
    g := NameGraph(currNode);
  }

  /** The keys of the helper's object are exactly the children's names; a leaf gives `{}`. */
  lemma HelperKeys<M>(t: Node<M>)
    ensures Helper(t).entries.Keys == ChildNames(t, |t.children|)
    ensures t.children == [] ==> Helper(t).entries == map[]
  {
    FoldKeys(t, |t.children|);
  }

  lemma {:induction false} FoldKeys<M>(t: Node<M>, k: nat)
    requires k <= |t.children|
    ensures Fold(t, k).Keys == ChildNames(t, k)
  {
    if k > 0 {
      FoldKeys(t, k - 1);
      assert ChildNames(t, k) == ChildNames(t, k - 1) + {t.children[k - 1].name};
    }
  }

  /** A child that no later sibling shares its name with is mirrored under its name. */
  lemma HelperLastWins<M>(t: Node<M>, j: nat)
    requires j < |t.children|
    requires forall i :: j < i < |t.children| ==> t.children[i].name != t.children[j].name
    ensures t.children[j].name in Helper(t).entries
    ensures Helper(t).entries[t.children[j].name] == Helper(t.children[j])
  {
    FoldLastWins(t, j, |t.children|);
  }

  lemma {:induction false} FoldLastWins<M>(t: Node<M>, j: nat, k: nat)
    requires j < k <= |t.children|
    requires forall i :: j < i < k ==> t.children[i].name != t.children[j].name
    ensures t.children[j].name in Fold(t, k) && Fold(t, k)[t.children[j].name] == Helper(t.children[j])
  {
    if k - 1 > j {
      FoldLastWins(t, j, k - 1);
    }
  }

  /** With distinct sibling names every child is mirrored, so the graph has one entry per child. */
  lemma DistinctNamesMirrored<M>(t: Node<M>)
    requires forall i, j :: 0 <= i < j < |t.children| ==> t.children[i].name != t.children[j].name
    ensures |Helper(t).entries| == |t.children|
    ensures forall j :: 0 <= j < |t.children| ==>
              t.children[j].name in Helper(t).entries && Helper(t).entries[t.children[j].name] == Helper(t.children[j])
  {
    forall j | 0 <= j < |t.children|
      ensures t.children[j].name in Helper(t).entries
      ensures Helper(t).entries[t.children[j].name] == Helper(t.children[j])
    {
      HelperLastWins(t, j);
    }
    DistinctCount(t, |t.children|);
    FoldKeys(t, |t.children|);
  }

  lemma {:induction false} DistinctCount<M>(t: Node<M>, k: nat)
    requires k <= |t.children|
    requires forall i, j :: 0 <= i < j < |t.children| ==> t.children[i].name != t.children[j].name
    ensures |ChildNames(t, k)| == k
  {
    if k > 0 {
      DistinctCount(t, k - 1);
      assert ChildNames(t, k) == ChildNames(t, k - 1) + {t.children[k - 1].name};
      assert t.children[k - 1].name !in ChildNames(t, k - 1);
    }
  }
}

/**
 * The variation tree as an arena: every position lives in a lookup table from
 * key to node, and `parent`/`children` hold keys. This module states the
 * shape invariants of that table and defines, as functions, the queries that
 * `Position` answers by walking the tree: sibling index, branch ancestor,
 * main line, path to the root and the layered "part tree" used for display.
 */
module Tree {
  import opened Wrappers
  import opened Position

  type Arena = map<Key, Node>

  /** Keys are handed out in increasing order, so a parent always ranks below its children. */
  function Rank(k: Key): nat {
    match k
    case Root => 0
    case Unkeyed => 0
    case Id(n) => n + 1
  }

  predicate NoDuplicates(s: seq<Key>) {
    forall i, j :: 0 <= i < j < |s| ==> s[i] != s[j]
  }

  /** The linkage invariant of the lookup table. Nodes cut out of the tree by a
      trim stay in the table (the source never deletes them), so a node need not
      be among its parent's children; every child, however, points back to its parent. */
  ghost predicate Linked(a: Arena) {
    Linkage(a)
  }

  /** The parts of `Linked`, under a name of their own so that a caller that
      already knows `Linked` re-establishes it as a whole. */
  ghost predicate Linkage(a: Arena) {
    Root in a && a[Root].parent == None && Unkeyed !in a &&
    KeysMatch(a) && ParentsBelow(a) && ChildrenDistinct(a) && ChildrenPointBack(a)
  }

  /** Every node is stored under its own key. */
  ghost predicate KeysMatch(a: Arena) {
    forall k {:trigger a[k]} | k in a :: a[k].key == k
  }

  /** Every node but the root has a parent in the table, of lower rank. */
  ghost predicate ParentsBelow(a: Arena) {
    forall k {:trigger a[k].parent} | k in a && k != Root ::
      a[k].parent.Some? && a[k].parent.value in a && Rank(a[k].parent.value) < Rank(k)
  }

  ghost predicate ChildrenDistinct(a: Arena) {
    forall k {:trigger NoDuplicates(a[k].children)} | k in a :: NoDuplicates(a[k].children)
  }

  /** Every child is in the table and names its parent. */
  ghost predicate ChildrenPointBack(a: Arena) {
    forall k, i | k in a && 0 <= i < |a[k].children| ::
      a[k].children[i] in a && a[a[k].children[i]].parent == Some(k)
  }

  /** Every key in the table is below the next fresh one. */
  ghost predicate Bounded(a: Arena, next: nat) {
    forall k | k in a :: Rank(k) <= next
  }

  function Parent(a: Arena, k: Key): (p: Key)
    requires Linked(a) && k in a && k != Root
    ensures p in a && Rank(p) < Rank(k)
  {
    a[k].parent.value
  }

  lemma ChildRanksAbove(a: Arena, k: Key, i: nat)
    requires Linked(a) && k in a && i < |a[k].children|
    ensures a[k].children[i] in a && a[k].children[i] != Root
    ensures Parent(a, a[k].children[i]) == k && Rank(k) < Rank(a[k].children[i])
  {
  }

  /** The first index at which `k` occurs in `s`. */
  function IndexOf(s: seq<Key>, k: Key): (r: Option<nat>)
    ensures r.Some? ==> r.value < |s| && s[r.value] == k && forall j :: 0 <= j < r.value ==> s[j] != k
    ensures r.None? <==> k !in s
  {
    if |s| == 0 then None
    else if s[0] == k then Some(0)
    else match IndexOf(s[1..], k)
      case None => None
      case Some(i) => Some(i + 1)
  }

  function Siblings(a: Arena, k: Key): (s: seq<Key>)
    requires Linked(a) && k in a && k != Root
  {
    a[Parent(a, k)].children
  }

  /** `get_sibling_index`: the first index in the parent's children whose key is
      this node's key (positions compare by key); none for a node cut out of the tree. */
  function SiblingIndex(a: Arena, k: Key): (r: Option<nat>)
    requires Linked(a) && k in a && k != Root
    ensures r.Some? ==> r.value < |Siblings(a, k)| && Siblings(a, k)[r.value] == k
    ensures r.Some? ==> forall j :: 0 <= j < r.value ==> Siblings(a, k)[j] != k
    ensures r.None? <==> k !in Siblings(a, k)
  {
    IndexOf(Siblings(a, k), k)
  }

  /** `has_siblings`: false at the root, otherwise whether the parent has more than one child. */
  function HasSiblings(a: Arena, k: Key): (r: bool)
    requires Linked(a) && k in a
    ensures k != Root && k in Siblings(a, k) ==>
              (r <==> exists j :: 0 <= j < |Siblings(a, k)| && Siblings(a, k)[j] != k)
  {
    if k == Root then false
    else
      var s := Siblings(a, k);
      assert k in s ==> (|s| > 1 <==> exists j :: 0 <= j < |s| && s[j] != k) by {
        if k in s && |s| > 1 {
          var i :| 0 <= i < |s| && s[i] == k;
          var j := if i == 0 then 1 else 0;
          assert s[j] != k by { assert NoDuplicates(s); }
        }
      }
      |s| > 1
  }

  /** `get_next`: the main-line continuation, if any. */
  function GetNext(a: Arena, k: Key): (r: Option<Key>)
    requires Linked(a) && k in a
    ensures r.None? <==> a[k].children == []
    ensures r.Some? ==> r.value == a[k].children[0] && r.value in a && Parent(a, r.value) == k
  {
    if |a[k].children| == 0 then None else Some(a[k].children[0])
  }

  /** The keys from the root down to `k`, following parents. */
  function PathTo(a: Arena, k: Key): (p: seq<Key>)
    requires Linked(a) && k in a
    ensures |p| >= 1 && p[0] == Root && p[|p| - 1] == k
    ensures forall i :: 0 <= i < |p| ==> p[i] in a
    ensures forall i :: 1 <= i < |p| ==> p[i] != Root && Parent(a, p[i]) == p[i - 1]
    decreases Rank(k)
  {
    if k == Root then [Root] else PathTo(a, Parent(a, k)) + [k]
  }

  /** A node still hangs in the tree: every step from the root to it is a child link. */
  ghost predicate Attached(a: Arena, k: Key)
    requires Linked(a) && k in a
    decreases Rank(k)
  {
    k == Root || (k in Siblings(a, k) && Attached(a, Parent(a, k)))
  }

  lemma {:induction false} AttachedPath(a: Arena, k: Key)
    requires Linked(a) && k in a
    ensures Attached(a, k) ==>
              forall i :: 1 <= i < |PathTo(a, k)| ==> PathTo(a, k)[i] in Siblings(a, PathTo(a, k)[i])
    ensures (forall i :: 1 <= i < |PathTo(a, k)| ==> PathTo(a, k)[i] in Siblings(a, PathTo(a, k)[i])) ==>
              Attached(a, k)
    decreases Rank(k)
  {
    if k != Root {
      var q := Parent(a, k);
      AttachedPath(a, q);
      var p := PathTo(a, q);
      var pk := PathTo(a, k);
      assert pk == p + [k];
      if Attached(a, k) {
        assert Attached(a, q) && k in Siblings(a, k);
        forall i | 1 <= i < |pk| ensures pk[i] in Siblings(a, pk[i]) {
          if i < |p| {
            assert pk[i] == p[i];
            assert p[i] in Siblings(a, p[i]);
          } else {
            assert pk[i] == k;
          }
        }
      }
      if forall i :: 1 <= i < |pk| ==> pk[i] in Siblings(a, pk[i]) {
        assert pk[|pk| - 1] == k;
        forall i | 1 <= i < |p| ensures p[i] in Siblings(a, p[i]) {
          assert pk[i] == p[i];
        }
      }
    }
  }

  /** `has_siblings() and get_sibling_index() > 0`: the node starts a variation. */
  function IsBranch(a: Arena, k: Key): (r: bool)
    requires Linked(a) && k in a
    requires k != Root ==> k in Siblings(a, k)
    ensures r <==> k != Root && SiblingIndex(a, k).value > 0
  {
    k != Root && HasSiblings(a, k) && SiblingIndex(a, k).value > 0
  }

  /** `find_branch_ancestor`: the nearest ancestor-or-self whose sibling index is
      not 0. The source asks the root for its sibling index when the whole path
      is main line, which raises; that case is `None`. */
  function FindBranchAncestor(a: Arena, k: Key): (r: Option<Key>)
    requires Linked(a) && k in a
    ensures r.Some? ==> r.value in a && r.value != Root && SiblingIndex(a, r.value) != Some(0)
    decreases Rank(k)
  {
    if k == Root then None
    else if SiblingIndex(a, k) != Some(0) then Some(k)
    else FindBranchAncestor(a, Parent(a, k))
  }

  /** The branch ancestor, described on the path from the root: it sits at index
      `i` of the path, and everything below it on the path is main line. */
  lemma {:induction false} FindBranchAncestorNearest(a: Arena, k: Key) returns (i: nat)
    requires Linked(a) && k in a
    ensures var p := PathTo(a, k); var r := FindBranchAncestor(a, k);
      && (r.Some? ==> 1 <= i < |p| && p[i] == r.value && SiblingIndex(a, p[i]) != Some(0))
      && (r.Some? ==> forall j :: i < j < |p| ==> SiblingIndex(a, p[j]) == Some(0))
      && (r.None? ==> forall j :: 1 <= j < |p| ==> SiblingIndex(a, p[j]) == Some(0))
    decreases Rank(k)
  {
    i := 0;
    var p := PathTo(a, k);
    if k != Root {
      var q := Parent(a, k);
      var pq := PathTo(a, q);
      assert p == pq + [k];
      if SiblingIndex(a, k) != Some(0) {
        i := |p| - 1;
      } else {
        i := FindBranchAncestorNearest(a, q);
        if FindBranchAncestor(a, q).Some? {
          PathMainLineStep(a, k, i + 1);
          assert p[i] == pq[i];
        } else {
          PathMainLineStep(a, k, 1);
        }
      }
    }
  }

  /** If the path to the parent is main line from index `from` on, and the node
      itself is its parent's first child, the path to the node is main line from
      `from` on. */
  lemma PathMainLineStep(a: Arena, k: Key, from: nat)
    requires Linked(a) && k in a && k != Root && SiblingIndex(a, k) == Some(0) && from >= 1
    requires forall j :: from <= j < |PathTo(a, Parent(a, k))| ==> SiblingIndex(a, PathTo(a, Parent(a, k))[j]) == Some(0)
    ensures forall j :: from <= j < |PathTo(a, k)| ==> SiblingIndex(a, PathTo(a, k)[j]) == Some(0)
  {
    var pq := PathTo(a, Parent(a, k));
    var p := PathTo(a, k);
    assert p == pq + [k];
    forall j | from <= j < |p| ensures SiblingIndex(a, p[j]) == Some(0) {
      if j < |pq| {
        assert p[j] == pq[j] && SiblingIndex(a, pq[j]) == Some(0);
      } else {
        assert p[j] == k;
      }
    }
  }

  /** Entry `i + 1` of `r` is the main-line child of entry `i`. */
  ghost predicate LineStep(a: Arena, r: seq<Key>, i: int)
    requires 0 <= i < |r| - 1 && r[i] in a
  {
    a[r[i]].children != [] && r[i + 1] == a[r[i]].children[0]
  }

  /** `follow_line`: the node and its `children[0]` chain down to a leaf. */
  function MainLine(a: Arena, next: nat, k: Key): (r: seq<Key>)
    requires Linked(a) && Bounded(a, next) && k in a
    ensures |r| >= 1 && r[0] == k && IsLine(a, r)
    decreases next - Rank(k)
  {
    if |a[k].children| == 0 then [k]
    else
      ChildRanksAbove(a, k, 0);
      var rest := MainLine(a, next, a[k].children[0]);
      LineCons(a, k, rest);
      [k] + rest
  }

  /** `r` runs from a node down its `children[0]` links to a leaf. */
  ghost predicate IsLine(a: Arena, r: seq<Key>) {
    |r| >= 1 && (forall i :: 0 <= i < |r| ==> r[i] in a) && a[r[|r| - 1]].children == [] &&
    forall i :: 0 <= i < |r| - 1 ==> LineStep(a, r, i)
  }

  /** A main line preceded by the node whose first child starts it is a main line. */
  lemma LineCons(a: Arena, k: Key, rest: seq<Key>)
    requires k in a && a[k].children != [] && rest != [] && rest[0] == a[k].children[0]
    requires IsLine(a, rest)
    ensures IsLine(a, [k] + rest)
  {
    var r := [k] + rest;
    assert LineStep(a, r, 0);
    forall i | 1 <= i < |r| - 1 ensures LineStep(a, r, i) {
      assert r[i] == rest[i - 1] && r[i + 1] == rest[i];
      assert LineStep(a, rest, i - 1);
    }
  }

  /** What follows a node on its main line (empty at a leaf). */
  function Below(a: Arena, next: nat, k: Key): (r: seq<Key>)
    requires Linked(a) && Bounded(a, next) && k in a
    ensures a[k].children == [] <==> r == []
    ensures r != [] ==> r == MainLine(a, next, a[k].children[0])
  {
    if |a[k].children| == 0 then [] else MainLine(a, next, a[k].children[0])
  }

  /** How many nodes on the path (the root excluded) start a variation. */
  function BranchCount(a: Arena, k: Key): (n: nat)
    requires Linked(a) && k in a && Attached(a, k)
    decreases Rank(k)
  {
    if k == Root then 0
    else BranchCount(a, Parent(a, k)) + (if IsBranch(a, k) then 1 else 0)
  }

  /** There are at most as many variation starts as moves on the path. */
  lemma {:induction false} BranchCountBound(a: Arena, k: Key)
    requires Linked(a) && k in a && Attached(a, k)
    ensures BranchCount(a, k) <= |PathTo(a, k)| - 1
    decreases Rank(k)
  {
    if k != Root {
      BranchCountBound(a, Parent(a, k));
    }
  }

  /** The display layers of a node, built from the root down: the root opens
      layer 0; every node is added to the last layer, except that a node starting
      a variation first closes the last layer with its parent's main-line
      continuation and then opens a new layer of its own. */
  function PartLayers(a: Arena, next: nat, k: Key): (r: seq<seq<Key>>)
    requires Linked(a) && Bounded(a, next) && k in a && Attached(a, k)
    ensures |r| == 1 + BranchCount(a, k)
    ensures forall i :: 0 <= i < |r| ==> |r[i]| >= 1
    ensures r[0][0] == Root
    ensures r[|r| - 1][|r[|r| - 1]| - 1] == k
    decreases Rank(k)
  {
    if k == Root then [[Root]]
    else
      var p := Parent(a, k);
      StepLayers(PartLayers(a, next, p), Below(a, next, p), k, IsBranch(a, k))
  }

  /** The layers of a node from its parent's layers `l`: a new layer when it
      starts a variation (`branch`), the last layer extended otherwise; either
      way the node ends the last layer. */
  function StepLayers(l: seq<seq<Key>>, below: seq<Key>, k: Key, branch: bool): (r: seq<seq<Key>>)
    requires |l| >= 1 && forall i :: 0 <= i < |l| ==> |l[i]| >= 1
    ensures |r| == |l| + (if branch then 1 else 0)
    ensures forall i :: 0 <= i < |r| ==> |r[i]| >= 1
    ensures r[0][0] == l[0][0] && r[|r| - 1][|r[|r| - 1]| - 1] == k
  {
    if branch then OpenLayer(l, below, k) else ExtendLayer(l, [k])
  }

  /** One step of `PartLayers`, from the parent's layers to the node's. */
  lemma PartLayersStep(a: Arena, next: nat, k: Key)
    requires Linked(a) && Bounded(a, next) && k in a && k != Root && Attached(a, k)
    ensures k in Siblings(a, k)
    ensures PartLayers(a, next, k) ==
      StepLayers(PartLayers(a, next, Parent(a, k)), Below(a, next, Parent(a, k)), k, IsBranch(a, k))
  {
  }

  /** Close the last layer with `tail` and open a new layer holding `k`. */
  function OpenLayer(l: seq<seq<Key>>, tail: seq<Key>, k: Key): (r: seq<seq<Key>>)
    requires |l| >= 1 && forall i :: 0 <= i < |l| ==> |l[i]| >= 1
    ensures |r| == |l| + 1 && r[|l|] == [k]
    ensures forall j :: 0 <= j < |l| - 1 ==> r[j] == l[j]
    ensures forall i :: 0 <= i < |r| ==> |r[i]| >= 1
    ensures r[|l| - 1] == l[|l| - 1] + tail
    ensures r[0][0] == l[0][0]
  {
    l[..|l| - 1] + [l[|l| - 1] + tail] + [[k]]
  }

  /** Append `tail` to the last layer. */
  function ExtendLayer(l: seq<seq<Key>>, tail: seq<Key>): (r: seq<seq<Key>>)
    requires |l| >= 1 && forall i :: 0 <= i < |l| ==> |l[i]| >= 1
    ensures |r| == |l|
    ensures forall j :: 0 <= j < |l| - 1 ==> r[j] == l[j]
    ensures forall i :: 0 <= i < |r| ==> |r[i]| >= 1
    ensures r[|l| - 1] == l[|l| - 1] + tail
    ensures r[0][0] == l[0][0]
  {
    l[..|l| - 1] + [l[|l| - 1] + tail]
  }

  predicate EndsWith(s: seq<Key>, t: seq<Key>) {
    |t| <= |s| && s[|s| - |t|..] == t
  }

  /** Layer `prev` is followed by a layer opened at `b`: `b` starts a variation,
      and `prev` ends with `b`'s parent and the parent's main-line continuation. */
  ghost predicate LayerJoin(a: Arena, next: nat, prev: seq<Key>, b: Key)
    requires Linked(a) && Bounded(a, next)
  {
    && b in a && b != Root && b in Siblings(a, b) && IsBranch(a, b)
    && EndsWith(prev, [Parent(a, b)] + Below(a, next, Parent(a, b)))
  }

  /** Layers `i` and `i + 1` of `r` are joined as `LayerJoin` says. */
  ghost predicate Joined(a: Arena, next: nat, r: seq<seq<Key>>, i: nat)
    requires Linked(a) && Bounded(a, next)
  {
    i + 1 < |r| && |r[i + 1]| >= 1 && LayerJoin(a, next, r[i], r[i + 1][0])
  }

  /** Every two consecutive layers of `r` are joined. */
  ghost predicate AllJoined(a: Arena, next: nat, r: seq<seq<Key>>)
    requires Linked(a) && Bounded(a, next)
  {
    EveryJoin(a, next, r)
  }

  /** The body of `AllJoined`, named so that passing `AllJoined` on is one fact. */
  ghost predicate EveryJoin(a: Arena, next: nat, r: seq<seq<Key>>)
    requires Linked(a) && Bounded(a, next)
  {
    forall i :: 0 <= i < |r| - 1 ==> Joined(a, next, r, i)
  }

  /** Rewriting the last layer of `l` (keeping its first node) keeps the joins
      between the layers before it. */
  lemma JoinsKept(a: Arena, next: nat, l: seq<seq<Key>>, r: seq<seq<Key>>)
    requires Linked(a) && Bounded(a, next)
    requires |l| >= 1 && |r| >= |l| && forall j :: 0 <= j < |l| - 1 ==> r[j] == l[j]
    requires |l[|l| - 1]| >= 1 && |r[|l| - 1]| >= 1 && r[|l| - 1][0] == l[|l| - 1][0]
    requires AllJoined(a, next, l)
    ensures forall i :: 0 <= i < |l| - 1 ==> Joined(a, next, r, i)
  {
    var n := |l| - 1;
    forall i | 0 <= i < n ensures Joined(a, next, r, i) {
      JoinedSame(a, next, l, r, i);
    }
  }

  /** A join between two layers depends only on the lower layer and the first
      node of the upper one. */
  lemma JoinedSame(a: Arena, next: nat, l: seq<seq<Key>>, r: seq<seq<Key>>, i: nat)
    requires Linked(a) && Bounded(a, next)
    requires |l| >= 1 && |r| >= |l| && forall j :: 0 <= j < |l| - 1 ==> r[j] == l[j]
    requires |l[|l| - 1]| >= 1 && |r[|l| - 1]| >= 1 && r[|l| - 1][0] == l[|l| - 1][0]
    requires AllJoined(a, next, l) && i < |l| - 1
    ensures Joined(a, next, r, i)
  {
    assert Joined(a, next, l, i);
    var prev, b := l[i], l[i + 1][0];
    assert LayerJoin(a, next, prev, b);
    assert r[i] == prev;
    if i + 1 < |l| - 1 {
      assert r[i + 1] == l[i + 1];
    }
    assert r[i + 1][0] == b;
  }

  /** Every layer above 0 opens with a node that starts a variation, and the layer
      below it ends with that node's parent followed by the parent's main line. */
  lemma {:induction false} PartLayersBranchPoints(a: Arena, next: nat, k: Key)
    requires Linked(a) && Bounded(a, next) && k in a && Attached(a, k)
    ensures AllJoined(a, next, PartLayers(a, next, k))
    decreases Rank(k)
  {
    if k != Root {
      PartLayersBranchPoints(a, next, Parent(a, k));
      PartLayersStep(a, next, k);
      StepAllJoined(a, next, k, PartLayers(a, next, Parent(a, k)));
    }
  }

  /** One step of `PartLayers` keeps all layers joined. */
  lemma StepAllJoined(a: Arena, next: nat, k: Key, l: seq<seq<Key>>)
    requires Linked(a) && Bounded(a, next) && k in a && k != Root && k in Siblings(a, k)
    requires |l| >= 1 && (forall i :: 0 <= i < |l| ==> |l[i]| >= 1) && l[|l| - 1][|l[|l| - 1]| - 1] == Parent(a, k)
    requires AllJoined(a, next, l)
    ensures AllJoined(a, next, StepLayers(l, Below(a, next, Parent(a, k)), k, IsBranch(a, k)))
  {
    var r := StepLayers(l, Below(a, next, Parent(a, k)), k, IsBranch(a, k));
    if IsBranch(a, k) {
      OpenLayerAllJoined(a, next, l, k);
    } else {
      assert r[|l| - 1][0] == l[|l| - 1][0];
      JoinsKept(a, next, l, r);
    }
  }

  /** Opening a variation at `k` keeps every join of `l` and adds the new one. */
  lemma OpenLayerAllJoined(a: Arena, next: nat, l: seq<seq<Key>>, k: Key)
    requires Linked(a) && Bounded(a, next) && k in a && k != Root && k in Siblings(a, k) && IsBranch(a, k)
    requires |l| >= 1 && (forall i :: 0 <= i < |l| ==> |l[i]| >= 1) && l[|l| - 1][|l[|l| - 1]| - 1] == Parent(a, k)
    requires AllJoined(a, next, l)
    ensures AllJoined(a, next, OpenLayer(l, Below(a, next, Parent(a, k)), k))
  {
    var r := OpenLayer(l, Below(a, next, Parent(a, k)), k);
    assert r[|l| - 1][0] == l[|l| - 1][0];
    JoinsKept(a, next, l, r);
    OpenLayerJoined(a, next, l, k);
  }

  /** A variation opened at `k` right after its parent is joined to the layer below. */
  lemma OpenLayerJoined(a: Arena, next: nat, l: seq<seq<Key>>, k: Key)
    requires Linked(a) && Bounded(a, next) && k in a && k != Root && k in Siblings(a, k) && IsBranch(a, k)
    requires |l| >= 1 && (forall i :: 0 <= i < |l| ==> |l[i]| >= 1) && l[|l| - 1][|l[|l| - 1]| - 1] == Parent(a, k)
    ensures Joined(a, next, OpenLayer(l, Below(a, next, Parent(a, k)), k), |l| - 1)
  {
    var p := Parent(a, k);
    var tail := Below(a, next, p);
    var r := OpenLayer(l, tail, k);
    EndsWithAppend(l[|l| - 1], p, tail);
  }

  lemma EndsWithAppend(s: seq<Key>, p: Key, tail: seq<Key>)
    requires |s| >= 1 && s[|s| - 1] == p
    ensures EndsWith(s + tail, [p] + tail)
  {
    assert (s + tail)[|s| - 1..] == [p] + tail;
  }

  /** The whole part tree of `get_part_tree`: the layers, with the requested
      node's main-line continuation appended to the highest layer. */
  function PartTree(a: Arena, next: nat, k: Key): (r: seq<seq<Key>>)
    requires Linked(a) && Bounded(a, next) && k in a && Attached(a, k)
    ensures |r| == 1 + BranchCount(a, k)
    ensures forall i :: 0 <= i < |r| ==> |r[i]| >= 1
    ensures r[0][0] == Root
    ensures forall j :: 0 <= j < |r| - 1 ==> r[j] == PartLayers(a, next, k)[j]
    ensures r[|r| - 1] == PartLayers(a, next, k)[|r| - 1] + Below(a, next, k)
  {
    ExtendLayer(PartLayers(a, next, k), Below(a, next, k))
  }
}

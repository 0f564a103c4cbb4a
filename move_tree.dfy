/**
 * Chessington's `MoveTree`: the lookup table from key to position, the branch
 * limit, and the height of the part tree last drawn. `add_move` grows the
 * tree, `get_part_tree` (with `tree_backtrack` and `follow_line` of Position)
 * lays a node's variations out in layers, and the edits the game makes to the
 * tree (re-orienting a node, trimming a branch, promoting a variation) are
 * methods here, since the tree owns the nodes.
 */
module MoveTrees {
  import opened Wrappers
  import opened Position
  import opened Tree
  import opened Events
  import opened Text
  import opened Grid

  /** A layer table as the source keeps it: layer number to the keys in that layer. */
  type Layers = map<nat, seq<Key>>

  /** The layer numbers are exactly 0 .. n - 1. */
  ghost predicate Contiguous(td: Layers, n: nat) {
    forall j: nat :: j in td <==> j < n
  }

  function RangeSet(n: nat): (s: set<nat>)
    ensures forall j: nat :: j in s <==> j < n
    ensures |s| == n
  {
    if n == 0 then {} else
      var s := RangeSet(n - 1);
      assert n - 1 !in s;
      s + {n - 1}
  }

  /** With contiguous layer numbers the table holds n layers, so its largest
      key (`max(tree_dict.keys())`) is |td| - 1. */
  lemma ContiguousSize(td: Layers, n: nat)
    requires Contiguous(td, n)
    ensures |td| == n
  {
    assert td.Keys == RangeSet(n);
  }

  /** Ply bookkeeping: a white move starts a new move number, a black move does not. */
  ghost predicate PlyConsistent(a: Arena)
    requires Linked(a)
  {
    forall k {:trigger a[k].turn} | k in a && k != Root :: a[k].ply == a[Parent(a, k)].ply + (if a[k].turn == 1 then 1 else 0)
  }

  /** Every position below the root carries a move in notation. */
  ghost predicate Noted(a: Arena) {
    forall k {:trigger a[k]} | k in a && k != Root :: |a[k].notation| > 0
  }

  /** The notation of each key in `kids`. */
  function Notations(a: Arena, kids: seq<Key>): (s: seq<string>)
    requires forall i :: 0 <= i < |kids| ==> kids[i] in a
    ensures |s| == |kids| && forall i :: 0 <= i < |kids| ==> s[i] == a[kids[i]].notation
  {
    seq(|kids|, i requires 0 <= i < |kids| => a[kids[i]].notation)
  }

  /** `pos_in_tree`'s test for one sibling: a sibling that ends with a check,
      mate or stalemate marker matches the incoming notation plus that marker;
      any sibling matches an identical notation. */
  predicate NotationMatch(sibling: string, note: string)
    requires |sibling| > 0
  {
    var last := sibling[|sibling| - 1];
    ((last == '+' || last == '=' || last == '#') && note + [last] == sibling) || sibling == note
  }

  /** The match, described without the sibling's last character: equal, or equal
      after appending one of the three markers. */
  lemma NotationMatchMeaning(sibling: string, note: string)
    requires |sibling| > 0
    ensures NotationMatch(sibling, note) <==>
              sibling == note || sibling == note + "+" || sibling == note + "=" || sibling == note + "#"
  {
    if sibling == note + "+" || sibling == note + "=" || sibling == note + "#" {
      assert sibling[|sibling| - 1] == sibling[|note|];
    }
  }

  /** The first sibling that matches, if any. */
  function FirstMatch(siblings: seq<string>, note: string): (r: Option<nat>)
    requires forall i :: 0 <= i < |siblings| ==> |siblings[i]| > 0
    ensures r.Some? ==> r.value < |siblings| && NotationMatch(siblings[r.value], note)
    ensures r.Some? ==> forall j :: 0 <= j < r.value ==> !NotationMatch(siblings[j], note)
    ensures r.None? <==> forall j :: 0 <= j < |siblings| ==> !NotationMatch(siblings[j], note)
  {
    if |siblings| == 0 then None
    else if NotationMatch(siblings[0], note) then Some(0)
    else match FirstMatch(siblings[1..], note)
      case None => None
      case Some(i) => Some(i + 1)
  }

  /** The ply and notation prefix `add_move` writes before it looks at the tree:
      a white move takes the next move number and is prefixed "<n>. "; a black
      move keeps the parent's number and, played from the root, is prefixed "... ". */
  function Numbered(n: Node, cur: Node): (r: Node)
    ensures r.ply == cur.ply + (if n.turn == 1 then 1 else 0)
    ensures |n.notation| > 0 && n.turn == 1 ==> r.notation == NatToString(r.ply) + ". " + n.notation
    ensures |n.notation| > 0 && n.turn == -1 && cur.key == Root ==> r.notation == "... " + n.notation
    ensures |n.notation| == 0 || (n.turn != 1 && !(n.turn == -1 && cur.key == Root)) ==> r.notation == n.notation
    ensures |r.notation| >= |n.notation|
    ensures r == n.(ply := r.ply, notation := r.notation)
  {
    if n.turn == 1 then
      var p := cur.ply + 1;
      UpdateNotation(n.(ply := p), NatToString(p) + ". ", true)
    else if n.turn == -1 && cur.key == Root then
      UpdateNotation(n.(ply := cur.ply), "... ", true)
    else n.(ply := cur.ply)
  }

  /** What re-orienting a stored position does: mirror its move, negate its
      orientation and turn its board. */
  function Reoriented(n: Node): (r: Node)
    ensures r == ReverseRankAndFile(n).(board := Rotated(n.board))
    ensures r.key == n.key && r.parent == n.parent && r.children == n.children && r.ply == n.ply
  {
    ReverseRankAndFile(n).(board := Rotated(n.board))
  }

  /** Re-orienting twice gives the stored position back. */
  lemma ReorientedInvolution(n: Node)
    requires ValidNodeMove(n.move)
    ensures Reoriented(Reoriented(n)) == n
  {
    ReverseRankAndFileInvolution(n);
    RotatedInvolution(n.board);
  }

  /** The children list with the first occurrence of `k` taken out (`list.remove`). */
  function RemoveFirst(s: seq<Key>, k: Key): (r: seq<Key>)
    requires k in s
    ensures IndexOf(s, k).Some? && r == s[..IndexOf(s, k).value] + s[IndexOf(s, k).value + 1..]
    ensures |r| == |s| - 1 && multiset(r) == multiset(s) - multiset{k}
  {
    var i := IndexOf(s, k).value;
    assert s == s[..i] + [s[i]] + s[i + 1..];
    s[..i] + s[i + 1..]
  }

  /** Swap entries i - 1 and i. */
  function SwapDown(s: seq<Key>, i: nat): (r: seq<Key>)
    requires 0 < i < |s|
    ensures |r| == |s| && r[i - 1] == s[i] && r[i] == s[i - 1]
    ensures forall j :: 0 <= j < |s| && j != i - 1 && j != i ==> r[j] == s[j]
    ensures multiset(r) == multiset(s)
  {
    s[i - 1 := s[i]][i := s[i - 1]]
  }

  /** What a `MoveTree` keeps true of its table and its key counter. */
  ghost predicate Sound(a: Arena, next: nat) {
    Linked(a) && Bounded(a, next) && PlyConsistent(a) && Noted(a)
  }

  /** What `add_move` leaves behind: the position as the caller then holds
      it, the events it appends, and the table and key counter. */
  datatype Addition = Addition(np: Node, tail: seq<Event>, arena: Arena, next: nat)

  /** `add_move` on a table, with the branch limit and the tree height. The
      move number / "... " prefix is written first, whatever follows. Then: a
      parent with `limit` children refuses the move (event 1, direction -1); a
      move already among the children redirects to that child (event 0); at
      full tree height, a parent with a main line redirects there (event 0);
      otherwise the position is inserted as the last child under a fresh key,
      with the parent's captured pieces after its own. */
  function Added(a: Arena, next: nat, limit: nat, height: int, newPos: Node, cur: Key): (r: Addition)
    requires Sound(a, next) && cur in a && newPos.children == [] && |newPos.notation| > 0
  {
    var c := a[cur];
    var m := Numbered(newPos, c);
    if |c.children| >= limit then Addition(m, [Takeback(-1)], a, next)
    else
      var hit := FirstMatch(Notations(a, c.children), m.notation);
      if hit.Some? then Addition(m, [GoTo(c.children[hit.value])], a, next)
      else if height == limit && |c.children| > 0 then Addition(m, [GoTo(c.children[0])], a, next)
      else
        var np := m.(captured := m.captured + c.captured, key := Id(next), parent := Some(cur));
        Addition(np, [], Grown(a, cur, np), next + 1)
  }

  /** The insertion keeps the table sound: the fresh key is not yet in it. */
  lemma Inserted(a: Arena, next: nat, cur: Key, np: Node)
    requires Sound(a, next) && cur in a && np.key == Id(next)
    requires np.parent == Some(cur) && np.children == [] && |np.notation| > 0
    requires np.ply == a[cur].ply + (if np.turn == 1 then 1 else 0)
    ensures Id(next) !in a
    ensures Sound(Grown(a, cur, np), next + 1)
  {
    assert Id(next) !in a by {
      assert Rank(Id(next)) == next + 1;
    }
    assert NoDuplicates(a[cur].children + [np.key]) by {
      assert NoDuplicates(a[cur].children);
      assert forall i :: 0 <= i < |a[cur].children| ==> a[cur].children[i] in a;
    }
    InsertKeepsValid(a, next, cur, np);
  }

  /** `add_move` keeps the caller's board, move and side, appends at most
      one event, and refuses the move exactly when the parent's branches are
      full. */
  lemma AddedRefusal(a: Arena, next: nat, limit: nat, height: int, newPos: Node, cur: Key)
    requires Sound(a, next) && cur in a && newPos.children == [] && |newPos.notation| > 0
    ensures var r := Added(a, next, limit, height, newPos, cur);
      && r.np.board == newPos.board && r.np.move == newPos.move && r.np.turn == newPos.turn
      && r.np.castling == newPos.castling && DrawClaim !in r.tail
      && (r.tail == [Takeback(-1)] <==> |a[cur].children| >= limit)
      && |r.tail| <= 1
  {
    var c := a[cur];
    var m := Numbered(newPos, c);
    if |c.children| < limit {
      assert Added(a, next, limit, height, newPos, cur).tail != [Takeback(-1)];
    }
  }

  /** A redirect goes to one of the parent's children, whose notation
      matches or which is the main line at full height, and leaves the table
      as it was. */
  lemma AddedRedirect(a: Arena, next: nat, limit: nat, height: int, newPos: Node, cur: Key)
    requires Sound(a, next) && cur in a && newPos.children == [] && |newPos.notation| > 0
    ensures var r := Added(a, next, limit, height, newPos, cur);
      && (r.tail != [] ==> r.arena == a && r.next == next && r.np == Numbered(newPos, a[cur]))
      && (|r.tail| == 1 && r.tail[0].GoTo? ==>
            && r.tail[0].positionKey in a[cur].children && r.tail[0].positionKey in a
            && (NotationMatch(a[r.tail[0].positionKey].notation, r.np.notation) || height == limit))
  {
    var c := a[cur];
    var m := Numbered(newPos, c);
    if |c.children| < limit {
      var hit := FirstMatch(Notations(a, c.children), m.notation);
      if hit.Some? {
        assert c.children[hit.value] in a;
      }
    }
  }

  /** The table with `np` stored under its key and appended to the
      children of `cur`; nothing else changes. */
  function Grown(a: Arena, cur: Key, np: Node): Arena
    requires cur in a
  {
    a[cur := a[cur].(children := a[cur].children + [np.key])][np.key := np]
  }

  lemma GrownShape(a: Arena, cur: Key, np: Node)
    requires cur in a
    ensures var a' := Grown(a, cur, np);
      && a'.Keys == a.Keys + {np.key} && a'[np.key] == np
      && (np.key != cur ==> a'[cur].children == a[cur].children + [np.key])
      && forall k :: k in a && k != cur && k != np.key ==> a'[k] == a[k]
  {
  }

  /** `add_move` keeps the table sound. */
  lemma AddedSound(a: Arena, next: nat, limit: nat, height: int, newPos: Node, cur: Key)
    requires Sound(a, next) && cur in a && newPos.children == [] && |newPos.notation| > 0
    ensures var r := Added(a, next, limit, height, newPos, cur); Sound(r.arena, r.next)
  {
    var c := a[cur];
    var m := Numbered(newPos, c);
    if |c.children| < limit {
      var hit := FirstMatch(Notations(a, c.children), m.notation);
      if hit.None? && !(height == limit && |c.children| > 0) {
        Inserted(a, next, cur, m.(captured := m.captured + c.captured, key := Id(next), parent := Some(cur)));
      }
    }
  }

  /** An insertion stores the position under a fresh key, with `cur` as its
      parent, as `Grown` describes. */
  lemma AddedInsertion(a: Arena, next: nat, limit: nat, height: int, newPos: Node, cur: Key)
    requires Sound(a, next) && cur in a && newPos.children == [] && |newPos.notation| > 0
    ensures var r := Added(a, next, limit, height, newPos, cur);
      r.tail == [] ==>
        && r.np.key == Id(next) && Id(next) !in a && r.np.parent == Some(cur)
        && r.arena == Grown(a, cur, r.np) && r.next == next + 1
  {
    var c := a[cur];
    var m := Numbered(newPos, c);
    if |c.children| < limit {
      var hit := FirstMatch(Notations(a, c.children), m.notation);
      if hit.None? && !(height == limit && |c.children| > 0) {
        Inserted(a, next, cur, m.(captured := m.captured + c.captured, key := Id(next), parent := Some(cur)));
      }
    }
  }

  /** `Added` past the branch limit, with the outcome of `pos_in_tree`. */
  lemma AddedAt(a: Arena, next: nat, limit: nat, height: int, newPos: Node, cur: Key, found: bool, index: nat)
    requires Sound(a, next) && cur in a && newPos.children == [] && |newPos.notation| > 0
    requires |a[cur].children| < limit
    requires var hit := FirstMatch(Notations(a, a[cur].children), Numbered(newPos, a[cur]).notation);
      (found <==> hit.Some?) && (found ==> index == hit.value)
    ensures var r := Added(a, next, limit, height, newPos, cur); var kids := a[cur].children;
      && (found ==> r == Addition(Numbered(newPos, a[cur]), [GoTo(kids[index])], a, next))
      && (!found && height == limit && |kids| > 0 ==> r == Addition(Numbered(newPos, a[cur]), [GoTo(kids[0])], a, next))
      && (!found && (height != limit || |kids| == 0) ==>
            var m := Numbered(newPos, a[cur]);
            r == Addition(m.(captured := m.captured + a[cur].captured, key := Id(next), parent := Some(cur)), [],
                          Grown(a, cur, m.(captured := m.captured + a[cur].captured, key := Id(next), parent := Some(cur))), next + 1))
  {
  }

  class MoveTree {
    var lookup: Arena
    /** The next fresh key; keys stand for the `id(...)` the source uses. */
    var nextId: nat
    var treeHeight: int
    const branchLimit: nat

    ghost predicate Valid()
      reads this`lookup, this`nextId
    {
      Sound(lookup, nextId)
    }

    /** A tree holding only the root position, keyed `Root`, with no captured material. */
    constructor (turn: int, orientation: int, move: seq<int>, notation: string, promotion: bool,
                 board: seq<seq<int>>, castling: int)
      ensures Valid()
      ensures lookup == map[Root := NewNode(turn, orientation, move, notation, promotion, board, castling, [], Root)]
      ensures branchLimit == 5 && treeHeight == 0 && nextId == 0
    {
      lookup := map[Root := NewNode(turn, orientation, move, notation, promotion, board, castling, [], Root)];
      nextId := 0;
      treeHeight := 0;
      branchLimit := 5;
    }

    /** `key_search`: the stored position; an unknown key (a `KeyError` in the source) gives none. */
    function KeySearch(k: Key): (r: Option<Node>)
      reads this
      requires Valid()
      ensures r.Some? <==> k in lookup
      ensures r.Some? ==> r.value.key == k && r.value == lookup[k]
    {
      if k in lookup then Some(lookup[k]) else None
    }

    /** `pos_in_tree`: scan the siblings' notations for the first match. */
    static method PosInTree(siblings: seq<string>, note: string) returns (found: bool, index: nat)
      requires forall i :: 0 <= i < |siblings| ==> |siblings[i]| > 0
      ensures found <==> FirstMatch(siblings, note).Some?
      ensures found ==> index == FirstMatch(siblings, note).value
    {
      index := 0;
      while index < |siblings|
        invariant 0 <= index <= |siblings|
        invariant forall j :: 0 <= j < index ==> !NotationMatch(siblings[j], note)
      {
        var sibling := siblings[index];
        var last := sibling[|sibling| - 1];
        if last == '+' || last == '=' || last == '#' {
          if note + [last] == sibling {
            return true, index;
          }
        }
        if sibling == note {
          return true, index;
        }
        index := index + 1;
      }
      return false, 0;
    }

    /** `add_move`, step by step as the source takes it; its outcome is
        `Added`. `np` is the caller's position as the source leaves it. */
    method AddMove(newPos: Node, cur: Key, events: seq<Event>) returns (np: Node, events': seq<Event>)
      requires Valid() && cur in lookup
      requires newPos.children == [] && |newPos.notation| > 0
      modifies this`lookup, this`nextId
      ensures Valid()
      ensures var r := Added(old(lookup), old(nextId), branchLimit, treeHeight, newPos, cur);
        np == r.np && events' == events + r.tail && lookup == r.arena && nextId == r.next
    {
      var c := lookup[cur];
      np := Numbered(newPos, c);
      if |c.children| >= branchLimit {
        events' := events + [Takeback(-1)];
        return;
      }
      var notes := Notations(lookup, c.children);
      var found, index := PosInTree(notes, np.notation);
      AddedAt(lookup, nextId, branchLimit, treeHeight, newPos, cur, found, index);
      if found && |c.children| > 0 {
        events' := events + [GoTo(c.children[index])];
        return;
      }
      if treeHeight == branchLimit && |c.children| > 0 {
        events' := events + [GoTo(c.children[0])];
        return;
      }
      np := Insert(np, cur);
      events' := events;
    }

    /** The insertion at the end of `add_move`: captured pieces accumulate, the
        position takes a fresh key, becomes the parent's last child and is
        registered in the table. */
    method Insert(m: Node, cur: Key) returns (np: Node)
      requires Valid() && cur in lookup
      requires m.children == [] && |m.notation| > 0
      requires m.ply == lookup[cur].ply + (if m.turn == 1 then 1 else 0)
      modifies this`lookup, this`nextId
      ensures Valid()
      ensures var c := old(lookup)[cur];
        && np == m.(captured := m.captured + c.captured, key := Id(old(nextId)), parent := Some(cur))
        && Id(old(nextId)) !in old(lookup)
        && lookup == Grown(old(lookup), cur, np)
        && nextId == old(nextId) + 1
    {
      var c := lookup[cur];
      var key := Id(nextId);
      np := m.(captured := m.captured + c.captured, key := key, parent := Some(cur));
      Inserted(lookup, nextId, cur, np);
      lookup := Grown(lookup, cur, np);
      nextId := nextId + 1;
    }

    /** `follow_line`: append the node and its `children[0]` chain to one layer. */
    method FollowLine(k: Key, td: Layers, layer: nat) returns (td': Layers)
      requires Valid() && k in lookup && layer in td
      ensures td' == td[layer := td[layer] + MainLine(lookup, nextId, k)]
      decreases nextId - Rank(k)
    {
      td' := td[layer := td[layer] + [k]];
      if |lookup[k].children| > 0 {
        ChildRanksAbove(lookup, k, 0);
        var c := lookup[k].children[0];
        var line := MainLine(lookup, nextId, c);
        assert MainLine(lookup, nextId, k) == [k] + line;
        td' := FollowLine(c, td', layer);
        assert td[layer] + [k] + line == td[layer] + ([k] + line);
      }
    }

    /** The key-shifting loop of `tree_backtrack` and the fresh layer 0 after
        it: every layer moves up by one. */
    static method ShiftLayers(td: Layers, n: nat) returns (td': Layers)
      requires Contiguous(td, n)
      ensures ShiftedUp(td, n, td')
    {
      ContiguousSize(td, n);
      td' := td;
      var maxKey: int := |td| - 1;
      var i := 0;
      while i < |td|
        invariant 0 <= i <= n && maxKey == n - 1 - i
        invariant Shifting(td, n, i, td')
      {
        ShiftStep(td, n, i, td', maxKey);
        td' := td'[maxKey + 1 := td'[maxKey]];
        td' := td' - {maxKey};
        maxKey := maxKey - 1;
        i := i + 1;
      }
      ShiftDone(td, n, td');
      td' := td'[0 := []];
    }

    /** The first two lines of `tree_backtrack`: the node goes to the front of
        layer 0, followed at the end of that layer by its main line when
        `lineCont`. */
    method PutFirst(k: Key, td: Layers, n: nat, lineCont: bool) returns (td1: Layers)
      requires Valid() && k in lookup && Contiguous(td, n) && n >= 1
      ensures Put(td, n, [k] + (if lineCont then td[0] + Below(lookup, nextId, k) else td[0]), td1)
    {
      var first := [k] + td[0];
      td1 := td[0 := first];
      PutUpdate(td, n, first, td1);
      if lineCont && |lookup[k].children| > 0 {
        var c := lookup[k].children[0];
        var mid := td1;
        td1 := FollowLine(c, td1, 0);
        var line := MainLine(lookup, nextId, c);
        PutUpdate'(td, n, first, mid, first + line);
        assert line == Below(lookup, nextId, k);
        AppendAssoc([k], td[0], line);
      } else {
        assert lineCont ==> td[0] + Below(lookup, nextId, k) == td[0];
      }
    }

    /** `tree_backtrack`: walk from `k` to the root, putting each node at the front
        of layer 0; at a node that starts a variation, shift the layers up and
        continue in a fresh layer 0 that also receives the parent's main line.
        The result is described against the top-down layers `PartLayers`: see
        `Backtracked`. */
    method TreeBacktrack(k: Key, td: Layers, n: nat, lineCont: bool) returns (td': Layers)
      requires Valid() && k in lookup && Attached(lookup, k)
      requires n >= 1 && Contiguous(td, n) && (lineCont ==> td[0] == [])
      ensures Backtracked(PartLayers(lookup, nextId, k), td, n,
                          if lineCont then td[0] + Below(lookup, nextId, k) else td[0], td')
      decreases Rank(k), 1
    {
      var tail := if lineCont then td[0] + Below(lookup, nextId, k) else td[0];
      var td1 := PutFirst(k, td, n, lineCont);
      if k == Root {
        RootStep(lookup, nextId, tail, n, td, td1);
        td' := td1;
      } else if IsBranch(lookup, k) {  // has_siblings() and get_sibling_index() > 0
        td' := OpenUp(k, td, n, tail, td1);
      } else {
        td' := ExtendUp(k, td, n, tail, td1);
      }
    }

    /** The rest of `tree_backtrack` at a node that starts a variation: shift the
        layers up and continue from the parent in a fresh layer 0. */
    method OpenUp(k: Key, td: Layers, n: nat, tail: seq<Key>, td1: Layers) returns (td': Layers)
      requires Valid() && k in lookup && Attached(lookup, k) && k != Root && IsBranch(lookup, k)
      requires n >= 1 && Contiguous(td, n) && Put(td, n, [k] + tail, td1)
      ensures Backtracked(PartLayers(lookup, nextId, k), td, n, tail, td')
      decreases Rank(k), 0
    {
      var p := Parent(lookup, k);
      var shifted := ShiftLayers(td1, n);
      td' := TreeBacktrack(p, shifted, n + 1, true);
      OpenUpDone(lookup, nextId, k, td, n, tail, td1, shifted, td');
    }

    /** The rest of `tree_backtrack` at a node on its parent's main line:
        continue from the parent in the same layer 0. */
    method ExtendUp(k: Key, td: Layers, n: nat, tail: seq<Key>, td1: Layers) returns (td': Layers)
      requires Valid() && k in lookup && Attached(lookup, k) && k != Root && !IsBranch(lookup, k)
      requires n >= 1 && Contiguous(td, n) && Put(td, n, [k] + tail, td1)
      ensures Backtracked(PartLayers(lookup, nextId, k), td, n, tail, td')
      decreases Rank(k), 0
    {
      var p := Parent(lookup, k);
      PartLayersStep(lookup, nextId, k);
      td' := TreeBacktrack(p, td1, n, false);
      assert Backtracked(PartLayers(lookup, nextId, p), td1, n, td1[0], td');
      ExtendStep(PartLayers(lookup, nextId, p), k, tail, n, td, td1, td');
    }

    /** `get_part_tree`: lay out the layers of `k`, record the highest layer
        number as the tree height, and add `k`'s main-line continuation to that
        layer. From the table `{0: []}` the application passes, the result is
        `PartTree` layer by layer. */
    method GetPartTree(k: Key, td: Layers, n: nat) returns (pt: Layers)
      requires Valid() && k in lookup && Attached(lookup, k)
      requires n >= 1 && Contiguous(td, n)
      modifies this`treeHeight
      ensures treeHeight == n - 1 + BranchCount(lookup, k)
      ensures Contiguous(pt, n + BranchCount(lookup, k))
      ensures td == map[0 := []] ==> SameLayers(pt, PartTree(lookup, nextId, k))
    {
      var before := TreeBacktrack(k, td, n, false);
      assert Backtracked(PartLayers(lookup, nextId, k), td, n, td[0], before);
      var top := BacktrackTop(lookup, nextId, k, td, n, before);
      pt := FollowTopLayer(k, before, top);
      PartTreeLaidOut(lookup, nextId, k, td, n, before, pt);
      treeHeight := top;
    }

    /** The last lines of `get_part_tree`: `k`'s main-line continuation goes to
        the end of layer `top`. */
    method FollowTopLayer(k: Key, before: Layers, top: nat) returns (pt: Layers)
      requires Valid() && k in lookup && top in before
      ensures pt == before[top := before[top] + Below(lookup, nextId, k)]
    {
      if |lookup[k].children| > 0 {
        pt := FollowLine(lookup[k].children[0], before, top);
      } else {
        pt := before;
        assert before[top] + [] == before[top];
      }
    }

    /** Re-orient a stored position in place (`reverse_rank_and_file` and `flip`
        on it, as the game does when the display orientation differs). */
    method Reorient(k: Key)
      requires Valid() && k in lookup
      modifies this`lookup
      ensures Valid()
      ensures lookup == old(lookup)[k := Reoriented(old(lookup)[k])]
    {
      var r := Reoriented(lookup[k]);
      ReplaceKeepsValid(lookup, nextId, k, r);
      lookup := lookup[k := r];
    }

    /** `update_notation(mark)` on a stored position: the marker is appended
        unless the notation already ends with it. */
    method Annotate(k: Key, mark: string)
      requires Valid() && k in lookup
      modifies this`lookup
      ensures Valid()
      ensures lookup == old(lookup)[k := UpdateNotation(old(lookup)[k], mark, false)]
    {
      var r := UpdateNotation(lookup[k], mark, false);
      ReplaceKeepsValid(lookup, nextId, k, r);
      lookup := lookup[k := r];
    }

    /** `children.remove(child)` on `parent`: the first occurrence goes, the rest
        keep their order; the removed node stays in the table. */
    method RemoveChild(parent: Key, child: Key)
      requires Valid() && parent in lookup && child in lookup[parent].children
      modifies this`lookup
      ensures Valid()
      ensures lookup == old(lookup)[parent := old(lookup)[parent].(children := RemoveFirst(old(lookup)[parent].children, child))]
    {
      var c := lookup[parent];
      var kids := RemoveFirst(c.children, child);
      RemoveFirstKeeps(c.children, child);
      ChildrenEditKeepsValid(lookup, nextId, parent, kids);
      lookup := lookup[parent := c.(children := kids)];
    }

    /** The swap of `promote_variation`: the node trades places with the sibling
        before it. `ok` is false, and nothing changes, where the source raises:
        a node with no branch ancestor, or one cut out of the tree. */
    method PromoteVariation(k: Key) returns (ok: bool)
      requires Valid() && k in lookup
      modifies this`lookup
      ensures Valid()
      ensures var b := FindBranchAncestor(old(lookup), k);
        && (b.None? || SiblingIndex(old(lookup), b.value).None? ==> !ok && lookup == old(lookup))
        && (b.Some? && SiblingIndex(old(lookup), b.value).Some? ==>
              var p := Parent(old(lookup), b.value); var i := SiblingIndex(old(lookup), b.value).value;
              ok && i > 0 && lookup == old(lookup)[p := old(lookup)[p].(children := SwapDown(old(lookup)[p].children, i))])
    {
      var b := FindBranchAncestor(lookup, k);
      if b.None? {
        return false;
      }
      var idx := SiblingIndex(lookup, b.value);
      if idx.None? {
        return false;
      }
      var i := idx.value;
      var p := Parent(lookup, b.value);
      var kids := SwapDown(lookup[p].children, i);
      SwapDownKeeps(lookup[p].children, i);
      ChildrenEditKeepsValid(lookup, nextId, p, kids);
      lookup := lookup[p := lookup[p].(children := kids)];
      ok := true;
    }
  }

  lemma InsertKeepsValid(a: Arena, next: nat, cur: Key, np: Node)
    requires Linked(a) && Bounded(a, next) && PlyConsistent(a) && Noted(a)
    requires cur in a && np.key == Id(next) && Id(next) !in a
    requires np.parent == Some(cur) && np.children == [] && |np.notation| > 0
    requires np.ply == a[cur].ply + (if np.turn == 1 then 1 else 0)
    requires NoDuplicates(a[cur].children + [np.key])
    ensures var a' := a[cur := a[cur].(children := a[cur].children + [np.key])][np.key := np];
      Linked(a') && Bounded(a', next + 1) && PlyConsistent(a') && Noted(a')
  {
    var a' := a[cur := a[cur].(children := a[cur].children + [np.key])][np.key := np];
    GrowKeys(a, cur, np);
    GrowParents(a, next, cur, np);
    GrowDistinct(a, cur, np);
    GrowPointsBack(a, cur, np);
    assert Linkage(a');
    GrowPly(a, cur, np);
  }

  lemma GrowKeys(a: Arena, cur: Key, np: Node)
    requires KeysMatch(a) && cur in a && np.key !in a
    ensures KeysMatch(a[cur := a[cur].(children := a[cur].children + [np.key])][np.key := np])
  {
  }

  lemma GrowParents(a: Arena, next: nat, cur: Key, np: Node)
    requires ParentsBelow(a) && Bounded(a, next) && cur in a && np.key == Id(next) && np.parent == Some(cur)
    ensures ParentsBelow(a[cur := a[cur].(children := a[cur].children + [np.key])][np.key := np])
  {
  }

  lemma GrowDistinct(a: Arena, cur: Key, np: Node)
    requires ChildrenDistinct(a) && cur in a && np.key !in a && np.children == []
    requires NoDuplicates(a[cur].children + [np.key])
    ensures ChildrenDistinct(a[cur := a[cur].(children := a[cur].children + [np.key])][np.key := np])
  {
    var a' := a[cur := a[cur].(children := a[cur].children + [np.key])][np.key := np];
    forall k | k in a' ensures NoDuplicates(a'[k].children) {
      if k != cur && k != np.key {
        assert a'[k] == a[k];
      }
    }
  }

  lemma GrowPointsBack(a: Arena, cur: Key, np: Node)
    requires ChildrenPointBack(a) && cur in a && np.key !in a && np.children == [] && np.parent == Some(cur)
    ensures ChildrenPointBack(a[cur := a[cur].(children := a[cur].children + [np.key])][np.key := np])
  {
    var a' := a[cur := a[cur].(children := a[cur].children + [np.key])][np.key := np];
    forall k, i | k in a' && 0 <= i < |a'[k].children|
      ensures a'[k].children[i] in a' && a'[a'[k].children[i]].parent == Some(k)
    {
      if k == cur && i == |a[cur].children| {
      } else {
        assert k in a && a'[k].children[i] == a[k].children[i];
      }
    }
  }

  lemma GrowPly(a: Arena, cur: Key, np: Node)
    requires Linked(a) && PlyConsistent(a) && cur in a && np.key !in a && np.parent == Some(cur)
    requires np.ply == a[cur].ply + (if np.turn == 1 then 1 else 0)
    requires Linked(a[cur := a[cur].(children := a[cur].children + [np.key])][np.key := np])
    ensures PlyConsistent(a[cur := a[cur].(children := a[cur].children + [np.key])][np.key := np])
  {
    var a' := a[cur := a[cur].(children := a[cur].children + [np.key])][np.key := np];
    forall k | k in a' && k != Root
      ensures a'[k].ply == a'[Parent(a', k)].ply + (if a'[k].turn == 1 then 1 else 0)
    {
      if k != np.key {
        assert Parent(a', k) == Parent(a, k);
      }
    }
  }

  lemma ReplaceKeepsValid(a: Arena, next: nat, k: Key, r: Node)
    requires Linked(a) && Bounded(a, next) && PlyConsistent(a) && Noted(a) && k in a
    requires r.key == a[k].key && r.parent == a[k].parent && r.children == a[k].children
    requires r.ply == a[k].ply && r.turn == a[k].turn && |r.notation| >= |a[k].notation|
    ensures var a' := a[k := r]; Linked(a') && Bounded(a', next) && PlyConsistent(a') && Noted(a')
  {
    ReplaceLinked(a, k, r);
    ReplacePly(a, k, r);
  }

  lemma ReplaceLinked(a: Arena, k: Key, r: Node)
    requires Linked(a) && k in a
    requires r.key == a[k].key && r.parent == a[k].parent && r.children == a[k].children
    ensures Linked(a[k := r])
  {
    var a' := a[k := r];
    assert forall j | j in a' :: a'[j].parent == a[j].parent && a'[j].children == a[j].children;
  }

  lemma ReplacePly(a: Arena, k: Key, r: Node)
    requires Linked(a) && PlyConsistent(a) && k in a && Linked(a[k := r])
    requires r.parent == a[k].parent && r.ply == a[k].ply && r.turn == a[k].turn
    ensures PlyConsistent(a[k := r])
  {
    var a' := a[k := r];
    forall j | j in a' && j != Root
      ensures a'[j].ply == a'[Parent(a', j)].ply + (if a'[j].turn == 1 then 1 else 0)
    {
      assert Parent(a', j) == Parent(a, j);
    }
  }

  /** Re-arranging or dropping children of one node keeps the tree valid, as
      long as no child is listed twice. */
  lemma ChildrenEditKeepsValid(a: Arena, next: nat, p: Key, r: seq<Key>)
    requires Linked(a) && Bounded(a, next) && PlyConsistent(a) && Noted(a) && p in a
    requires NoDuplicates(r) && forall i :: 0 <= i < |r| ==> r[i] in a[p].children
    ensures var a' := a[p := a[p].(children := r)];
      Linked(a') && Bounded(a', next) && PlyConsistent(a') && Noted(a')
  {
    var a' := a[p := a[p].(children := r)];
    EditPointsBack(a, p, r);
    assert Linkage(a');
    EditPly(a, p, r);
  }

  lemma EditPointsBack(a: Arena, p: Key, r: seq<Key>)
    requires ChildrenPointBack(a) && p in a && forall i :: 0 <= i < |r| ==> r[i] in a[p].children
    ensures ChildrenPointBack(a[p := a[p].(children := r)])
  {
    var a' := a[p := a[p].(children := r)];
    forall k, i | k in a' && 0 <= i < |a'[k].children|
      ensures a'[k].children[i] in a' && a'[a'[k].children[i]].parent == Some(k)
    {
      if k == p {
        var c := r[i];
        var j :| 0 <= j < |a[p].children| && a[p].children[j] == c;
      } else {
        assert a'[k].children[i] == a[k].children[i];
      }
    }
  }

  lemma EditPly(a: Arena, p: Key, r: seq<Key>)
    requires Linked(a) && PlyConsistent(a) && p in a && Linked(a[p := a[p].(children := r)])
    ensures PlyConsistent(a[p := a[p].(children := r)])
  {
    var a' := a[p := a[p].(children := r)];
    forall j | j in a' && j != Root
      ensures a'[j].ply == a'[Parent(a', j)].ply + (if a'[j].turn == 1 then 1 else 0)
    {
      assert Parent(a', j) == Parent(a, j);
    }
  }

  lemma RemoveFirstKeeps(s: seq<Key>, k: Key)
    requires k in s && NoDuplicates(s)
    ensures NoDuplicates(RemoveFirst(s, k))
    ensures forall i :: 0 <= i < |RemoveFirst(s, k)| ==> RemoveFirst(s, k)[i] in s
    ensures k !in RemoveFirst(s, k)
  {
    var i := IndexOf(s, k).value;
    var r := RemoveFirst(s, k);
    assert forall j :: 0 <= j < |r| ==> r[j] == if j < i then s[j] else s[j + 1];
  }

  lemma SwapDownKeeps(s: seq<Key>, i: nat)
    requires 0 < i < |s| && NoDuplicates(s)
    ensures NoDuplicates(SwapDown(s, i))
    ensures forall j :: 0 <= j < |s| ==> SwapDown(s, i)[j] in s
  {
  }

  /** Layer `j` of the table is layer `j` of `l`. */
  ghost predicate LowLayer(res: Layers, l: seq<seq<Key>>, j: nat)
    requires j < |l|
  {
    j in res && res[j] == l[j]
  }

  /** Layer `j` of the table is layer `j - (|l| - 1)` of `td`. */
  ghost predicate HighLayer(res: Layers, td: Layers, l: seq<seq<Key>>, j: nat)
    requires |l| - 1 <= j
  {
    j in res && j - (|l| - 1) in td && res[j] == td[j - (|l| - 1)]
  }

  /** `res` is what `tree_backtrack` leaves for a node with top-down layers `l`,
      started on the table `td` of `n` layers: the layers of `l` below the last
      come first, then `l`'s last layer followed by `tail`, and then `td`'s
      layers 1 .. n - 1 above. */
  ghost predicate Backtracked(l: seq<seq<Key>>, td: Layers, n: nat, tail: seq<Key>, res: Layers) {
    && |l| >= 1 && n >= 1
    && Contiguous(res, n + |l| - 1)
    && (forall j: nat :: j < |l| - 1 ==> LowLayer(res, l, j))
    && res[|l| - 1] == l[|l| - 1] + tail
    && (forall j: nat :: |l| - 1 < j < n + |l| - 1 ==> HighLayer(res, td, l, j))
  }

  /** `s` is `td` with every layer moved up by one and an empty layer 0. */
  ghost predicate ShiftedUp(td: Layers, n: nat, s: Layers) {
    Contiguous(td, n) && Contiguous(s, n + 1) && s[0] == [] && forall j :: 1 <= j <= n ==> s[j] == td[j - 1]
  }

  /** `td1` is the table `td` of `n` layers with layer 0 replaced by `first`. */
  ghost predicate Put(td: Layers, n: nat, first: seq<Key>, td1: Layers) {
    n >= 1 && Contiguous(td, n) && Contiguous(td1, n) && td1[0] == first && forall j :: 1 <= j < n ==> td1[j] == td[j]
  }

  lemma AppendAssoc(s: seq<Key>, t: seq<Key>, u: seq<Key>)
    ensures (s + t) + u == s + (t + u)
  {
  }

  /** Writing layer 0 of a contiguous table. */
  lemma PutUpdate(td: Layers, n: nat, first: seq<Key>, td1: Layers)
    requires n >= 1 && Contiguous(td, n) && td1 == td[0 := first]
    ensures Put(td, n, first, td1)
  {
  }

  /** Writing layer 0 again. */
  lemma PutUpdate'(td: Layers, n: nat, mid: seq<Key>, td1: Layers, first: seq<Key>)
    requires Put(td, n, mid, td1)
    ensures Put(td, n, first, td1[0 := first])
  {
  }

  /** After `i` rounds of the shifting loop: layers `0 .. n - 1 - i` are still in
      place, and the old layers `n - i .. n - 1` sit one key higher. */
  ghost predicate Shifting(td: Layers, n: nat, i: nat, cur: Layers) {
    && (forall j: nat :: j in cur <==> j <= n - 1 - i || n - i + 1 <= j <= n)
    && (forall j :: 0 <= j <= n - 1 - i ==> j in cur && j in td && cur[j] == td[j])
    && (forall j :: n - i + 1 <= j <= n ==> j in cur && j - 1 in td && cur[j] == td[j - 1])
  }

  lemma ShiftStep(td: Layers, n: nat, i: nat, cur: Layers, m: nat)
    requires i < n && m == n - 1 - i && Shifting(td, n, i, cur)
    ensures m in cur
    ensures Shifting(td, n, i + 1, cur[m + 1 := cur[m]] - {m})
  {
    ShiftStepKeys(td, n, i, cur, m);
    ShiftStepLow(td, n, i, cur, m);
    ShiftStepHigh(td, n, i, cur, m);
  }

  /** One round of the shifting loop: the keys. */
  lemma ShiftStepKeys(td: Layers, n: nat, i: nat, cur: Layers, m: nat)
    requires i < n && m == n - 1 - i && Shifting(td, n, i, cur)
    ensures m in cur
    ensures var next := cur[m + 1 := cur[m]] - {m};
      forall j: nat :: j in next <==> j <= n - 1 - (i + 1) || n - (i + 1) + 1 <= j <= n
  {
    var next := cur[m + 1 := cur[m]] - {m};
    forall j: nat ensures j in next <==> j <= n - 1 - (i + 1) || n - (i + 1) + 1 <= j <= n {
      assert j in next <==> (j in cur || j == m + 1) && j != m;
    }
  }

  /** One round of the shifting loop: the layers still in place. */
  lemma ShiftStepLow(td: Layers, n: nat, i: nat, cur: Layers, m: nat)
    requires i < n && m == n - 1 - i && Shifting(td, n, i, cur)
    ensures var next := cur[m + 1 := cur[m]] - {m};
      forall j :: 0 <= j <= n - 1 - (i + 1) ==> j in next && j in td && next[j] == td[j]
  {
    var next := cur[m + 1 := cur[m]] - {m};
    forall j | 0 <= j <= n - 1 - (i + 1) ensures j in next && j in td && next[j] == td[j] {
      assert j != m && j != m + 1;
      assert j in cur && j in td && cur[j] == td[j];
    }
  }

  /** One round of the shifting loop: the layers already moved up, and layer
      `m` moved up now. */
  lemma ShiftStepHigh(td: Layers, n: nat, i: nat, cur: Layers, m: nat)
    requires i < n && m == n - 1 - i && Shifting(td, n, i, cur)
    ensures var next := cur[m + 1 := cur[m]] - {m};
      forall j :: n - (i + 1) + 1 <= j <= n ==> j in next && j - 1 in td && next[j] == td[j - 1]
  {
    var next := cur[m + 1 := cur[m]] - {m};
    forall j | n - (i + 1) + 1 <= j <= n ensures j in next && j - 1 in td && next[j] == td[j - 1] {
      if j == m + 1 {
        assert m in cur && m in td && cur[m] == td[m];
        assert next[j] == cur[m];
      } else {
        assert n - i + 1 <= j <= n;
        assert j in cur && j - 1 in td && cur[j] == td[j - 1];
        assert next[j] == cur[j];
      }
    }
  }

  lemma ShiftDone(td: Layers, n: nat, cur: Layers)
    requires Contiguous(td, n) && Shifting(td, n, n, cur)
    ensures ShiftedUp(td, n, cur[0 := []])
  {
  }

  /** The two layer tables hold the same layers. */
  ghost predicate SameLayers(td: Layers, l: seq<seq<Key>>) {
    Contiguous(td, |l|) && forall j :: 0 <= j < |l| ==> td[j] == l[j]
  }

  /** At the root, the walk ends with the root in front of layer 0. */
  lemma RootStep(a: Arena, next: nat, tail: seq<Key>, n: nat, td: Layers, td1: Layers)
    requires Linked(a) && Bounded(a, next)
    requires n >= 1 && Contiguous(td, n) && Put(td, n, [Root] + tail, td1)
    ensures Backtracked(PartLayers(a, next, Root), td, n, tail, td1)
  {
    var l := PartLayers(a, next, Root);
    assert l == [[Root]];
    forall j: nat | 0 < j < n ensures HighLayer(td1, td, l, j) {
    }
  }

  /** The step at a node `k` that starts a variation: backtracking the parent
      (layers `lp`) on the shifted table gives `k`'s layers on the original one. */
  /** `tree_backtrack` at a node that starts a variation: the parent's layers,
      laid out on the shifted table with the parent's continuation, are the
      node's layers laid out on the original table. */
  lemma OpenUpDone(a: Arena, next: nat, k: Key, td: Layers, n: nat, tail: seq<Key>, td1: Layers, shifted: Layers, res: Layers)
    requires Linked(a) && Bounded(a, next) && k in a && k != Root && Attached(a, k) && IsBranch(a, k)
    requires n >= 1 && Contiguous(td, n) && Put(td, n, [k] + tail, td1) && ShiftedUp(td1, n, shifted)
    requires Parent(a, k) in a && Attached(a, Parent(a, k))
    requires Backtracked(PartLayers(a, next, Parent(a, k)), shifted, n + 1, shifted[0] + Below(a, next, Parent(a, k)), res)
    ensures Backtracked(PartLayers(a, next, k), td, n, tail, res)
  {
    var p := Parent(a, k);
    PartLayersStep(a, next, k);
    OpenStep(PartLayers(a, next, p), Below(a, next, p), k, tail, n, td, td1, shifted, res);
  }

  lemma OpenStep(lp: seq<seq<Key>>, below: seq<Key>, k: Key, tail: seq<Key>, n: nat,
                 td: Layers, td1: Layers, shifted: Layers, res: Layers)
    requires |lp| >= 1 && (forall i :: 0 <= i < |lp| ==> |lp[i]| >= 1)
    requires n >= 1 && Contiguous(td, n) && Put(td, n, [k] + tail, td1)
    requires ShiftedUp(td1, n, shifted)
    requires Backtracked(lp, shifted, n + 1, shifted[0] + below, res)
    ensures Backtracked(OpenLayer(lp, below, k), td, n, tail, res)
  {
    var l := OpenLayer(lp, below, k);
    var bp := |lp| - 1;
    assert |l| - 1 == bp + 1;
    assert [] + below == below;
    forall j: nat | j < |l| - 1 ensures LowLayer(res, l, j) {
      if j < bp {
        assert LowLayer(res, lp, j);
      }
    }
    assert HighLayer(res, shifted, lp, bp + 1);
    forall j: nat | |l| - 1 < j < n + |l| - 1 ensures HighLayer(res, td, l, j) {
      assert HighLayer(res, shifted, lp, j);
      assert res[j] == shifted[j - bp] == td1[j - bp - 1];
    }
  }

  /** The step at a node `k` on its parent's main line. */
  lemma ExtendStep(lp: seq<seq<Key>>, k: Key, tail: seq<Key>, n: nat, td: Layers, td1: Layers, res: Layers)
    requires |lp| >= 1 && (forall i :: 0 <= i < |lp| ==> |lp[i]| >= 1)
    requires n >= 1 && Contiguous(td, n) && Put(td, n, [k] + tail, td1)
    requires Backtracked(lp, td1, n, td1[0], res)
    ensures Backtracked(ExtendLayer(lp, [k]), td, n, tail, res)
  {
    var l := ExtendLayer(lp, [k]);
    var b := |lp| - 1;
    assert |l| - 1 == b;
    forall j: nat | j < b ensures LowLayer(res, l, j) {
      assert LowLayer(res, lp, j);
    }
    calc {
      res[b];
      lp[b] + td1[0];
      lp[b] + ([k] + tail);
      { assert lp[b] + ([k] + tail) == lp[b] + [k] + tail; }
      l[b] + tail;
    }
    forall j: nat | b < j < n + b ensures HighLayer(res, td, l, j) {
      assert HighLayer(res, td1, lp, j);
    }
  }

  /** `max(part_tree.keys())` after the walk: the number of layers below the
      top one, with the branch count to `k` among them. */
  function BacktrackTop(a: Arena, next: nat, k: Key, td: Layers, n: nat, before: Layers): (top: nat)
    requires Linked(a) && Bounded(a, next) && k in a && Attached(a, k)
    requires n >= 1 && Contiguous(td, n)
    requires Backtracked(PartLayers(a, next, k), td, n, td[0], before)
    ensures top == n - 1 + BranchCount(a, k) && top + 1 == |before| && top in before
    ensures forall j: nat :: j in before ==> j <= top
  {
    ContiguousSize(before, n + |PartLayers(a, next, k)| - 1);
    |before| - 1
  }

  /** What `get_part_tree` builds from the backtracked layers: the top layer
      number is the branch count above the start, and from `{0: []}` the
      layers are `PartTree`. */
  lemma {:induction false} PartTreeLaidOut(a: Arena, next: nat, k: Key, td: Layers, n: nat, before: Layers, pt: Layers)
    requires Linked(a) && Bounded(a, next) && k in a && Attached(a, k)
    requires n >= 1 && Contiguous(td, n)
    requires Backtracked(PartLayers(a, next, k), td, n, td[0], before)
    requires |before| >= 1 && |before| - 1 in before
    requires pt == before[|before| - 1 := before[|before| - 1] + Below(a, next, k)]
    ensures Contiguous(pt, n + BranchCount(a, k))
    ensures td == map[0 := []] ==> SameLayers(pt, PartTree(a, next, k))
  {
    FollowTop(PartLayers(a, next, k), td, n, Below(a, next, k), before, |before| - 1, pt);
  }

  lemma {:induction false} FollowTop(l: seq<seq<Key>>, td: Layers, n: nat, below: seq<Key>, before: Layers, top: int, after: Layers)
    requires n >= 1 && Contiguous(td, n) && (forall i :: 0 <= i < |l| ==> |l[i]| >= 1)
    requires Backtracked(l, td, n, td[0], before)
    requires top == |before| - 1 && top in before && after == before[top := before[top] + below]
    ensures Contiguous(after, n + |l| - 1)
    ensures td == map[0 := []] ==> SameLayers(after, ExtendLayer(l, below))
  {
    ContiguousSize(before, n + |l| - 1);
    if td == map[0 := []] {
      assert n == 1 by { ContiguousSize(td, n); }
      var e := ExtendLayer(l, below);
      forall j | 0 <= j < |l| ensures after[j] == e[j] {
        if j < |l| - 1 {
          assert LowLayer(before, l, j);
        } else {
          assert before[j] == l[j] + [];
        }
      }
    }
  }
}

/**
 * Enginegton's `Move` record and `MoveQueue`, the binary max-heap on
 * `rating` from which the search takes moves best-first. Slot 0 of the
 * vector holds a sentinel that is never compared; the heap proper is slots
 * 1 .. N, where the parent of slot i is slot i / 2.
 */
module MoveQueues {

  /** A move: origin and destination squares (0 .. 63), a move type, the
      rating the queue orders by, and the destination bitboard. */
  datatype Move = Move(origin: int, destination: int, kind: int, rating: int, moveMask: bv64)

  /** The constructor `Move(mm, o, d, r, t = 0)`. */
  function NewMove(mm: bv64, o: int, d: int, r: int, t: int := 0): (m: Move)
    ensures m.moveMask == mm && m.origin == o && m.destination == d && m.rating == r
  {
    Move(o, d, t, r, mm)
  }

  /** When the type argument is omitted it is 0 (a plain move). */
  lemma NewMoveDefaultKind(mm: bv64, o: int, d: int, r: int)
    ensures NewMove(mm, o, d, r).kind == 0
  {
  }

  /** `index >> 1`, `index << 1` and `(index << 1) + 1` on the non-negative slots. */
  function GetParent(i: nat): nat { i / 2 }
  function GetLeftChild(i: nat): nat { 2 * i }
  function GetRightChild(i: nat): nat { 2 * i + 1 }

  /** Either child of a slot has that slot as parent, and these are its only children. */
  lemma ChildrenOfParent(i: nat, c: nat)
    ensures GetParent(GetLeftChild(i)) == i && GetParent(GetRightChild(i)) == i
    ensures GetParent(c) == i <==> c == GetLeftChild(i) || c == GetRightChild(i)
  {
  }

  /** Slot j rates no higher than its parent. */
  ghost predicate InOrder(m: seq<Move>, j: int)
    requires 1 <= j < |m|
  {
    m[j / 2].rating >= m[j].rating
  }

  /** Slots 1 .. n of `m` are ordered: no slot rates above its parent. */
  ghost predicate IsHeap(m: seq<Move>, n: int)
    requires n < |m|
  {
    forall j :: 2 <= j <= n ==> InOrder(m, j)
  }

  /** The parent of slot i (when i has one) rates at least as high as i's children. */
  ghost predicate ParentOverChildren(m: seq<Move>, n: int, i: int)
    requires n < |m| && 1 <= i
  {
    i >= 2 ==>
      && (2 * i <= n ==> m[i / 2].rating >= m[2 * i].rating)
      && (2 * i + 1 <= n ==> m[i / 2].rating >= m[2 * i + 1].rating)
  }

  /** The state while a move rises from slot i: ordered everywhere except
      between i and its parent, and i's parent already rates above i's children. */
  ghost predicate HeapUp(m: seq<Move>, n: int, i: int)
    requires n < |m| && 1 <= i
  {
    && (forall j :: 2 <= j <= n && j != i ==> InOrder(m, j))
    && ParentOverChildren(m, n, i)
  }

  /** The state while a move sinks from slot i: ordered everywhere except
      between i and its children, and i's parent already rates above them. */
  ghost predicate HeapDown(m: seq<Move>, n: int, i: int)
    requires n < |m| && 1 <= i
  {
    && (forall j :: 2 <= j <= n && j != 2 * i && j != 2 * i + 1 ==> InOrder(m, j))
    && ParentOverChildren(m, n, i)
  }

  /** `std::swap(moves[a], moves[b])`. */
  function Swap(m: seq<Move>, a: nat, b: nat): (r: seq<Move>)
    requires a < |m| && b < |m|
    ensures |r| == |m| && r[a] == m[b] && r[b] == m[a]
    ensures forall j :: 0 <= j < |m| && j != a && j != b ==> r[j] == m[j]
  {
    m[a := m[b]][b := m[a]]
  }

  /** Swapping two heap slots keeps the moves stored in slots 1 .. |m| - 1. */
  lemma SwapKeepsContents(m: seq<Move>, a: nat, b: nat)
    requires 1 <= a < |m| && 1 <= b < |m|
    ensures multiset(Swap(m, a, b)[1..]) == multiset(m[1..])
  {
    var t := m[1..];
    assert Swap(m, a, b)[1..] == t[a - 1 := m[b]][b - 1 := m[a]];
  }

  /** The root of a heap rates at least as high as every stored move. */
  lemma {:induction false} HeapTop(m: seq<Move>, n: int, j: int)
    requires n < |m| && IsHeap(m, n) && 1 <= j <= n
    ensures m[j].rating <= m[1].rating
    decreases j
  {
    if j >= 2 {
      assert InOrder(m, j);
      HeapTop(m, n, j / 2);
    }
  }

  /** In an ordered heap any slot may be taken as the rising one. */
  lemma HeapIsHeapUp(m: seq<Move>, n: int, i: int)
    requires n < |m| && IsHeap(m, n) && i >= 1
    ensures HeapUp(m, n, i)
  {
    if 2 <= i <= n {
      assert InOrder(m, i);
      if 2 * i <= n {
        assert InOrder(m, 2 * i);
      }
      if 2 * i + 1 <= n {
        assert InOrder(m, 2 * i + 1);
      }
    }
  }

  /** A rising move that does not outrate its parent (or has reached the root) leaves an ordered heap. */
  lemma UpStays(m: seq<Move>, n: int, i: int)
    requires n < |m| && 1 <= i && HeapUp(m, n, i)
    requires i == 1 || i > n || m[i].rating <= m[i / 2].rating
    ensures IsHeap(m, n)
  {
    forall j | 2 <= j <= n ensures InOrder(m, j) {
    }
  }

  /** A rising move that outrates its parent trades places with it: the parent's slot rises next. */
  lemma UpSwap(m: seq<Move>, n: int, i: int)
    requires n < |m| && 2 <= i <= n && HeapUp(m, n, i) && m[i].rating > m[i / 2].rating
    ensures HeapUp(Swap(m, i / 2, i), n, i / 2)
  {
    var p := i / 2;
    var s := Swap(m, p, i);
    forall j | 2 <= j <= n && j != p ensures InOrder(s, j) {
      if j == i {
      } else if j == 2 * i || j == 2 * i + 1 {
        assert s[j] == m[j];
      } else if j / 2 == p {
        assert InOrder(m, j);
        assert s[j] == m[j];
      } else {
        assert InOrder(m, j);
        assert s[j] == m[j] && s[j / 2] == m[j / 2];
      }
    }
    if p >= 2 {
      assert InOrder(m, p);
      var k := if i == 2 * p then 2 * p + 1 else 2 * p;
      if k <= n {
        assert InOrder(m, k);
        assert s[k] == m[k];
      }
    }
  }

  /** Slot i rates at least as high as each of its children. */
  ghost predicate Settled(m: seq<Move>, n: int, i: int)
    requires n < |m| && 1 <= i
  {
    && (2 * i <= n ==> m[i].rating >= m[2 * i].rating)
    && (2 * i + 1 <= n ==> m[i].rating >= m[2 * i + 1].rating)
  }

  /** A sinking move past the heap's end, or at least as good as its children, leaves an ordered heap. */
  lemma DownStays(m: seq<Move>, n: int, i: int)
    requires n < |m| && 1 <= i && HeapDown(m, n, i)
    requires Settled(m, n, i)
    ensures IsHeap(m, n)
  {
    forall j | 2 <= j <= n ensures InOrder(m, j) {
      if j == 2 * i || j == 2 * i + 1 {
        assert j / 2 == i;
      }
    }
  }

  /** Slot c is the child of i that rates highest, and it rates above i. */
  ghost predicate Outrated(m: seq<Move>, n: int, i: int, c: int)
    requires n < |m| && 1 <= i && c <= n && (c == 2 * i || c == 2 * i + 1)
  {
    && m[c].rating > m[i].rating
    && (2 * i <= n ==> m[c].rating >= m[2 * i].rating)
    && (2 * i + 1 <= n ==> m[c].rating >= m[2 * i + 1].rating)
  }

  /** A sinking move that a child outrates trades places with its best child `c`: `c` sinks next. */
  lemma DownSwap(m: seq<Move>, n: int, i: int, c: int)
    requires n < |m| && 1 <= i && c <= n && (c == 2 * i || c == 2 * i + 1) && HeapDown(m, n, i)
    requires Outrated(m, n, i, c)
    ensures HeapDown(Swap(m, i, c), n, c)
  {
    DownSwapAbove(m, n, i, c);
    var s := Swap(m, i, c);
    assert s[c / 2] == m[c];
    if 2 * c <= n {
      assert InOrder(m, 2 * c);
      assert s[2 * c] == m[2 * c];
    }
    if 2 * c + 1 <= n {
      assert InOrder(m, 2 * c + 1);
      assert s[2 * c + 1] == m[2 * c + 1];
    }
  }

  /** After that swap every slot outside `c`'s children is in order. */
  lemma DownSwapAbove(m: seq<Move>, n: int, i: int, c: int)
    requires n < |m| && 1 <= i && c <= n && (c == 2 * i || c == 2 * i + 1) && HeapDown(m, n, i)
    requires Outrated(m, n, i, c)
    ensures forall j :: 2 <= j <= n && j != 2 * c && j != 2 * c + 1 ==> InOrder(Swap(m, i, c), j)
  {
    var s := Swap(m, i, c);
    forall j | 2 <= j <= n && j != 2 * c && j != 2 * c + 1 ensures InOrder(s, j) {
      if j == c {
      } else if j == 2 * i || j == 2 * i + 1 {
        assert s[j] == m[j];
      } else if j == i {
        assert s[i / 2] == m[i / 2];
      } else {
        assert InOrder(m, j);
        assert s[j] == m[j] && s[j / 2] == m[j / 2];
      }
    }
  }

  /** `Dequeue`'s first steps: the last move goes to the root and the old root leaves the heap. */
  lemma DequeueStart(m: seq<Move>, n: int)
    requires 1 <= n && |m| == n + 1 && IsHeap(m, n)
    ensures HeapDown(Swap(m, 1, n)[..n], n - 1, 1)
    ensures multiset(Swap(m, 1, n)[..n][1..]) == multiset(m[1..]) - multiset{m[1]}
  {
    var s := Swap(m, 1, n);
    var t := s[..n];
    forall j | 2 <= j <= n - 1 && j != 2 && j != 3 ensures InOrder(t, j) {
      assert InOrder(m, j);
      assert t[j] == m[j] && t[j / 2] == m[j / 2];
    }
    SwapKeepsContents(m, 1, n);
    assert s[1..] == t[1..] + [m[1]];
  }

  /** The slot `QueueDown` picks at i: the better child when it outrates i, else i itself. */
  function SinkTarget(m: seq<Move>, n: int, i: int): int
    requires n < |m| && 1 <= i
  {
    var l := if 2 * i <= n && m[i].rating < m[2 * i].rating then 2 * i else i;
    if 2 * i + 1 <= n && m[2 * i + 1].rating > m[l].rating then 2 * i + 1 else l
  }

  /** One step of sinking from slot i: either the heap is already ordered, or
      the move trades places with the picked child, which sinks next. */
  lemma SinkStep(m: seq<Move>, n: int, i: int, prev: int)
    requires n < |m| && 1 <= i <= n && HeapDown(m, n, i)
    requires prev == SinkTarget(m, n, i)
    ensures prev == i ==> IsHeap(m, n)
    ensures prev != i ==> i < prev <= n && HeapDown(Swap(m, i, prev), n, prev)
    ensures prev != i ==> multiset(Swap(m, i, prev)[1..]) == multiset(m[1..])
  {
    if prev == i {
      DownStays(m, n, i);
    } else {
      assert Outrated(m, n, i, prev);
      DownSwap(m, n, i, prev);
      SwapKeepsContents(m, i, prev);
    }
  }

  class MoveQueue {
    /** The vector of moves; slot 0 is the sentinel. */
    var moves: seq<Move>
    /** `N`, the number of queued moves. */
    var n: int

    ghost predicate Valid()
      reads this
    {
      0 <= n && |moves| == n + 1 && IsHeap(moves, n)
    }

    /** The queued moves, slots 1 .. N. */
    ghost function Contents(): multiset<Move>
      reads this
      requires Valid()
    {
      multiset(moves[1..])
    }

    /** `MoveQueue(res)`: the vector holds one default `Move` and N is 0
        (the reserved capacity has no effect on the contents). */
    constructor (sentinel: Move)
      ensures Valid() && n == 0 && moves == [sentinel] && Contents() == multiset{}
    {
      moves := [sentinel];
      n := 0;
    }

    /** `GetSize`: the number of queued moves. */
    function GetSize(): (s: int)
      reads this
      requires Valid()
      ensures s == |Contents()| && s == |moves| - 1
    {
      n
    }

    /** `Enqueue`: append the move and let it rise. */
    method Enqueue(m: Move)
      requires Valid()
      modifies this
      ensures Valid() && n == old(n) + 1 && moves[0] == old(moves[0])
      ensures Contents() == old(Contents()) + multiset{m}
    {
      ghost var before := moves;
      moves := moves + [m];
      n := n + 1;
      assert moves[1..] == before[1..] + [m];
      assert HeapUp(moves, n, n) by {
        forall j | 2 <= j <= n && j != n ensures InOrder(moves, j) {
          assert InOrder(before, j);
          assert moves[j] == before[j] && moves[j / 2] == before[j / 2];
        }
      }
      QueueUp(n);
    }

    /** `Dequeue`: the root goes out, the last move takes its place and sinks.
        The source needs a non-empty queue (it swaps slots 1 and N). */
    method Dequeue() returns (val: Move)
      requires Valid() && n >= 1
      modifies this
      ensures Valid() && n == old(n) - 1 && moves[0] == old(moves[0])
      ensures val in old(Contents()) && Contents() == old(Contents()) - multiset{val}
      ensures forall x | x in old(Contents()) :: x.rating <= val.rating
    {
      ghost var before := moves;
      forall x | x in multiset(before[1..]) ensures x.rating <= before[1].rating {
        var j :| 0 <= j < |before[1..]| && before[1..][j] == x;
        HeapTop(before, n, j + 1);
      }
      DequeueStart(moves, n);
      moves := Swap(moves, 1, n);
      val := moves[n];
      moves := moves[..n];
      n := n - 1;
      QueueDown(1);
    }

    /** `QueueUp(i)`: swap the move at slot i with its parent while it rates
        higher, continuing to the root. */
    method QueueUp(i: int)
      requires 0 <= n && |moves| == n + 1 && 1 <= i && HeapUp(moves, n, i)
      modifies this`moves
      ensures |moves| == n + 1 && IsHeap(moves, n) && moves[0] == old(moves[0])
      ensures multiset(moves[1..]) == multiset(old(moves)[1..])
      decreases i
    {
      if i > n || i == 1 {
        UpStays(moves, n, i);
        return;
      }
      var index := GetParent(i);
      if moves[i].rating > moves[index].rating {
        UpSwap(moves, n, i);
        SwapKeepsContents(moves, index, i);
        moves := Swap(moves, index, i);
      } else {
        UpStays(moves, n, i);
        HeapIsHeapUp(moves, n, index);
      }
      QueueUp(index);
    }

    /** `QueueDown(i)`: swap the move at slot i with its better child while
        that child rates higher. */
    method QueueDown(i: int)
      requires 0 <= n && |moves| == n + 1 && 1 <= i && HeapDown(moves, n, i)
      modifies this`moves
      ensures |moves| == n + 1 && IsHeap(moves, n) && moves[0] == old(moves[0])
      ensures multiset(moves[1..]) == multiset(old(moves)[1..])
      decreases n + 1 - i
    {
      if i > n {
        DownStays(moves, n, i);
        return;
      }
      var m := moves;
      var prev := i;
      if GetLeftChild(i) <= n && m[i].rating < m[GetLeftChild(i)].rating {
        prev := GetLeftChild(i);
      }
      if GetRightChild(i) <= n && m[GetRightChild(i)].rating > m[prev].rating {
        prev := GetRightChild(i);
      }
      SinkStep(m, n, i, prev);
      if prev != i {
        moves := Swap(m, i, prev);
        assert moves[0] == m[0];
        QueueDown(prev);
      }
    }
  }
}

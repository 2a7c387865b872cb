/** The intrusive doubly linked list of the timer wheel (crates/monoio/src/utils/linked_list.rs) and the sequence it
    stands for. */
module LinkedList {
  class Node<T> {
    const val: T
    var prev: Node?<T>
    var next: Node?<T>

    constructor (val: T)
      ensures this.val == val && prev == null && next == null
    {
      this.val := val;
      prev, next := null, null;
    }
  }

  /** The node at position `i`, or null outside the sequence. */
  function At<T>(s: seq<Node<T>>, i: int): Node?<T> {
    if 0 <= i < |s| then s[i] else null
  }

  /** The nodes whose value passes, or those whose value does not, in order. */
  function Select<T>(s: seq<Node<T>>, filter: T -> bool, pass: bool): seq<Node<T>> {
    if s == [] then []
    else (if filter(s[0].val) == pass then [s[0]] else []) + Select(s[1..], filter, pass)
  }

  /** Selecting keeps the order, loses nothing and invents nothing: the two halves partition the sequence. */
  lemma {:induction false} SelectPartitions<T>(s: seq<Node<T>>, filter: T -> bool)
    ensures multiset(Select(s, filter, true)) + multiset(Select(s, filter, false)) == multiset(s)
    ensures forall n :: n in Select(s, filter, true) ==> filter(n.val)
    ensures forall n :: n in Select(s, filter, false) ==> !filter(n.val)
  {
    if s != [] {
      SelectPartitions(s[1..], filter);
      assert s == [s[0]] + s[1..];
    }
  }

  function RemoveAt<T>(s: seq<T>, k: nat): seq<T>
    requires k < |s|
  {
    s[..k] + s[k + 1..]
  }

  /** The neighbours of the `i`-th node that is left once the `k`-th has been taken out. */
  lemma Neighbours<T>(s: seq<Node<T>>, k: nat, i: nat)
    requires k < |s| && i < |s| - 1
    ensures At(RemoveAt(s, k), i) == At(s, if i < k then i else i + 1)
    ensures At(RemoveAt(s, k), i - 1) == At(s, if i <= k then i - 1 else i)
    ensures At(RemoveAt(s, k), i + 1) == At(s, if i + 1 < k then i + 1 else i + 2)
  {
  }

  class LinkedList<T> {
    var head: Node?<T>
    var tail: Node?<T>
    ghost var nodes: seq<Node<T>>

    ghost function Repr(): set<Node<T>>
      reads this
    {
      set n | n in nodes
    }

    /** The pointers of the `i`-th node mirror the sequence. */
    ghost predicate Placed(i: nat)
      requires i < |nodes|
      reads this, Repr()
    {
      nodes[i].prev == At(nodes, i - 1) && nodes[i].next == At(nodes, i + 1)
    }

    ghost predicate Valid()
      reads this, Repr()
    {
      && head == At(nodes, 0)
      && tail == At(nodes, |nodes| - 1)
      && (forall i: nat {:trigger Placed(i)} :: i < |nodes| ==> Placed(i))
      && (forall i, j :: 0 <= i < j < |nodes| ==> nodes[i] != nodes[j])
    }

    constructor ()
      ensures Valid() && nodes == []
    {
      head, tail, nodes := null, null, [];
    }

    /** The caller gives up the node, which is in no list. */
    method PushFront(node: Node<T>)
      requires Valid() && node !in nodes
      modifies this, node, Repr()
      ensures Valid() && nodes == [node] + old(nodes)
    {
      assert nodes != [] ==> Placed(0) && Placed(|nodes| - 1);
      assert forall i: nat :: i < |nodes| ==> Placed(i);
      node.next := head;
      node.prev := null;
      if head != null {
        head.prev := node;
      }
      head := node;
      if tail == null {
        tail := node;
      }
      nodes := [node] + nodes;
      forall i: nat | i < |nodes|
        ensures Placed(i)
      {
        assert i > 0 ==> old(Placed(i - 1));
      }
    }

    method PopBack() returns (last: Node?<T>)
      requires Valid()
      modifies this, Repr()
      ensures Valid() && last == old(At(nodes, |nodes| - 1))
      ensures last == null ==> nodes == old(nodes) == []
      ensures last != null ==> nodes == old(nodes)[..|old(nodes)| - 1] && last.prev == null && last.next == null
    {
      if tail == null {
        return null;
      }
      last := tail;
      assert Placed(|nodes| - 1);
      assert |nodes| > 1 ==> Placed(|nodes| - 2);
      tail := last.prev;
      if last.prev != null {
        last.prev.next := null;
      } else {
        head := null;
      }
      last.prev := null;
      last.next := null;
      nodes := nodes[..|nodes| - 1];
      forall i: nat | i < |nodes|
        ensures Placed(i)
      {
        assert old(Placed(i));
      }
    }

    method IsEmpty() returns (empty: bool)
      requires Valid()
      ensures empty <==> nodes == []
    {
      if head != null {
        return false;
      }
      assert tail == null;
      return true;
    }

    /** Takes the node out. A node that is in no list, whose pointers are null then, is refused and nothing changes. */
    method Remove(node: Node<T>) returns (removed: Node?<T>)
      requires Valid() && (node in nodes || (node.prev == null && node.next == null))
      modifies this, node, Repr()
      ensures Valid()
      ensures node !in old(nodes) ==>
                removed == null && unchanged(this) && unchanged(node) && (forall n :: n in nodes ==> unchanged(n))
      ensures node in old(nodes) ==> removed == node && node.prev == null && node.next == null
      ensures forall k: nat :: k < |old(nodes)| && old(nodes)[k] == node ==> nodes == RemoveAt(old(nodes), k)
    {
      ghost var k: nat := 0;
      if node in nodes {
        k :| k < |nodes| && nodes[k] == node;
      }
      removed := Detach(node, k);
    }

    /** The body of remove; the node is at position `k`, unless it is in no list. */
    method Detach(node: Node<T>, ghost k: nat) returns (removed: Node?<T>)
      requires Valid()
      requires (if node in nodes then k < |nodes| && nodes[k] == node else node.prev == null && node.next == null)
      modifies this, node, Repr()
      ensures Valid()
      ensures node !in old(nodes) ==>
                removed == null && unchanged(this) && unchanged(node) && (forall n :: n in nodes ==> unchanged(n))
      ensures node in old(nodes) ==>
                removed == node && node.prev == null && node.next == null && nodes == RemoveAt(old(nodes), k)
    {
      ghost var before := nodes;
      assert node in nodes ==> Placed(k) && (k > 0 ==> Placed(k - 1)) && (k + 1 < |nodes| ==> Placed(k + 1));
      if node.prev != null {
        assert node.prev.next == node;
        node.prev.next := node.next;
      } else {
        if head != node {
          return null;
        }
        head := node.next;
      }
      if node.next != null {
        assert node.next.prev == node;
        node.next.prev := node.prev;
      } else {
        if tail != node {
          assert false;
        }
        tail := node.prev;
      }
      node.next := null;
      node.prev := null;
      nodes := RemoveAt(nodes, k);
      forall i: nat | i < |nodes|
        ensures Placed(i)
      {
        var j := if i < k then i else i + 1;
        assert old(Placed(j)) && nodes[i] == before[j] && before[j] != node;
        Neighbours(before, k, i);
        assert k > 0 && j != k - 1 ==> before[j] != before[k - 1];
        assert k + 1 < |before| && j != k + 1 ==> before[j] != before[k + 1];
      }
      removed := node;
    }
  }

  /** What an iterator at position `pos` has still to yield, and the list it will leave. */
  function Yield<T>(s: seq<Node<T>>, pos: nat, filter: T -> bool): seq<Node<T>>
    requires pos <= |s|
  {
    Select(s[pos..], filter, true)
  }

  function Left<T>(s: seq<Node<T>>, pos: nat, filter: T -> bool): seq<Node<T>>
    requires pos <= |s|
  {
    s[..pos] + Select(s[pos..], filter, false)
  }

  lemma FromStart<T>(s: seq<Node<T>>, filter: T -> bool)
    ensures Yield(s, 0, filter) == Select(s, filter, true) && Left(s, 0, filter) == Select(s, filter, false)
  {
  }

  /** At the end of the list there is nothing left to yield. */
  lemma AtTheEnd<T>(s: seq<Node<T>>, filter: T -> bool)
    ensures Yield(s, |s|, filter) == [] && Left(s, |s|, filter) == s
  {
  }

  lemma PassOver<T>(s: seq<Node<T>>, pos: nat, filter: T -> bool)
    requires pos < |s| && !filter(s[pos].val)
    ensures Yield(s, pos, filter) == Yield(s, pos + 1, filter) && Left(s, pos, filter) == Left(s, pos + 1, filter)
  {
  }

  lemma TakeOut<T>(s: seq<Node<T>>, pos: nat, filter: T -> bool)
    requires pos < |s| && filter(s[pos].val)
    ensures Yield(s, pos, filter) == [s[pos]] + Yield(RemoveAt(s, pos), pos, filter)
    ensures Left(s, pos, filter) == Left(RemoveAt(s, pos), pos, filter)
  {
  }

  /** An iterator that takes the passing nodes out of the list, from head to tail. */
  class DrainFilter<T> {
    const list: LinkedList<T>
    const filter: T -> bool
    var curr: Node?<T>
    ghost var pos: nat  // of curr in the list

    ghost predicate Valid()
      reads this, list, list.Repr()
    {
      list.Valid() && pos <= |list.nodes| && curr == At(list.nodes, pos)
    }

    constructor (list: LinkedList<T>, filter: T -> bool)
      requires list.Valid()
      ensures Valid() && this.list == list && this.filter == filter && pos == 0
    {
      this.list, this.filter := list, filter;
      curr, pos := list.head, 0;
      new;
      forall i: nat | i < |list.nodes|
        ensures list.Placed(i)
      {
        assert old(list.Placed(i));
      }
    }

    /** The next passing node, or null at the end of the list. */
    method Next() returns (item: Node?<T>)
      requires Valid()
      modifies this, list, list.Repr()
      ensures Valid() && Left(list.nodes, pos, filter) == old(Left(list.nodes, pos, filter))
      ensures item == null ==>
                old(Yield(list.nodes, pos, filter)) == [] && pos == |list.nodes| && list.nodes == old(list.nodes)
      ensures item != null ==>
                filter(item.val) && item.prev == null && item.next == null && |list.nodes| < old(|list.nodes|)
                               && old(Yield(list.nodes, pos, filter)) == [item] + Yield(list.nodes, pos, filter)
      ensures list.Repr() <= old(list.Repr())
    {
      ghost var nodes := list.nodes;
      item := null;
      while curr != null
        modifies this
        invariant Valid()
        invariant Yield(nodes, pos, filter) == Yield(nodes, old(pos), filter)
        invariant Left(nodes, pos, filter) == Left(nodes, old(pos), filter)
        decreases |nodes| - pos
      {
        var node := curr;
        assert list.Placed(pos);
        if filter(node.val) {
          item := node;
          break;
        }
        curr := node.next;
        PassOver(nodes, pos, filter);
        pos := pos + 1;
      }
      if item != null {
        curr := item.next;
        TakeOut(nodes, pos, filter);
        item := list.Detach(item, pos);
      }
    }

    /** The iterator run to its end. */
    method Drain() returns (items: seq<Node<T>>)
      requires Valid() && pos == 0
      modifies this, list, list.Repr()
      ensures list.Valid()
      ensures items == Select(old(list.nodes), filter, true) && list.nodes == Select(old(list.nodes), filter, false)
    {
      items := [];
      while true
        invariant Valid() && list.Repr() <= old(list.Repr())
        invariant items + Yield(list.nodes, pos, filter) == old(Yield(list.nodes, 0, filter))
        invariant Left(list.nodes, pos, filter) == old(Left(list.nodes, 0, filter))
        decreases |list.nodes|
      {
        var item := Next();
        if item == null {
          FromStart(old(list.nodes), filter);
          AtTheEnd(list.nodes, filter);
          return;
        }
        items := items + [item];
      }
    }
  }
}

/** Wait lists at pointer level: intrusive nodes in a ring through a root, spliced by hand.
    Priority insertion keeps the ring and is stable sorted insertion on the sequence. */
module WaitNodes {
  import opened Lists

  /** A task's event node, with the priority of the task that contains it. */
  class Node {
    var next: Node?
    var prev: Node?
    const priority: nat

    constructor (priority: nat)
      ensures next == null && prev == null && this.priority == priority
    {
      next, prev := null, null;
      this.priority := priority;
    }
  }

  /** Priorities do not change while a task waits. */
  ghost function Levels(s: seq<Node>): seq<nat> {
    seq(|s|, i requires 0 <= i < |s| => s[i].priority)
  }

  class LinkedList {
    const root: Node
    var count: nat
    ghost var nodes: seq<Node>

    /** The i-th node of the ring; the root stands before the first and after the last. */
    ghost function At(i: int): Node
      reads this
    {
      if 0 <= i < |nodes| then nodes[i] else root
    }

    ghost predicate LinkedAt(i: int)
      reads this, root, nodes
    {
      At(i).next == At(i + 1) && At(i + 1).prev == At(i)
    }

    /** Neighbours point at each other all the way round, and count is the length. */
    ghost predicate Valid()
      reads this, root, nodes
    {
      && root !in nodes && NoDup(nodes) && count == |nodes|
      && (forall i :: -1 <= i < |nodes| ==> LinkedAt(i))
    }

    constructor ()
      ensures Valid() && nodes == [] && fresh(root)
    {
      root := new Node(0);
      count := 0;
      nodes := [];
      new;
      root.next, root.prev := root, root;
    }

    method PeekHead() returns (head: Node?)
      requires Valid()
      ensures head == if nodes == [] then null else nodes[0]
    {
      assert LinkedAt(-1);
      head := if root.next == root then null else root.next;
    }

    /** Splices x in before curr, the node at position i or the root. */
    method LinkBefore(x: Node, curr: Node, ghost i: nat)
      requires Valid() && x != root && x !in nodes
      requires i <= |nodes| && curr == At(i)
      modifies this, root, nodes, x
      ensures Valid() && nodes == InsertAt(old(nodes), i, x)
    {
      assert LinkedAt(i - 1);
      x.next := curr;
      x.prev := curr.prev;
      curr.prev.next := x;
      curr.prev := x;
      count := count + 1;
      nodes := InsertAt(nodes, i, x);
      forall j | -1 <= j < |nodes| ensures LinkedAt(j) {
        assert j < i - 1 ==> old(LinkedAt(j));
        assert j > i ==> old(LinkedAt(j - 1));
      }
    }

    method InsertTail(x: Node)
      requires Valid() && x != root && x !in nodes
      modifies this, root, nodes, x
      ensures Valid() && nodes == old(nodes) + [x]
    {
      LinkBefore(x, root, |nodes|);
    }

    /** Walks past every node of at least x's priority and splices x in there. */
    method InsertByPriority(x: Node)
      requires Valid() && x != root && x !in nodes
      modifies this, root, nodes, x
      ensures Valid()
      ensures nodes == InsertAt(old(nodes), InsertPos(Levels(old(nodes)), x.priority), x)
    {
      ghost var i := 0;
      ghost var levels := Levels(nodes);
      var curr := PeekHead();
      while curr != null
        invariant Valid() && nodes == old(nodes)
        invariant i <= |nodes|
        invariant curr == if i < |nodes| then nodes[i] else null
        invariant forall j :: 0 <= j < i ==> levels[j] >= x.priority
        decreases |nodes| - i
      {
        if x.priority > curr.priority {
          InsertPosIs(levels, x.priority, i);
          LinkBefore(x, curr, i);
          return;
        }
        assert LinkedAt(i);
        curr := curr.next;
        i := i + 1;
        if curr == root {
          curr := null;
        }
      }
      InsertPosIs(levels, x.priority, i);
      InsertTail(x);
    }

    /** Splices x out. */
    method RemoveDirect(x: Node, ghost i: nat)
      requires Valid() && i < |nodes| && nodes[i] == x
      modifies this, root, nodes
      ensures Valid() && nodes == Remove(old(nodes), x)
      ensures |nodes| == |old(nodes)| - 1
    {
      RemoveAt(nodes, i);
      assert LinkedAt(i - 1) && LinkedAt(i);
      x.prev.next := x.next;
      x.next.prev := x.prev;
      count := count - 1;
      nodes := nodes[..i] + nodes[i + 1..];
      forall j | -1 <= j < |nodes| ensures LinkedAt(j) {
        assert j < i - 1 ==> old(LinkedAt(j));
        assert j > i - 1 ==> old(LinkedAt(j + 1));
      }
    }

    /** Unlinks x unless its links say it is not in any list. */
    method WaitListRemove(x: Node)
      requires Valid() && (x.next != null ==> x in nodes)
      modifies this, root, nodes, x
      ensures Valid() && nodes == Remove(old(nodes), x)
      ensures x in old(nodes) ==> x.next == null && x.prev == null
    {
      if x.next == null {
        forall i | 0 <= i < |nodes| ensures nodes[i] != x {
          assert LinkedAt(i);
        }
        RemoveAbsent(nodes, x);
        return;
      }
      ghost var i :| 0 <= i < |nodes| && nodes[i] == x;
      RemoveDirect(x, i);
      x.next, x.prev := null, null;
    }
  }
}

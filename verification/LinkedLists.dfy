/** The singly linked list with head, tail and size that everything else is built on. */
module LinkedLists {
  import opened Sequences

  class Node<T> {
    var data: T
    var next: Node?<T>

    constructor (data: T, next: Node?<T>)
      ensures this.data == data && this.next == next
    {
      this.data, this.next := data, next;
    }
  }

  /** k is the first place in s whose element satisfies p, or |s| if there is none. */
  ghost predicate IsFirst<T>(s: seq<T>, p: T -> bool, k: nat) {
    k <= |s| && (forall i :: 0 <= i < k ==> !p(s[i])) && (k < |s| ==> p(s[k]))
  }

  class LinkedList<T> {
    var head: Node?<T>
    var tail: Node?<T>
    var size: nat
    ghost var spine: seq<Node<T>>
    ghost var contents: seq<T>
    ghost var Repr: set<object>

    /** The nodes are distinct and linked in order, and the last one ends the chain. */
    ghost predicate Linked()
      reads this, Repr
    {
      && this in Repr && (forall n :: n in spine ==> n in Repr)
      && |spine| == |contents|
      && (forall i, j :: 0 <= i < j < |spine| ==> spine[i] != spine[j])
      && (forall i :: 0 <= i < |spine| ==> spine[i].data == contents[i])
      && (forall i :: 0 <= i < |spine| - 1 ==> spine[i].next == spine[i + 1])
      && (if spine == [] then head == null && tail == null
          else head == spine[0] && tail == spine[|spine| - 1] && tail.next == null)
    }

    ghost predicate Valid()
      reads this, Repr
    {
      Linked() && size == |spine|
    }

    constructor ()
      ensures Valid() && contents == [] && Repr == {this}
    {
      head, tail, size := null, null, 0;
      spine, contents, Repr := [], [], {this};
    }

    method IsEmpty() returns (empty: bool)
      requires Valid()
      ensures empty <==> contents == []
    {
      empty := size == 0;
    }

    method AddFirst(data: T)
      requires Valid()
      modifies this
      ensures Valid() && fresh(Repr - old(Repr))
      ensures contents == [data] + old(contents)
    {
      var node: Node<T>;
      if size == 0 {
        node := new Node(data, null);
        head, tail := node, node;
      } else {
        node := new Node(data, head);
        head := node;
      }
      size := size + 1;
      spine, contents, Repr := [node] + spine, [data] + contents, Repr + {node};
    }

    method AddLast(data: T)
      requires Valid()
      modifies Repr
      ensures Valid() && fresh(Repr - old(Repr))
      ensures contents == old(contents) + [data]
    {
      var node := new Node(data, null);
      if size == 0 {
        head, tail := node, node;
      } else {
        tail.next := node;
        tail := node;
      }
      size := size + 1;
      spine, contents, Repr := spine + [node], contents + [data], Repr + {node};
    }

    /** Bypasses the node at k, which has a neighbour on both sides. */
    method Bypass(prev: Node<T>, curr: Node<T>, ghost k: nat)
      requires Linked() && 1 <= k < |spine| - 1 && prev == spine[k - 1] && curr == spine[k]
      modifies prev`next, this`spine, this`contents
      ensures Linked() && spine == Drop(old(spine), k) && contents == Drop(old(contents), k)
      ensures |spine| == old(|spine|) - 1
    {
      prev.next := curr.next;
      spine, contents := Drop(spine, k), Drop(contents, k);
    }

    method CutTail(prev: Node<T>)
      requires Linked() && |spine| >= 2 && prev == spine[|spine| - 2]
      modifies prev`next, this`tail, this`spine, this`contents
      ensures Linked() && spine == old(spine[..|spine| - 1]) && contents == old(contents[..|contents| - 1])
    {
      prev.next := null;
      tail := prev;
      spine, contents := spine[..|spine| - 1], contents[..|contents| - 1];
    }

    method CutHead()
      requires Linked() && |spine| >= 2
      modifies this`head, this`spine, this`contents
      ensures Linked() && spine == old(spine[1..]) && contents == old(contents[1..])
    {
      head := head.next;
      spine, contents := spine[1..], contents[1..];
    }

    /** Puts node between its neighbours prev and curr, at k. */
    method LinkBetween(prev: Node<T>, node: Node<T>, curr: Node<T>, ghost k: nat)
      requires Linked() && 1 <= k < |spine| && prev == spine[k - 1] && curr == spine[k] && node !in spine
      modifies prev`next, node`next, this`spine, this`contents, this`Repr
      ensures Linked() && Repr == old(Repr) + {node} && spine == old(spine[..k] + [node] + spine[k..])
      ensures contents == old(contents[..k] + [node.data] + contents[k..])
    {
      prev.next := node;
      node.next := curr;
      spine, contents := spine[..k] + [node] + spine[k..], contents[..k] + [node.data] + contents[k..];
      Repr := Repr + {node};
    }

    /** Takes out the first node that satisfies p, and no other; null and no change if there is none. */
    method PopNode(p: T -> bool) returns (node: Node?<T>, ghost k: nat)
      requires Valid()
      modifies Repr
      ensures Valid() && Repr == old(Repr)
      ensures IsFirst(old(contents), p, k)
      ensures if k == |old(contents)| then node == null && contents == old(contents) && spine == old(spine)
              else
                && node != null && node == old(spine)[k] && node.data == old(contents)[k]
                && contents == Drop(old(contents), k) && spine == Drop(old(spine), k)
    {
      hide Drop;
      k := 0;
      if size == 0 {
        return null, 0;
      }
      DropEnds(spine);
      DropEnds(contents);
      if size == 1 {
        if !p(head.data) {
          return null, 1;
        }
        node := head;
        head, tail := null, null;
        size := size - 1;
        spine, contents := spine[1..], contents[1..];
        return node, 0;
      }
      if p(head.data) {
        node := head;
        CutHead();
        size := size - 1;
        return node, 0;
      }
      node, k := PopInside(p);
    }

    /** The search beyond the head, and the removal there. */
    method PopInside(p: T -> bool) returns (node: Node?<T>, ghost k: nat)
      requires Valid() && size >= 2 && !p(head.data)
      modifies Repr
      ensures Valid() && Repr == old(Repr)
      ensures 1 <= k && IsFirst(old(contents), p, k)
      ensures if k == |old(contents)| then node == null && contents == old(contents) && spine == old(spine)
              else
                && node == old(spine)[k] && node.data == old(contents)[k]
                && contents == Drop(old(contents), k) && spine == Drop(old(spine), k)
    {
      hide Drop;
      var prev, curr := head, head.next;
      k := 1;
      while curr != tail
        invariant 1 <= k < |spine| && prev == spine[k - 1] && curr == spine[k]
        invariant forall i :: 0 <= i < k ==> !p(contents[i])
        decreases |spine| - k
      {
        if p(curr.data) {
          break;
        }
        prev, curr := curr, curr.next;
        k := k + 1;
      }
      if curr != tail {
        Bypass(prev, curr, k);
        size := size - 1;
        return curr, k;
      }
      if p(tail.data) {
        node := tail;
        DropEnds(spine);
        DropEnds(contents);
        CutTail(prev);
        size := size - 1;
        return node, k;
      }
      return null, k + 1;
    }

    /** The first node that satisfies p. */
    method GetNode(p: T -> bool) returns (node: Node?<T>, ghost k: nat)
      requires Valid()
      ensures IsFirst(contents, p, k)
      ensures if k == |contents| then node == null else node == spine[k]
      ensures if node == null then forall i :: 0 <= i < |contents| ==> !p(contents[i]) else p(node.data)
    {
      node := head;
      k := 0;
      while node != null
        invariant k <= |spine| && node == if k < |spine| then spine[k] else null
        invariant forall i :: 0 <= i < k ==> !p(contents[i])
        decreases |spine| - k
      {
        if p(node.data) {
          return node, k;
        }
        node := node.next;
        k := k + 1;
      }
    }

    method HasNode(p: T -> bool) returns (found: bool)
      requires Valid()
      ensures found <==> exists i :: 0 <= i < |contents| && p(contents[i])
    {
      var node, k := GetNode(p);
      found := node != null;
    }
  }
}

/** A list of (id, priority) pairs kept in order of priority. */
module PriorityQueues {
  import opened LinkedLists
  import opened ReadyQueue

  method PushNode(pq: LinkedList<PQData>, tid: Tid, priority: nat)
    requires pq.Valid()
    modifies pq.Repr
    ensures pq.Valid() && fresh(pq.Repr - old(pq.Repr))
    ensures pq.contents == Push(old(pq.contents), PQData(tid, priority))
  {
    var e := PQData(tid, priority);
    if pq.size == 0 || pq.head.data.priority < priority {
      pq.AddFirst(e);
    } else if pq.tail.data.priority >= priority {
      pq.AddLast(e);
    } else {
      InsertInside(pq, e);
    }
  }

  /** The insertion strictly inside the queue. The loop always finds its place, so the size stays honest. */
  method InsertInside(pq: LinkedList<PQData>, e: PQData)
    requires pq.Valid() && pq.contents != []
    requires pq.contents[|pq.contents| - 1].priority < e.priority <= pq.contents[0].priority
    modifies pq.Repr
    ensures pq.Valid() && fresh(pq.Repr - old(pq.Repr))
    ensures pq.contents == Push(old(pq.contents), e)
  {
    var node := new Node(e, null);
    var prev, curr := pq.head, pq.head.next;
    ghost var k := 1;
    while curr != null
      invariant 1 <= k < |pq.spine| && prev == pq.spine[k - 1] && curr == pq.spine[k]
      invariant Slot(pq.contents, e.priority, 1) == Slot(pq.contents, e.priority, k)
      decreases |pq.spine| - k
    {
      if prev.data.priority == e.priority || curr.data.priority < e.priority {
        break;
      }
      prev, curr := curr, curr.next;
      k := k + 1;
    }
    pq.LinkBetween(prev, node, curr, k);
    pq.size := pq.size + 1;
  }

  method PopNode(pq: LinkedList<PQData>)
    requires pq.Valid()
    modifies pq
    ensures pq.Valid() && pq.Repr == old(pq.Repr)
    ensures pq.contents == if old(pq.contents) == [] then [] else old(pq.contents)[1..]
  {
    if pq.size == 0 {
      return;
    }
    pq.head := pq.head.next;
    pq.size := pq.size - 1;
    if pq.size == 0 {
      pq.tail := null;
    }
    pq.spine, pq.contents := pq.spine[1..], pq.contents[1..];
  }

  method Peek(pq: LinkedList<PQData>) returns (found: bool, e: PQData)
    requires pq.Valid()
    ensures found <==> pq.contents != []
    ensures found ==> e == pq.contents[0]
  {
    if pq.size == 0 {
      return false, PQData(0, 0);
    }
    return true, pq.head.data;
  }
}

/** GeneralDataStructures/Queue: a queue linked from head to tail, as a sequence. */
module Queues {
  import opened Basics

  class QueueNode<T> {
    const item: T
    var behind: QueueNode?<T>

    constructor (item: T)
      ensures this.item == item && behind == null
    {
      this.item := item;
      behind := null;
    }
  }

  lemma Shift<T>(done: seq<T>, rest: seq<T>)
    requires rest != []
    ensures (done + [rest[0]]) + rest[1..] == done + rest
  {
  }

  class Queue<T> {
    var head: QueueNode?<T>
    var tail: QueueNode?<T>

    /** The nodes from head to tail */
    ghost var spine: seq<QueueNode<T>>

    ghost predicate Valid()
      reads this, spine
    {
      && NoDup(spine)
      && (if spine == [] then head == null && tail == null
          else head == spine[0] && tail == spine[|spine| - 1] && spine[|spine| - 1].behind == null)
      && (forall i :: 0 <= i < |spine| - 1 ==> spine[i].behind == spine[i + 1])
    }

    ghost function Contents(): (s: seq<T>)
      reads this
      ensures |s| == |spine| && forall i :: 0 <= i < |s| ==> s[i] == spine[i].item
    {
      var nodes := spine;
      seq(|nodes|, i requires 0 <= i < |nodes| => nodes[i].item)
    }

    /** make_q */
    constructor ()
      ensures Valid() && Contents() == []
    {
      head, tail, spine := null, null, [];
    }

    /** enq_q */
    method Enqueue(x: T)
      requires Valid()
      modifies this, spine
      ensures Valid() && Contents() == old(Contents()) + [x]
      ensures forall n :: n in spine ==> n in old(spine) || fresh(n)
    {
      var node := new QueueNode(x);
      if head == null {
        head := node;
      } else {
        tail.behind := node;
      }
      tail := node;
      spine := spine + [node];
    }

    /** deq_q, which answers NULL when the queue is empty */
    method Dequeue() returns (r: Option<T>)
      requires Valid()
      modifies this
      ensures Valid()
      ensures if old(Contents()) == [] then r == None && Contents() == []
        else r == Some(old(Contents())[0]) && Contents() == old(Contents())[1..]
      ensures forall n :: n in spine ==> n in old(spine)
    {
      if head == null { return None; }
      r := Some(head.item);
      head := head.behind;
      if head == null { tail := null; }
      spine := spine[1..];
    }

    /** peek_q */
    method Peek() returns (r: Option<T>)
      requires Valid()
      ensures r == if Contents() == [] then None else Some(Contents()[0])
    {
      if head == null { return None; }
      return Some(head.item);
    }

    /** delete_q: takes every item out, first in, first out. */
    method Drain() returns (items: seq<T>)
      requires Valid()
      modifies this
      ensures Valid() && Contents() == [] && items == old(Contents())
    {
      items := [];
      while head != null
        invariant Valid() && items + Contents() == old(Contents())
        decreases |spine|
      {
        assert Contents() != [];
        Shift(items, Contents());
        var item := Dequeue();
        items := items + [item.value];
      }
    }
  }
}

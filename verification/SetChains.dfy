/**
 GeneralDataStructures/HashMap/set.c: keys and items in a linked chain, as a sequence of
 entries with different keys, and what that sequence means as a map.
 */
module SetChains {
  import opened Basics

  datatype Entry<+T> = Entry(key: int, item: T)

  class SetNode<T> {
    const key: int
    var item: T
    var next: SetNode?<T>

    constructor (key: int, item: T, next: SetNode?<T>)
      ensures this.key == key && this.item == item && this.next == next
    {
      this.key, this.item, this.next := key, item, next;
    }
  }

  // ------------------------------------------------------------ the specification

  predicate HasKey<T>(s: seq<Entry<T>>, k: int) {
    exists i :: 0 <= i < |s| && s[i].key == k
  }

  ghost predicate DistinctKeys<T>(s: seq<Entry<T>>) {
    forall i, j :: 0 <= i < j < |s| ==> s[i].key != s[j].key
  }

  lemma DroppedDistinct<T>(s: seq<Entry<T>>, i: int)
    requires DistinctKeys(s) && 0 <= i < |s|
    ensures DistinctKeys(s[..i] + s[i + 1..])
  {
  }

  lemma PrependedDistinct<T>(s: seq<Entry<T>>, e: Entry<T>)
    requires DistinctKeys(s) && !HasKey(s, e.key)
    ensures DistinctKeys([e] + s)
  {
    forall j | 0 <= j < |s| ensures s[j].key != e.key {
    }
  }

  lemma ChangedDistinct<T>(s: seq<Entry<T>>, i: int, item: T)
    requires DistinctKeys(s) && 0 <= i < |s|
    ensures DistinctKeys(s[i := Entry(s[i].key, item)])
  {
  }

  function Lookup<T>(s: seq<Entry<T>>, k: int): Option<T> {
    if s == [] then None else if s[0].key == k then Some(s[0].item) else Lookup(s[1..], k)
  }

  function Without<T>(s: seq<Entry<T>>, k: int): seq<Entry<T>> {
    if s == [] then [] else if s[0].key == k then s[1..] else [s[0]] + Without(s[1..], k)
  }

  /** What is left when `f` has seen every entry: it gives the new item, or `None` to have the entry removed. */
  function Visited<T>(f: (int, T) -> Option<T>, s: seq<Entry<T>>): seq<Entry<T>> {
    if s == [] then []
    else
      var last := s[|s| - 1];
      var front := Visited(f, s[..|s| - 1]);
      match f(last.key, last.item)
      case Some(item) => front + [Entry(last.key, item)]
      case None => front
  }

  /** The keys of the entries that `f` has removed, in the order in which it sees them */
  function Gone<T>(f: (int, T) -> Option<T>, s: seq<Entry<T>>): seq<int> {
    if s == [] then []
    else
      var last := s[|s| - 1];
      Gone(f, s[..|s| - 1]) + if f(last.key, last.item).None? then [last.key] else []
  }

  function AsMap<T>(s: seq<Entry<T>>): map<int, T> {
    if s == [] then map[] else AsMap(s[1..])[s[0].key := s[0].item]
  }

  lemma {:induction false} LookupIsMap<T>(s: seq<Entry<T>>, k: int)
    ensures Lookup(s, k) == if k in AsMap(s) then Some(AsMap(s)[k]) else None
    ensures HasKey(s, k) <==> k in AsMap(s)
  {
    if s != [] {
      LookupIsMap(s[1..], k);
      if HasKey(s, k) {
        var i :| 0 <= i < |s| && s[i].key == k;
        assert i > 0 ==> s[1..][i - 1].key == k;
      }
      if HasKey(s[1..], k) {
        var i :| 0 <= i < |s[1..]| && s[1..][i].key == k;
        assert s[i + 1].key == k;
      }
      if s[0].key == k { assert HasKey(s, k); }
    }
  }

  lemma {:induction false} WithoutIsMap<T>(s: seq<Entry<T>>, k: int)
    requires DistinctKeys(s)
    ensures AsMap(Without(s, k)) == AsMap(s) - {k}
  {
    if s != [] {
      if s[0].key == k {
        LookupIsMap(s[1..], k);
        assert !HasKey(s[1..], k);
      } else {
        WithoutIsMap(s[1..], k);
        assert Without(s, k)[1..] == Without(s[1..], k);
      }
    }
  }

  lemma {:induction false} AppendIsMap<T>(s: seq<Entry<T>>, e: Entry<T>)
    requires !HasKey(s, e.key)
    ensures AsMap(s + [e]) == AsMap(s)[e.key := e.item]
  {
    if s == [] {
      assert s + [e] == [e];
    } else {
      assert (s + [e])[1..] == s[1..] + [e];
      assert s[0].key != e.key;
      assert !HasKey(s[1..], e.key) by {
        forall i | 0 <= i < |s[1..]| ensures s[1..][i].key != e.key { assert s[i + 1].key != e.key; }
      }
      AppendIsMap(s[1..], e);
    }
  }

  lemma {:induction false} VisitedKeys<T>(f: (int, T) -> Option<T>, s: seq<Entry<T>>, k: int)
    requires HasKey(Visited(f, s), k)
    ensures HasKey(s, k)
  {
    var n := |s| - 1;
    if s[n].key != k {
      var i :| 0 <= i < |Visited(f, s)| && Visited(f, s)[i].key == k;
      assert Visited(f, s[..n])[i].key == k;
      VisitedKeys(f, s[..n], k);
      var j :| 0 <= j < n && s[..n][j].key == k;
      assert s[j].key == k;
    }
  }

  /** Visiting changes each entry of the map exactly once, whatever `f` removes on the way. */
  lemma {:induction false} VisitedIsMap<T>(f: (int, T) -> Option<T>, s: seq<Entry<T>>)
    requires DistinctKeys(s)
    ensures DistinctKeys(Visited(f, s))
    ensures AsMap(Visited(f, s)) ==
      map k | k in AsMap(s) && f(k, AsMap(s)[k]).Some? :: f(k, AsMap(s)[k]).value
  {
    if s != [] {
      var n := |s| - 1;
      var front, last := s[..n], s[n];
      VisitedIsMap(f, front);
      assert !HasKey(front, last.key);
      if HasKey(Visited(f, front), last.key) { VisitedKeys(f, front, last.key); }
      assert s == front + [last];
      AppendIsMap(front, last);
      if f(last.key, last.item).Some? {
        AppendIsMap(Visited(f, front), Entry(last.key, f(last.key, last.item).value));
      }
      LookupIsMap(front, last.key);
    }
  }

  lemma {:induction false} WithoutAt<T>(s: seq<Entry<T>>, i: nat)
    requires i < |s| && DistinctKeys(s)
    ensures Without(s, s[i].key) == s[..i] + s[i + 1..] && Lookup(s, s[i].key) == Some(s[i].item)
  {
    if i > 0 {
      assert s[1..][i - 1] == s[i];
      WithoutAt(s[1..], i - 1);
      assert s[..i] == [s[0]] + s[1..][..i - 1];
      assert s[1..][i..] == s[i + 1..];
    }
  }

  lemma {:induction false} WithoutMissing<T>(s: seq<Entry<T>>, k: int)
    requires !HasKey(s, k)
    ensures Without(s, k) == s && Lookup(s, k) == None
  {
    if s != [] {
      forall i | 0 <= i < |s[1..]| ensures s[1..][i].key != k { assert s[i + 1].key != k; }
      WithoutMissing(s[1..], k);
      assert s[0].key != k;
    }
  }

  /** The chain in the middle of an iteration: `i` of the old entries have been visited. */
  ghost predicate Midway<T>(f: (int, T) -> Option<T>, before: seq<Entry<T>>, i: int, now: seq<Entry<T>>) {
    0 <= i <= |before| && now == Visited(f, before[..i]) + before[i..]
  }

  lemma VisitedOne<T>(f: (int, T) -> Option<T>, before: seq<Entry<T>>, i: int, now: seq<Entry<T>>)
    requires Midway(f, before, i, now) && i < |before|
    ensures var at := |Visited(f, before[..i])|; var e := before[i];
      && at < |now| && now[at] == e
      && Gone(f, before[..i + 1]) == Gone(f, before[..i]) + (if f(e.key, e.item).None? then [e.key] else [])
      && match f(e.key, e.item)
         case Some(item) =>
           && Midway(f, before, i + 1, now[at := Entry(e.key, item)])
           && |Visited(f, before[..i + 1])| == at + 1
         case None =>
           && Midway(f, before, i + 1, now[..at] + now[at + 1..])
           && |Visited(f, before[..i + 1])| == at
  {
    assert before[..i + 1][..i] == before[..i] && before[..i + 1][i] == before[i];
    assert before[i..] == [before[i]] + before[i + 1..];
  }

  // ------------------------------------------------------------------ the chain

  class SetChain<T(==)> {
    var head: SetNode?<T>

    /** The nodes from the head on */
    ghost var spine: seq<SetNode<T>>

    /** Every node that has been in the chain */
    ghost var nodes: set<SetNode<T>>

    ghost predicate Valid()
      reads this, nodes
    {
      && InNodes() && DistinctKeys(Contents())
      && head == (if spine == [] then null else spine[0])
      && (spine != [] ==> spine[|spine| - 1].next == null)
      && (forall i {:trigger spine[i].next} :: 0 <= i < |spine| - 1 ==> spine[i].next == spine[i + 1])
    }

    ghost predicate InNodes()
      reads this
    {
      forall i :: 0 <= i < |spine| ==> spine[i] in nodes
    }

    ghost function Contents(): (s: seq<Entry<T>>)
      reads this, nodes
      requires InNodes()
      ensures |s| == |spine| && forall i {:trigger s[i]} :: 0 <= i < |s| ==> s[i] == Entry(spine[i].key, spine[i].item)
    {
      var chain := spine;
      seq(|chain|, i requires 0 <= i < |chain| reads chain => Entry(chain[i].key, chain[i].item))
    }

    /** set_new */
    constructor ()
      ensures Valid() && Contents() == [] && nodes == {}
    {
      head, spine, nodes := null, [], {};
    }

    /** The node with key `k`, found along the chain */
    method FindNode(k: int) returns (node: SetNode?<T>, ghost i: nat)
      requires Valid()
      ensures if i < |spine| then node == spine[i] && node.key == k else node == null && !HasKey(Contents(), k)
    {
      node, i := head, 0;
      while node != null && node.key != k
        invariant 0 <= i <= |spine| && node == if i < |spine| then spine[i] else null
        invariant forall j :: 0 <= j < i ==> spine[j].key != k
        decreases |spine| - i
      {
        assert i < |spine| - 1 ==> spine[i].next == spine[i + 1];
        node := node.next;
        i := i + 1;
      }
    }

    /** set_find */
    method Find(k: int) returns (r: Option<T>)
      requires Valid()
      ensures r == Lookup(Contents(), k)
    {
      var node;
      ghost var i;
      node, i := FindNode(k);
      if node == null {
        WithoutMissing(Contents(), k);
        return None;
      }
      WithoutAt(Contents(), i);
      return Some(node.item);
    }

    /** set_insert */
    method Insert(k: int, item: T) returns (status: int)
      requires Valid()
      modifies this
      ensures Valid() && status == if HasKey(old(Contents()), k) then ERROR else SUCCESS
      ensures Contents() == if status == SUCCESS then [Entry(k, item)] + old(Contents()) else old(Contents())
      ensures old(nodes) <= nodes && fresh(nodes - old(nodes))
    {
      var node;
      ghost var i;
      node, i := FindNode(k);
      if node != null {
        assert Contents()[i].key == k;
        return ERROR;
      }
      ghost var s := Contents();
      PrependedDistinct(s, Entry(k, item));
      head := new SetNode(k, item, head);
      spine, nodes := [head] + spine, nodes + {head};
      assert Contents() == [Entry(k, item)] + s;
      return SUCCESS;
    }

    /** Take the first node out of the chain. */
    method UnlinkHead()
      requires Valid() && head != null
      modifies this`head, this`spine
      ensures nodes == old(nodes) && Valid() && spine == old(spine)[1..] && Contents() == old(Contents())[1..]
    {
      ghost var s := Contents();
      DroppedDistinct(s, 0);
      assert |spine| > 1 ==> spine[0].next == spine[1];
      head := head.next;
      spine := spine[1..];
      assert Contents() == s[..0] + s[1..];
    }

    /** Take the node behind `curr` out of the chain. */
    method UnlinkAfter(curr: SetNode<T>, ghost i: nat)
      requires Valid() && i < |spine| - 1 && curr == spine[i]
      modifies this`spine, curr`next
      ensures nodes == old(nodes) && Valid() && spine == old(spine)[..i + 1] + old(spine)[i + 2..]
      ensures Contents() == old(Contents())[..i + 1] + old(Contents())[i + 2..]
    {
      ghost var s, c := Contents(), spine;
      DroppedDistinct(s, i + 1);
      NodesDiffer(i);
      assert curr.next == c[i + 1] && (i + 1 < |c| - 1 ==> c[i + 1].next == c[i + 2]);
      curr.next := curr.next.next;
      spine := c[..i + 1] + c[i + 2..];
      assert Contents() == s[..i + 1] + s[i + 2..];
      forall j | 0 <= j < |spine| - 1 ensures spine[j].next == spine[j + 1] {
        var m := if j <= i then j else j + 1;
        assert spine[j] == c[m] && (m != i ==> c[m].next == old(c[m].next) == c[m + 1]);
      }
    }

    /** No node is twice in the chain. */
    lemma NodesDiffer(i: nat)
      requires Valid() && i < |spine|
      ensures forall j | 0 <= j < |spine| && j != i :: spine[j] != spine[i]
    {
      assert Contents()[i].key == spine[i].key;
      forall j | 0 <= j < |spine| && j != i ensures spine[j] != spine[i] {
        assert Contents()[j].key != Contents()[i].key;
      }
    }

    /** set_remove */
    method Remove(k: int) returns (r: Option<T>, ghost at: nat)
      requires Valid()
      modifies this`head, this`spine, nodes`next
      ensures nodes == old(nodes) && Valid() && Contents() == Without(old(Contents()), k)
        && r == Lookup(old(Contents()), k)
      ensures if at < |old(spine)| then
          old(spine)[at].key == k && spine == old(spine)[..at] + old(spine)[at + 1..]
        else spine == old(spine) && !HasKey(old(Contents()), k)
    {
      ghost var s := Contents();
      var curr := head;
      if curr == null { return None, 0; }
      if curr.key == k {
        WithoutAt(s, 0);
        r, at := Some(curr.item), 0;
        UnlinkHead();
        return;
      }
      ghost var i := 0;
      var next := curr.next;
      assert |spine| > 1 ==> spine[0].next == spine[1];
      while next != null && next.key != k
        invariant 0 <= i < |spine| && curr == spine[i] && next == (if i + 1 < |spine| then spine[i + 1] else null)
        invariant forall j :: 0 <= j <= i ==> s[j].key != k
        decreases |spine| - i
      {
        assert i + 1 < |spine| - 1 ==> spine[i + 1].next == spine[i + 2];
        curr, next := next, next.next;
        i := i + 1;
      }
      if next == null {
        WithoutMissing(s, k);
        return None, |spine|;
      }
      WithoutAt(s, i + 1);
      r, at := Some(next.item), i + 1;
      UnlinkAfter(curr, i);
    }

    /** One call of `itemfunc`: it may change the item of the node or remove the node with set_remove. */
    method Visit(f: (int, T) -> Option<T>, node: SetNode<T>, ghost at: nat)
      requires Valid() && at < |spine| && spine[at] == node
      modifies this`head, this`spine, nodes
      ensures nodes == old(nodes) && Valid()
      ensures match f(node.key, old(node.item))
        case Some(item) => spine == old(spine) && Contents() == old(Contents())[at := Entry(node.key, item)]
        case None =>
          && spine == old(spine)[..at] + old(spine)[at + 1..]
          && Contents() == old(Contents())[..at] + old(Contents())[at + 1..]
    {
      match f(node.key, node.item)
      case Some(item) =>
        ghost var s := Contents();
        ChangedDistinct(s, at, item);
        node.item := item;
        assert Contents() == s[at := Entry(node.key, item)];
      case None =>
        ghost var s := Contents();
        WithoutAt(s, at);
        var gone;
        ghost var i;
        gone, i := Remove(node.key);
        assert s[at].key == node.key;
        assert i < |s| ==> s[i].key == s[at].key;
    }

    /** What the loop of set_iterate knows: `i` entries visited, the others, from node `at` on, untouched */
    ghost predicate Iterating(f: (int, T) -> Option<T>, before: seq<Entry<T>>, i: nat, at: nat, gone: seq<int>)
      reads this, nodes
    {
      Valid() && Midway(f, before, i, Contents()) && at == |Visited(f, before[..i])| && gone == Gone(f, before[..i])
    }

    /** One round of set_iterate: the next node is read before the current one is visited. */
    method VisitOne(f: (int, T) -> Option<T>, node: SetNode<T>, gone: seq<int>, ghost before: seq<Entry<T>>,
                    ghost i: nat, ghost at: nat)
      returns (next: SetNode?<T>, gone': seq<int>, ghost at': nat)
      requires Iterating(f, before, i, at, gone) && at < |spine| && node == spine[at]
      modifies this`head, this`spine, nodes
      ensures nodes == old(nodes) && i < |before| && Iterating(f, before, i + 1, at', gone')
      ensures at' <= |spine| && next == (if at' < |spine| then spine[at'] else null)
    {
      VisitedOne(f, before, i, Contents());
      assert at < |spine| - 1 ==> spine[at].next == spine[at + 1];
      next := node.next;
      at' := if f(node.key, node.item).Some? then at + 1 else at;
      gone' := if f(node.key, node.item).Some? then gone else gone + [node.key];
      Visit(f, node, at);
    }

    lemma Started(f: (int, T) -> Option<T>)
      requires Valid()
      ensures Iterating(f, Contents(), 0, 0, [])
    {
    }

    lemma Finished(f: (int, T) -> Option<T>, before: seq<Entry<T>>, i: nat, at: nat, gone: seq<int>)
      requires Iterating(f, before, i, at, gone) && at >= |spine|
      ensures Valid() && Contents() == Visited(f, before) && gone == Gone(f, before)
    {
      assert before[..i] == before;
    }

    /** set_iterate; `gone` are the keys for which `f` has called set_remove, in that order. */
    method Iterate(f: (int, T) -> Option<T>) returns (gone: seq<int>)
      requires Valid()
      modifies this`head, this`spine, nodes
      ensures nodes == old(nodes) && Valid() && Contents() == Visited(f, old(Contents()))
      ensures gone == Gone(f, old(Contents()))
    {
      ghost var before := Contents();
      ghost var i: nat, at: nat := 0, 0;
      var node := head;
      gone := [];
      Started(f);
      while node != null
        invariant nodes == old(nodes) && i <= |before|
        invariant Iterating(f, before, i, at, gone) && node == if at < |spine| then spine[at] else null
        decreases |before| - i
      {
        node, gone, at := VisitOne(f, node, gone, before, i, at);
        i := i + 1;
      }
      Finished(f, before, i, at, gone);
    }
  }
}

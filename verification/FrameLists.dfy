/** KernelDataStructures/FrameList: the array that says which physical frames are free. */
module FrameLists {
  import opened Basics

  datatype Frame = Frame(pfn: int, isFree: bool)

  function Interval(a: int, n: nat): (s: set<int>)
    ensures forall f :: f in s <==> a <= f < a + n
    ensures |s| == n
  {
    if n == 0 then {} else Interval(a, n - 1) + {a + n - 1}
  }

  /** How many entries are free */
  ghost function FreeEntries(s: seq<Frame>): nat {
    if s == [] then 0 else FreeEntries(s[..|s| - 1]) + if s[|s| - 1].isFree then 1 else 0
  }

  lemma {:induction false} OneEntryLess(s: seq<Frame>, i: int)
    requires 0 <= i < |s|
    ensures FreeEntries(s) == FreeEntries(s[i := s[i].(isFree := !s[i].isFree)]) + if s[i].isFree then 1 else -1
  {
    var n := |s| - 1;
    var t := s[i := s[i].(isFree := !s[i].isFree)];
    if i < n {
      OneEntryLess(s[..n], i);
      assert t[..n] == s[..n][i := s[i].(isFree := !s[i].isFree)];
    } else {
      assert t[..n] == s[..n];
    }
  }

  lemma {:induction false} NoneFree(s: seq<Frame>)
    ensures FreeEntries(s) == 0 <==> forall i :: 0 <= i < |s| ==> !s[i].isFree
  {
    if s != [] {
      var n := |s| - 1;
      NoneFree(s[..n]);
      assert forall i :: 0 <= i < n ==> s[..n][i] == s[i];
      assert (forall i :: 0 <= i < |s| ==> !s[i].isFree) ==> !s[n].isFree && forall i :: 0 <= i < n ==>
        !s[..n][i].isFree;
    }
  }

  class FrameList {
    const list: array<Frame>
    const base: int

    /** The frames of the machine, and those of them that are free */
    ghost const all: set<int>
    ghost var free: set<int>

    /** How many are free */
    ghost var count: nat

    ghost predicate Valid()
      reads this, list
    {
      && free <= all && count == FreeEntries(list[..])
      && (forall f :: f in all <==> base <= f < base + list.Length)
      && (forall i :: 0 <= i < list.Length ==> list[i] == Frame(base + i, base + i in free))
    }

    /** initFrameList, `base` being the first frame's number and `used` the frames in use */
    constructor (base: int, numFrames: nat, used: set<int>)
      ensures Valid() && fresh(list)
      ensures all == Interval(base, numFrames) && free == all - used
    {
      this.base := base;
      list := new Frame[numFrames];
      all := Interval(base, numFrames);
      free := Interval(base, numFrames) - used;
      new;
      var i := 0;
      while i < numFrames
        modifies list
        invariant 0 <= i <= numFrames
        invariant forall k :: 0 <= k < i ==> list[k] == Frame(base + k, base + k !in used)
      {
        list[i] := Frame(base + i, base + i !in used);
        i := i + 1;
      }
      count := FreeEntries(list[..]);
    }

    /** getFrame, testing the bound before it looks at an entry; it finds the lowest free frame. */
    method GetFrame() returns (status: int, pfn: int)
      requires Valid()
      modifies this`free, this`count, list
      ensures Valid()
      ensures status == if old(count) == 0 then ERROR else SUCCESS
      ensures old(count) == 0 <==> old(free) == {}
      ensures status == SUCCESS ==>
        pfn in old(free) && free == old(free) - {pfn} && count == old(count) - 1 && forall f :: f in old(free) ==>
          pfn <= f
      ensures status == ERROR ==> free == {} && count == 0
    {
      var i := 0;
      while i < list.Length && !list[i].isFree
        invariant 0 <= i <= list.Length
        invariant forall k :: 0 <= k < i ==> !list[k].isFree
      {
        i := i + 1;
      }
      NoneFree(list[..]);
      assert forall f :: f in free ==> list[f - base].isFree;
      if i >= list.Length { return ERROR, 0; }
      assert base + i in free;
      OneEntryLess(list[..], i);
      free, count := free - {base + i}, count - 1;
      ghost var was := list[..];
      list[i] := list[i].(isFree := false);
      assert list[..] == was[i := was[i].(isFree := false)];
      return SUCCESS, list[i].pfn;
    }

    /** freeFrame; a number that is no frame's changes nothing */
    method FreeFrame(pfn: int)
      requires Valid()
      modifies this`free, this`count, list
      ensures Valid()
      ensures free == old(free) + (if pfn in all then {pfn} else {})
      ensures count == old(count) + (if pfn in all && pfn !in old(free) then 1 else 0)
    {
      var i := 0;
      while i < list.Length
        invariant 0 <= i <= list.Length
        invariant Valid() && free == old(free) && count == old(count) && list[..] == old(list[..])
        invariant forall k :: 0 <= k < i ==> list[k].pfn != pfn
      {
        if list[i].pfn == pfn {
          ghost var was := list[..];
          OneEntryLess(was, i);
          list[i] := list[i].(isFree := true);
          if !was[i].isFree {
            assert list[..] == was[i := was[i].(isFree := true)];
            count := count + 1;
          } else {
            assert list[..] == was;
          }
          free := free + {pfn};
          return;
        }
        i := i + 1;
      }
      assert forall f :: f in all ==> list[f - base].pfn == f;
    }

    lemma CountIsZero()
      requires Valid()
      ensures count == 0 <==> free == {}
    {
      NoneFree(list[..]);
      assert forall f :: f in free ==> list[f - base].isFree;
      if count != 0 {
        var i :| 0 <= i < list.Length && list[..][i].isFree;
        assert base + i in free;
      }
    }

    /** `count` is the number of free frames. */
    lemma CountIsSize()
      requires Valid()
      ensures count == |free|
    {
      CountTo(list.Length);
      assert list[..list.Length] == list[..];
      assert FreeBelow(list.Length) == free;
    }

    ghost function FreeBelow(n: int): set<int>
      reads this
    {
      set f | f in free && f < base + n
    }

    lemma {:induction false} CountTo(n: nat)
      requires Valid() && n <= list.Length
      ensures |FreeBelow(n)| == FreeEntries(list[..n])
    {
      if n == 0 {
        assert FreeBelow(0) == {};
      } else {
        CountTo(n - 1);
        assert list[..n][..n - 1] == list[..n - 1];
        assert FreeBelow(n) == FreeBelow(n - 1) + if list[n - 1].isFree then {base + n - 1} else {};
      }
    }
  }
}

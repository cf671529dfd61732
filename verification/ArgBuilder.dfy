/** LoadProgram's loops that save the arguments and build the argument stack. */
module ArgBuilder {
  import opened Basics
  import opened Hardware
  import opened ArgStack

  /** `s` with `b` written over it from `i` on */
  function Splice(s: Bytes, i: int, b: Bytes): (r: Bytes)
    requires 0 <= i && i + |b| <= |s|
    ensures |r| == |s|
  {
    s[..i] + b + s[i + |b|..]
  }

  lemma SpliceElsewhere(s: Bytes, i: int, b: Bytes, lo: int, hi: int)
    requires 0 <= i && i + |b| <= |s| && 0 <= lo <= hi <= |s| && (hi <= i || i + |b| <= lo)
    ensures Splice(s, i, b)[lo..hi] == s[lo..hi]
  {
  }

  lemma SpliceThere(s: Bytes, i: int, b: Bytes)
    requires 0 <= i && i + |b| <= |s|
    ensures Splice(s, i, b)[i..i + |b|] == b
  {
  }

  /** `i` arguments are in place: their pointers at `at`, their bytes at `strings`, which is address `cp`. */
  ghost predicate Building(image: Bytes, at: int, strings: int, cp: int, args: seq<Bytes>, i: nat) {
    && i <= |args| && 0 <= at && at + (|args| + 3) * WORD <= strings && strings + Size(args) == |image|
    && image[at..at + WORD] == WordBytes(|args|)
    && (forall k :: 0 <= k < i ==> PointerWritten(image, at, k, cp + Offset(args, k)))
    && Size(args[..i]) <= Size(args)
    && image[strings..strings + Offset(args, i)] == Flat(args[..i])
  }

  lemma FlatGrows(args: seq<Bytes>, i: nat)
    requires i < |args|
    ensures Flat(args[..i + 1]) == Flat(args[..i]) + args[i] + [0]
    ensures Offset(args, i + 1) == Offset(args, i) + |args[i]| + 1 <= Size(args)
  {
    assert args[..i + 1][..i] == args[..i];
    FlatAt(args, i);
  }

  /** One more pointer makes `one` of the image, one more string `two`. */
  lemma BuildingBy(image: Bytes, one: Bytes, two: Bytes, at: int, strings: int, cp: int,
                   args: seq<Bytes>, i: nat)
    requires Building(image, at, strings, cp, args, i) && i < |args|
    requires one == Splice(image, at + (i + 1) * WORD, WordBytes(cp + Offset(args, i)))
    requires strings + Offset(args, i) + |args[i] + [0]| <= |image|
    requires two == Splice(one, strings + Offset(args, i), args[i] + [0])
    ensures Building(two, at, strings, cp, args, i + 1)
  {
    FlatGrows(args, i);
    var p, w, a := at + (i + 1) * WORD, WordBytes(cp + Offset(args, i)), args[i] + [0];
    Untouched(image, p, w, strings + Offset(args, i), a, at, at + WORD);
    forall k | 0 <= k < i + 1 ensures PointerWritten(two, at, k, cp + Offset(args, k)) {
      PointersStay(image, at, strings, cp, args, i, k, a);
    }
    StringsGrow(image, two, p, w, strings, strings + Offset(args, i), a, Flat(args[..i]));
    assert Flat(args[..i + 1]) == Flat(args[..i]) + a;
  }

  /** A string written at `off`, behind those from `lo` on */
  lemma StringsGrow(image: Bytes, two: Bytes, p: int, w: Bytes, lo: int, off: int, a: Bytes, before: Bytes)
    requires 0 <= p && p + |w| <= lo <= off && off + |a| <= |image|
    requires two == Splice(Splice(image, p, w), off, a) && image[lo..off] == before
    ensures two[lo..off + |a|] == before + a
  {
    Untouched(image, p, w, off, a, lo, off);
    SpliceThere(Splice(image, p, w), off, a);
    assert two[lo..off + |a|] == two[lo..off] + two[off..off + |a|];
  }

  lemma PointersStay(image: Bytes, at: int, strings: int, cp: int, args: seq<Bytes>, i: nat, k: nat, a: Bytes)
    requires Building(image, at, strings, cp, args, i) && k <= i < |args|
    requires strings + Offset(args, i) + |a| <= |image|
    ensures var one := Splice(image, at + (i + 1) * WORD, WordBytes(cp + Offset(args, i)));
      PointerWritten(Splice(one, strings + Offset(args, i), a), at, k, cp + Offset(args, k))
  {
    var p, w := at + (i + 1) * WORD, WordBytes(cp + Offset(args, i));
    var lo, hi := at + (k + 1) * WORD, at + (k + 2) * WORD;
    SpliceElsewhere(Splice(image, p, w), strings + Offset(args, i), a, lo, hi);
    if k < i {
      assert PointerWritten(image, at, k, cp + Offset(args, k));
      SpliceElsewhere(image, p, w, lo, hi);
    } else {
      SpliceThere(image, p, w);
    }
  }

  lemma Untouched(image: Bytes, i: int, b: Bytes, j: int, c: Bytes, lo: int, hi: int)
    requires 0 <= i && i + |b| <= |image| && 0 <= j && j + |c| <= |image| && 0 <= lo <= hi <= |image|
    requires (hi <= i || i + |b| <= lo) && (hi <= j || j + |c| <= lo)
    ensures Splice(Splice(image, i, b), j, c)[lo..hi] == image[lo..hi]
  {
    SpliceElsewhere(image, i, b, lo, hi);
    SpliceElsewhere(Splice(image, i, b), j, c, lo, hi);
  }

  // ------------------------------------------------------------------ the loops

  /** strcpy of `a`, which is found at `src[from..]`, and the strlen that follows */
  method StrCpy(dst: array<Byte>, to: nat, src: array<Byte>, from: nat, ghost a: Bytes) returns (n: nat)
    requires dst != src && IsCString(a)
    requires from + |a| < src.Length && src[from..from + |a|] == a && src[from + |a|] == 0
    requires to + |a| < dst.Length
    modifies dst
    ensures n == |a| && dst[..] == Splice(old(dst[..]), to, a + [0])
  {
    forall k | 0 <= k < |a| ensures src[from + k] == a[k] != 0 {
      assert src[from..from + |a|][k] == a[k] && a[k] in a;
    }
    n := 0;
    while src[from + n] != 0
      invariant 0 <= n <= |a|
      invariant dst[..] == Splice(old(dst[..]), to, a[..n])
      invariant forall k :: 0 <= k < |a| ==> src[from + k] == a[k] != 0
      decreases |a| - n
    {
      dst[to + n] := src[from + n];
      n := n + 1;
    }
    assert n == |a|;
    dst[to + n] := 0;
  }

  /** Copy one argument of the caller, NUL included. */
  method SaveArg(dst: array<Byte>, to: nat, a: Bytes)
    requires to + |a| < dst.Length
    modifies dst
    ensures dst[..] == Splice(old(dst[..]), to, a + [0])
  {
    var n := 0;
    while n < |a|
      invariant 0 <= n <= |a| && dst[..] == Splice(old(dst[..]), to, a[..n])
    {
      dst[to + n] := a[n];
      n := n + 1;
    }
    dst[to + n] := 0;
  }

  /** The loops that count the bytes and save the arguments in region 0 */
  method SaveArgs(args: seq<Bytes>) returns (argbuf: array<Byte>)
    ensures fresh(argbuf) && argbuf[..] == Flat(args)
  {
    var size, i := 0, 0;
    while i < |args|
      invariant 0 <= i <= |args| && size == Offset(args, i)
    {
      FlatGrows(args, i);
      size := size + |args[i]| + 1;
      i := i + 1;
    }
    assert args[..i] == args;
    argbuf := new Byte[size];
    var to := 0;
    i := 0;
    while i < |args|
      invariant 0 <= i <= |args| && to == Offset(args, i) <= argbuf.Length
      invariant argbuf[..to] == Flat(args[..i])
    {
      FlatGrows(args, i);
      SaveArg(argbuf, to, args[i]);
      to := to + |args[i]| + 1;
      i := i + 1;
    }
  }

  method StoreWord(image: array<Byte>, at: nat, v: int)
    requires at + WORD <= image.Length
    modifies image
    ensures image[..] == Splice(old(image[..]), at, WordBytes(v))
  {
    var w := WordBytes(v);
    image[at], image[at + 1], image[at + 2], image[at + 3] := w[0], w[1], w[2], w[3];
  }

  /** memset: clear the image from `at` on. */
  method Clear(image: array<Byte>, at: nat)
    requires at <= image.Length
    modifies image
    ensures forall k :: at <= k < image.Length ==> image[k] == 0
  {
    var k := at;
    while k < image.Length
      invariant at <= k <= image.Length
      invariant forall j :: at <= j < k ==> image[j] == 0
    {
      image[k] := 0;
      k := k + 1;
    }
  }

  lemma FirstWord(s: Bytes, at: int, strings: int, cp: int, args: seq<Bytes>)
    requires 0 <= at && at + (|args| + 3) * WORD <= strings && strings + Size(args) == |s|
    ensures Building(Splice(s, at, WordBytes(|args|)), at, strings, cp, args, 0)
  {
    SpliceThere(s, at, WordBytes(|args|));
  }

  lemma {:induction false} LastWords(s: Bytes, s': Bytes, at: int, strings: int, cp: int, args: seq<Bytes>)
    requires Building(s, at, strings, cp, args, |args|)
    requires var p := at + (|args| + 1) * WORD;
      s' == Splice(Splice(s, p, WordBytes(0)), p + WORD, WordBytes(0))
    ensures TableWritten(s', at, args, cp) && s'[strings..] == Flat(args)
  {
    LastPointers(s, s', at, strings, cp, args);
    var p, w := at + (|args| + 1) * WORD, WordBytes(0);
    Untouched(s, p, w, p + WORD, w, strings, |s|);
    assert args[..|args|] == args;
    assert s'[strings..] == s'[strings..|s|] && s[strings..] == s[strings..|s|];
  }

  lemma {:induction false} LastPointers(s: Bytes, s': Bytes, at: int, strings: int, cp: int, args: seq<Bytes>)
    requires Building(s, at, strings, cp, args, |args|)
    requires var p := at + (|args| + 1) * WORD;
      s' == Splice(Splice(s, p, WordBytes(0)), p + WORD, WordBytes(0))
    ensures TableWritten(s', at, args, cp)
  {
    var p, w := at + (|args| + 1) * WORD, WordBytes(0);
    var one := Splice(s, p, w);
    SpliceThere(s, p, w);
    SpliceElsewhere(one, p + WORD, w, p, p + WORD);
    SpliceThere(one, p + WORD, w);
    Untouched(s, p, w, p + WORD, w, at, at + WORD);
    forall k | 0 <= k < |args| ensures PointerWritten(s', at, k, cp + Offset(args, k)) {
      assert PointerWritten(s, at, k, cp + Offset(args, k));
      Untouched(s, p, w, p + WORD, w, at + (k + 1) * WORD, at + (k + 2) * WORD);
    }
  }

  /** Argument `i` is in the saved arguments at its offset. */
  lemma SavedAt(argbuf: array<Byte>, args: seq<Bytes>, i: nat)
    requires argbuf[..] == Flat(args) && i < |args|
    ensures var from, a := Offset(args, i), args[i];
      from + |a| < argbuf.Length && argbuf[from..from + |a|] == a && argbuf[from + |a|] == 0
  {
    FlatAt(args, i);
    var from, a := Offset(args, i), args[i];
    assert argbuf[from..from + |a|] == argbuf[..][from..from + |a|];
    assert argbuf[from + |a|] == argbuf[..][from + |a|];
  }

  /**
   One round of the loop, `*cpp++ = cp; strcpy(cp, cp2)`, with `table` and `to` the places of cpp
   and cp in the image
   */
  method StoreArg(image: array<Byte>, table: nat, to: nat, cp: int, argbuf: array<Byte>, cp2: nat,
                  ghost args: seq<Bytes>, ghost i: nat) returns (n: nat)
    requires AreArgs(args) && i < |args| && argbuf[..] == Flat(args) && image != argbuf && cp2 == Offset(args, i)
    requires table + WORD <= image.Length && to + |args[i] + [0]| <= image.Length
    modifies image
    ensures n == |args[i]|
    ensures image[..] == Splice(Splice(old(image[..]), table, WordBytes(cp)), to, args[i] + [0])
  {
    SavedAt(argbuf, args, i);
    StoreWord(image, table, cp);
    n := StrCpy(image, to, argbuf, cp2, args[i]);
  }

  /** The same, as a step of the whole construction */
  method AddArg(image: array<Byte>, at: nat, strings: nat, cp: int, argbuf: array<Byte>, cp2: nat,
                ghost args: seq<Bytes>, i: nat) returns (n: nat)
    requires AreArgs(args) && i < |args| && argbuf[..] == Flat(args) && image != argbuf && cp2 == Offset(args, i)
    requires Building(image[..], at, strings, cp, args, i)
    modifies image
    ensures Building(image[..], at, strings, cp, args, i + 1) && n == |args[i]|
  {
    ghost var before := image[..];
    FlatGrows(args, i);
    n := StoreArg(image, at + (i + 1) * WORD, strings + cp2, cp + cp2, argbuf, cp2, args, i);
    BuildingBy(before, Splice(before, at + (i + 1) * WORD, WordBytes(cp + cp2)), image[..], at, strings, cp, args, i);
  }

  /** memset and `*cpp++ = argcount` */
  method BeginStack(image: array<Byte>, at: nat, argcount: nat, ghost strings: nat, ghost cp: int,
                    ghost args: seq<Bytes>)
    requires argcount == |args| && at + (|args| + 3) * WORD <= strings && strings + Size(args) == image.Length
    modifies image
    ensures Building(image[..], at, strings, cp, args, 0)
  {
    Clear(image, at);
    FirstWord(image[..], at, strings, cp, args);
    StoreWord(image, at, argcount);
  }

  /** The loop over the arguments */
  method AddArgs(image: array<Byte>, at: nat, strings: nat, cp: int, argbuf: array<Byte>, argcount: nat,
                 ghost args: seq<Bytes>)
    requires AreArgs(args) && argcount == |args| && argbuf[..] == Flat(args) && image != argbuf
    requires Building(image[..], at, strings, cp, args, 0)
    modifies image
    ensures Building(image[..], at, strings, cp, args, argcount)
  {
    var cp2, i := 0, 0;
    while i < argcount
      invariant 0 <= i <= argcount && cp2 == Offset(args, i)
      invariant Building(image[..], at, strings, cp, args, i)
    {
      FlatGrows(args, i);
      var n := AddArg(image, at, strings, cp, argbuf, cp2, args, i);
      cp2, i := cp2 + n + 1, i + 1;
    }
  }

  /** The NULL that ends argv and the empty envp */
  method StoreNulls(image: array<Byte>, at: nat, strings: nat, ghost cp: int, argcount: nat, ghost args: seq<Bytes>)
    requires argcount == |args| && Building(image[..], at, strings, cp, args, argcount)
    modifies image
    ensures strings <= image.Length && TableWritten(image[..], at, args, cp) && image[strings..] == Flat(args)
  {
    var p := at + (argcount + 1) * WORD;
    ghost var before := image[..];
    StoreTwo(image, p);
    LastWords(before, image[..], at, strings, cp, args);
    assert image[strings..] == image[..][strings..];
  }

  method StoreTwo(image: array<Byte>, p: nat)
    requires p + 2 * WORD <= image.Length
    modifies image
    ensures image[..] == Splice(Splice(old(image[..]), p, WordBytes(0)), p + WORD, WordBytes(0))
  {
    StoreWord(image, p, 0);
    StoreWord(image, p + WORD, 0);
  }

  /**
   The end of LoadProgram: `image` is the memory of the new stack's pages and `argbuf`
   holds the saved arguments.  The program that starts on it finds its arguments.
   */
  method BuildStack(image: array<Byte>, argbuf: array<Byte>, argcount: nat, ghost args: seq<Bytes>,
                    bottom: int, table: int, strings: int)
    requires AreArgs(args) && argcount == |args| && argbuf[..] == Flat(args) && image != argbuf
    requires bottom == StackBottom(args) && table == TableAt(args) && strings == StringsAt(args)
    requires 0 <= bottom && VMEM_1_LIMIT <= WORDS && image.Length == VMEM_1_LIMIT - bottom
    modifies image
    ensures Decodes(image[..], bottom, table, args)
    ensures image[strings - bottom..] == Flat(args)
  {
    LayoutFits(args);
    FillImage(image, argbuf, argcount, table - bottom, strings - bottom, strings, args);
    ArgsRoundTrip(image[..], bottom, args);
  }

  /** Its three parts: argc, the pointers with their strings, and the NULLs */
  method FillImage(image: array<Byte>, argbuf: array<Byte>, argcount: nat, at: nat, to: nat, cp: int,
                   ghost args: seq<Bytes>)
    requires AreArgs(args) && argcount == |args| && argbuf[..] == Flat(args) && image != argbuf
    requires at + (|args| + 3) * WORD <= to && to + Size(args) == image.Length
    modifies image
    ensures TableWritten(image[..], at, args, cp) && image[to..] == Flat(args)
  {
    BeginStack(image, at, argcount, to, cp, args);
    AddArgs(image, at, to, cp, argbuf, argcount, args);
    StoreNulls(image, at, to, cp, argcount, args);
  }
}

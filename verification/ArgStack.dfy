/**
 The argument stack that LoadProgram builds at the top of region 1: argc, argv and the
 strings.  Words and pointers have 4 bytes, least significant first (32-bit x86).
 */
module ArgStack {
  import opened Basics
  import opened Hardware

  const WORD := 4

  /** An argument as C sees it */
  predicate IsCString(a: Bytes) {
    0 !in a
  }

  ghost predicate AreArgs(args: seq<Bytes>) {
    forall i :: 0 <= i < |args| ==> IsCString(args[i])
  }

  /** The arguments one after the other, each with its NUL */
  function Flat(args: seq<Bytes>): Bytes {
    if args == [] then [] else Flat(args[..|args| - 1]) + args[|args| - 1] + [0]
  }

  /** Where argument `i` starts in `Flat(args)` */
  function Offset(args: seq<Bytes>, i: nat): nat
    requires i <= |args|
  {
    |Flat(args[..i])|
  }

  /** The string that starts at byte `i` */
  function CString(s: Bytes, i: int): Bytes
    decreases |s| - i
  {
    if i < 0 || i >= |s| || s[i] == 0 then [] else [s[i]] + CString(s, i + 1)
  }

  function WordBytes(v: int): (w: Bytes)
    ensures |w| == WORD
  {
    var w := v / 256;
    var x := w / 256;
    [(v % 256) as Byte, (w % 256) as Byte, (x % 256) as Byte, (x / 256 % 256) as Byte]
  }

  /** The word at byte `i` */
  function WordAt(s: Bytes, i: int): int
    requires 0 <= i && i + WORD <= |s|
  {
    s[i] as int + 256 * s[i + 1] as int + 65536 * s[i + 2] as int + 16777216 * s[i + 3] as int
  }

  const WORDS := 0x1_0000_0000

  lemma WordRoundTrip(s: Bytes, i: int, v: int)
    requires 0 <= i && i + WORD <= |s| && s[i..i + WORD] == WordBytes(v) && 0 <= v < WORDS
    ensures WordAt(s, i) == v
  {
    var b := WordBytes(v);
    assert s[i] == s[i..i + WORD][0] && s[i + 1] == s[i..i + WORD][1];
    assert s[i + 2] == s[i..i + WORD][2] && s[i + 3] == s[i..i + WORD][3];
    BytesOf(v);
  }

  lemma BytesOf(v: int)
    requires 0 <= v < WORDS
    ensures var b := WordBytes(v);
      v == b[0] as int + 256 * b[1] as int + 65536 * b[2] as int + 16777216 * b[3] as int
  {
    var w := v / 256;
    var x := w / 256;
    assert v == 256 * w + v % 256 && w == 256 * x + w % 256 && x == 256 * (x / 256) + x % 256;
  }

  lemma {:induction false} CStringAt(s: Bytes, i: int, a: Bytes)
    requires 0 <= i && i + |a| < |s| && s[i..i + |a|] == a && IsCString(a) && s[i + |a|] == 0
    ensures CString(s, i) == a
    decreases |a|
  {
    if a != [] {
      assert s[i] == a[0] && a[0] in a;
      assert s[i + 1..i + 1 + |a[1..]|] == a[1..];
      CStringAt(s, i + 1, a[1..]);
    }
  }

  /** Argument `i` and its NUL are found at its offset. */
  lemma {:induction false} FlatAt(args: seq<Bytes>, i: nat)
    requires i < |args|
    ensures Offset(args, i) + |args[i]| < |Flat(args)|
    ensures Flat(args)[Offset(args, i)..Offset(args, i) + |args[i]|] == args[i]
    ensures Flat(args)[Offset(args, i) + |args[i]|] == 0
  {
    var n := |args| - 1;
    var front := args[..n];
    if i < n {
      assert front[i] == args[i] && front[..i] == args[..i];
      FlatAt(front, i);
    }
  }

  // ---------------------------------------------------------------- the layout

  function Size(args: seq<Bytes>): nat {
    |Flat(args)|
  }

  /** `cp`, where the strings go */
  function StringsAt(args: seq<Bytes>): int {
    VMEM_1_LIMIT - Size(args)
  }

  /** `cpp`, where argc goes: rounded down to a double word */
  function TableAt(args: seq<Bytes>): int {
    var a := StringsAt(args) - (|args| + 3 + POST_ARGV_NULL_SPACE) * WORD;
    a - a % 8
  }

  /** `cp2`, the new stack pointer */
  function StackPointer(args: seq<Bytes>): int {
    TableAt(args) - INITIAL_STACK_FRAME_SIZE
  }

  /** stack_npg */
  function StackPages(args: seq<Bytes>): int {
    2 * MAX_PT_LEN - Vpn(StackPointer(args))
  }

  /** The lowest address of the stack pages */
  function StackBottom(args: seq<Bytes>): int {
    Vpn(StackPointer(args)) * PAGESIZE
  }

  /**
   Everything lies inside the stack pages, and the table (argc, the pointers and both
   NULLs) ends below the strings.
   */
  lemma LayoutFits(args: seq<Bytes>)
    ensures StackBottom(args) <= StackPointer(args) <= TableAt(args)
    ensures TableAt(args) + (|args| + 3) * WORD <= StringsAt(args) <= VMEM_1_LIMIT
    ensures StackPages(args) * PAGESIZE == VMEM_1_LIMIT - StackBottom(args)
    ensures TableAt(args) % 8 == 0
  {
    PageReaches(StackPointer(args), Vpn(StackPointer(args)));
    var p := Vpn(StackPointer(args));
    assert (2 * MAX_PT_LEN - p) * PAGESIZE == 2 * MAX_PT_LEN * PAGESIZE - p * PAGESIZE;
  }

  /**
   The table is at the highest double word that leaves room for it and for the words after it; and the
   stack pages are the fewest that hold the first frame of main, which is below the table.
   */
  lemma LayoutIsTight(args: seq<Bytes>)
    ensures StackBottom(args) <= TableAt(args) - INITIAL_STACK_FRAME_SIZE < StackBottom(args) + PAGESIZE
    ensures 0 <= StringsAt(args) - (|args| + 3 + POST_ARGV_NULL_SPACE) * WORD - TableAt(args) < 8
    ensures (StackPages(args) - 1) * PAGESIZE < VMEM_1_LIMIT - (TableAt(args) - INITIAL_STACK_FRAME_SIZE)
      <= StackPages(args) * PAGESIZE
  {
    var p := Vpn(StackPointer(args));
    LayoutFits(args);
    PageReaches(StackPointer(args), p + 1);
    assert (p + 1) * PAGESIZE == p * PAGESIZE + PAGESIZE;
    assert (StackPages(args) - 1) * PAGESIZE == StackPages(args) * PAGESIZE - PAGESIZE;
  }

  /** An argument list that passes LoadProgram's size check gets a stack inside region 1, above the heap. */
  lemma AcceptedFits(args: seq<Bytes>, text: nat, data: nat)
    requires StackPages(args) + text + data < MAX_PT_LEN
    ensures 1 <= StackPages(args)
    ensures Aligned(StackBottom(args)) && Vpn(StackBottom(args)) == MAX_PT_LEN + (MAX_PT_LEN - StackPages(args))
    ensures MAX_PT_LEN + text + data < Vpn(StackBottom(args))
  {
    LayoutFits(args);
    VpnOfPage(Vpn(StackPointer(args)));
    PageReaches(StackPointer(args), 2 * MAX_PT_LEN);
  }

  // ---------------------------------------------------------------- what main finds

  /** The image's bytes from the table on hold these arguments, for a program that reads argc and argv. */
  ghost predicate Decodes(image: Bytes, bottom: int, table: int, args: seq<Bytes>) {
    && 0 <= table - bottom && table - bottom + (|args| + 3) * WORD <= |image|
    && WordAt(image, table - bottom) == |args|
    && (forall i :: 0 <= i < |args| ==> ArgAt(image, bottom, table, i) == args[i])
    && WordAt(image, table - bottom + (|args| + 1) * WORD) == 0
    && WordAt(image, table - bottom + (|args| + 2) * WORD) == 0
  }

  /** The string that argv[i] points to */
  function ArgAt(image: Bytes, bottom: int, table: int, i: nat): Bytes
    requires 0 <= table - bottom && table - bottom + (i + 2) * WORD <= |image|
  {
    CString(image, WordAt(image, table - bottom + (i + 1) * WORD) - bottom)
  }

  /** argc, the pointers to the strings, and NULLs */
  ghost predicate TableWritten(image: Bytes, at: int, args: seq<Bytes>, strings: int) {
    && 0 <= at && at + (|args| + 3) * WORD <= |image|
    && image[at..at + WORD] == WordBytes(|args|)
    && (forall i :: 0 <= i < |args| ==> PointerWritten(image, at, i, strings + Offset(args, i)))
    && image[at + (|args| + 1) * WORD..at + (|args| + 2) * WORD] == WordBytes(0)
    && image[at + (|args| + 2) * WORD..at + (|args| + 3) * WORD] == WordBytes(0)
  }

  ghost predicate PointerWritten(image: Bytes, at: int, i: int, address: int) {
    0 <= at + (i + 1) * WORD && at + (i + 2) * WORD <= |image|
      && image[at + (i + 1) * WORD..at + (i + 2) * WORD] == WordBytes(address)
  }

  /** The pointer to argument `i` leads to it. */
  lemma {:induction false} ArgFound(image: Bytes, bottom: int, table: int, cp: int, args: seq<Bytes>, i: nat)
    requires AreArgs(args) && i < |args|
    requires 0 <= bottom <= table && table + (|args| + 3) * WORD <= cp && cp + Size(args) == bottom + |image| <= WORDS
    requires PointerWritten(image, table - bottom, i, cp + Offset(args, i)) && image[cp - bottom..] == Flat(args)
    ensures ArgAt(image, bottom, table, i) == args[i]
  {
    FlatAt(args, i);
    WordRoundTrip(image, table - bottom + (i + 1) * WORD, cp + Offset(args, i));
    StringFound(image, cp - bottom, args, i);
  }

  /** Argument `i` stands where the strings begin plus its offset. */
  lemma {:induction false} StringFound(image: Bytes, start: nat, args: seq<Bytes>, i: nat)
    requires AreArgs(args) && i < |args| && start <= |image| && image[start..] == Flat(args)
    ensures CString(image, start + Offset(args, i)) == args[i]
  {
    FlatAt(args, i);
    var off := Offset(args, i);
    var end := off + |args[i]|;
    assert image[start..][off..end] == image[start + off..start + end];
    assert image[start..][end] == image[start + end];
    CStringAt(image, start + off, args[i]);
  }

  lemma {:induction false} TableFound(image: Bytes, bottom: int, table: int, cp: int, args: seq<Bytes>)
    requires AreArgs(args)
    requires 0 <= bottom <= table && table + (|args| + 3) * WORD <= cp && cp + Size(args) == bottom + |image| <= WORDS
    requires TableWritten(image, table - bottom, args, cp) && image[cp - bottom..] == Flat(args)
    ensures Decodes(image, bottom, table, args)
  {
    var at := table - bottom;
    WordRoundTrip(image, at, |args|);
    WordRoundTrip(image, at + (|args| + 1) * WORD, 0);
    WordRoundTrip(image, at + (|args| + 2) * WORD, 0);
    forall i | 0 <= i < |args| ensures ArgAt(image, bottom, table, i) == args[i] {
      ArgFound(image, bottom, table, cp, args, i);
    }
  }

  /** An image with that table and those strings decodes to the arguments. */
  lemma ArgsRoundTrip(image: Bytes, bottom: int, args: seq<Bytes>)
    requires AreArgs(args) && bottom == StackBottom(args) && |image| == VMEM_1_LIMIT - bottom
    requires 0 <= bottom && VMEM_1_LIMIT <= WORDS
    requires TableWritten(image, TableAt(args) - bottom, args, StringsAt(args))
    requires image[StringsAt(args) - bottom..] == Flat(args)
    ensures Decodes(image, bottom, TableAt(args), args)
  {
    LayoutFits(args);
    TableFound(image, bottom, TableAt(args), StringsAt(args), args);
  }
}

/**
 The buffers of pipes and terminals: bytes at the base of a fixed array, taken from the
 front by moving the rest down in place.
 */
module ByteBuffers {
  import opened Basics

  class ByteBuffer {
    const buffer: array<Byte>
    var numBytesWritten: nat

    ghost predicate Valid()
      reads this, buffer
    {
      numBytesWritten <= buffer.Length
    }

    ghost function Contents(): Bytes
      reads this, buffer
      requires Valid()
    {
      buffer[..numBytesWritten]
    }

    constructor (size: nat)
      ensures Valid() && Contents() == [] && buffer.Length == size && fresh(buffer)
    {
      buffer := new Byte[size];
      numBytesWritten := 0;
    }

    /** KernelPipeWrite's memmove to the end; no part of `bytes` is taken if not all of it fits. */
    method Append(bytes: Bytes) returns (ok: bool)
      requires Valid()
      modifies this, buffer
      ensures Valid()
      ensures ok == (|old(Contents())| + |bytes| <= buffer.Length)
      ensures Contents() == if ok then old(Contents()) + bytes else old(Contents())
    {
      if numBytesWritten + |bytes| > buffer.Length { return false; }
      var i := 0;
      while i < |bytes|
        invariant 0 <= i <= |bytes|
        invariant numBytesWritten == old(numBytesWritten)
        invariant buffer[..numBytesWritten + i] == old(Contents()) + bytes[..i]
      {
        buffer[numBytesWritten + i] := bytes[i];
        i := i + 1;
      }
      numBytesWritten := numBytesWritten + |bytes|;
      return true;
    }

    /** writeBuffer: a new line replaces what is left of the last one. */
    method Fill(line: Bytes)
      requires Valid() && |line| <= buffer.Length
      modifies this, buffer
      ensures Valid() && Contents() == line
    {
      numBytesWritten := 0;
      var ok := Append(line);
    }

    /** KernelPipeRead and readBuffer: take `n` bytes and move those that remain to the base. */
    method TakeFront(n: nat) returns (bytes: Bytes)
      requires Valid() && n <= |Contents()|
      modifies this, buffer
      ensures Valid()
      ensures bytes == old(Contents())[..n] && Contents() == old(Contents())[n..]
    {
      bytes := buffer[..n];
      var rest := numBytesWritten - n;
      var i := 0;
      while i < rest
        invariant 0 <= i <= rest && numBytesWritten == old(numBytesWritten)
        invariant forall k :: 0 <= k < i ==> buffer[k] == old(buffer[n + k])
        invariant forall k :: i <= k < buffer.Length ==> buffer[k] == old(buffer[k])
      {
        buffer[i] := buffer[n + i];
        i := i + 1;
      }
      numBytesWritten := rest;
    }
  }
}

/** Cutting a log file down to its end, in place. */
module Truncate {
  import opened Reading

  const OFFSETS: int := 0x8000_0000_0000_0000

  /** A 64-bit unsigned number taken as a file offset. */
  function OffT(x: nat): int
    requires x < 2 * OFFSETS
  {
    if x < OFFSETS then x else x - 2 * OFFSETS
  }

  function Last(s: string, n: nat): string
    requires n <= |s|
  {
    s[|s| - n..]
  }

  /** A file as a sequence of bytes that are read and written at offsets. */
  class File {
    var bytes: string

    constructor (bytes: string)
      ensures this.bytes == bytes
    {
      this.bytes := bytes;
    }

    /** A write of all of "data" over what is there. */
    method PWrite(data: string, offset: nat)
      requires offset + |data| <= |bytes|
      modifies this
      ensures bytes == old(bytes)[..offset] + data + old(bytes)[offset + |data|..]
      ensures |bytes| == |old(bytes)| && From(bytes, offset)[..|data|] == data
    {
      bytes := bytes[..offset] + data + bytes[offset + |data|..];
    }

    method FTruncate(length: nat)
      requires length <= |bytes|
      modifies this
      ensures bytes == old(bytes)[..length]
    {
      bytes := bytes[..length];
    }
  }

  /** Copying a block down by "gap": the front is done up to "w", and what is still to be copied is untouched. */
  ghost predicate Copied(now: string, was: string, gap: nat, w: nat) {
    && |now| == |was| && w + gap <= |was|
    && now[..w] == was[gap..gap + w]
    && now[w + gap..] == was[w + gap..]
  }

  lemma NothingCopied(was: string, gap: nat)
    requires gap <= |was|
    ensures Copied(was, was, gap, 0)
  {
  }

  lemma AllCopied(now: string, was: string, gap: nat, w: nat)
    requires Copied(now, was, gap, w) && w + gap >= |was|
    ensures gap <= |was| && w + gap == |was| && now[..w] == Last(was, w)
  {
  }

  lemma CopyBlock(now: string, was: string, gap: nat, w: nat, data: string, next: string)
    requires Copied(now, was, gap, w) && data != "" && |data| <= |was| - w - gap
    requires data == now[w + gap..][..|data|]
    requires next == now[..w] + data + now[w + |data|..]
    ensures Copied(next, was, gap, w + |data|)
  {
    var n := w + |data|;
    assert data == was[w + gap..w + gap + |data|] by {
      assert was[w + gap..][..|data|] == was[w + gap..w + gap + |data|];
    }
    assert next[..n] == now[..w] + data;
    assert was[gap..gap + n] == was[gap..gap + w] + was[gap + w..gap + n];
    assert next[n + gap..] == now[n + gap..];
    assert now[n + gap..] == now[w + gap..][|data|..];
    assert was[n + gap..] == was[w + gap..][|data|..];
  }

  /**
   * Keeps the last bytes of a regular file that is longer than both limits, whatever the reads return;
   * a number of bytes to keep that is no valid offset empties the file.
   */
  method TruncateLogFile(file: File, regular: bool, limit: nat, keep: nat)
    requires limit < 2 * OFFSETS && keep < 2 * OFFSETS
    requires |file.bytes| - OffT(keep) < OFFSETS
    modifies file
    ensures var size, was := |old(file.bytes)|, old(file.bytes);
            file.bytes ==
              if !regular || size <= OffT(limit) || size <= OffT(keep) then was
              else if OffT(keep) >= 0 then Last(was, keep)
              else ""
  {
    hide Copied, Last;
    if !regular { return; }
    ghost var was := file.bytes;
    var size := |file.bytes|;
    if size <= OffT(limit) { return; }
    if size <= OffT(keep) { return; }
    var readOffset: nat, writeOffset := size - OffT(keep), 0;
    var copybuf := new char[8192];
    ghost var gap := readOffset;
    if gap <= size { NothingCopied(was, gap); }
    while true
      invariant fresh(copybuf) && copybuf.Length == 8192
      invariant readOffset == writeOffset + gap && |file.bytes| == size
      invariant gap <= size ==> readOffset <= size && Copied(file.bytes, was, gap, writeOffset)
      invariant gap > size ==> writeOffset == 0
      decreases size + gap - readOffset
    {
      var bytesin := Pread(file.bytes, copybuf, 0, 8192, readOffset);
      if bytesin == 0 { break; }
      ghost var now := file.bytes;
      var data := copybuf[..bytesin];
      file.PWrite(data, writeOffset);
      assert gap <= size && data == now[readOffset..][..bytesin];
      CopyBlock(now, was, gap, writeOffset, data, file.bytes);
      readOffset, writeOffset := readOffset + bytesin, writeOffset + bytesin;
    }
    if gap <= size { AllCopied(file.bytes, was, gap, writeOffset); }
    file.FTruncate(writeOffset);
  }
}

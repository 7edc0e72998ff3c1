/** The output buffer as it is: bytes, a cursor and the place of the remembered name, and the memory behind it. */
module Tape {
  import opened CText

  /** Where an appended text lies: outside the buffer, or at an index of the buffer itself. */
  datatype Pointer = Bytes(s: string) | Buffer(at: nat)

  /** "stray" once memory behind the buffer was read, whatever is there. */
  datatype Tape = Tape(bytes: seq<char>, cur: nat, name: nat, len: int, overflowed: bool, stray: bool,
                       behind: nat -> char)
  {
    predicate Within() { cur < |bytes| || cur == 0 }

    predicate Outside(src: Pointer, i: nat) { src.Buffer? && src.at + i >= |bytes| }

    function Read(src: Pointer, i: nat): char
      requires src.Bytes? ==> i < |src.s|
    {
      match src
      case Bytes(s) => s[i]
      case Buffer(at) => if at + i < |bytes| then bytes[at + i] else behind(at + i - |bytes|)
    }

    /** Copies the characters from the "i"-th to the "n"-th while there is room for one more and a terminator. */
    function Copy(src: Pointer, i: nat, n: nat): Tape
      requires i <= n && (src.Bytes? ==> n <= |src.s|)
      decreases n - i
    {
      if i == n then this
      else if cur + 1 < |bytes| then
        this.(bytes := bytes[cur := Read(src, i)], cur := cur + 1, stray := stray || Outside(src, i)).Copy(src, i + 1, n)
      else this.(overflowed := true)
    }

    function Append(src: Pointer, n: nat): Tape
      requires src.Bytes? ==> n <= |src.s|
    {
      var t := Copy(src, 0, n);
      if t.overflowed || t.cur >= |t.bytes| then t else t.(bytes := t.bytes[t.cur := '\0'])
    }

    /** A space first if that keeps two '<' apart. */
    function KeepApart(first: char): Tape {
      if first == '<' && 0 < cur <= |bytes| && bytes[cur - 1] == '<' then Append(Bytes(" "), 1) else this
    }

    /** What starts like an identifier becomes the remembered name. */
    function Remember(first: char, n: nat): Tape {
      if IsAlpha(first) || first == '_' then this.(name := cur, len := n) else this
    }

    function Print(src: Pointer, n: nat): Tape
      requires 0 < n && (src.Bytes? ==> n <= |src.s|)
    {
      var first := Read(src, 0);
      this.(stray := stray || Outside(src, 0)).KeepApart(first).Remember(first, n).Append(src, n)
    }

    function Cancel(): Tape {
      if 2 <= cur <= |bytes| + 1 then this.(cur := cur - 2, bytes := bytes[cur - 2 := '\0']) else this
    }
  }
}

/** Reading a file: short reads, the fixed-buffer line reader, and the batched table scans. */
module Reading {
  function Min(a: nat, b: nat): nat { if a < b then a else b }

  /** The bytes of a file from an offset on; none past its end. */
  function From(file: string, offset: nat): string { if offset < |file| then file[offset..] else "" }

  lemma FromLater(file: string, offset: nat, n: nat)
    requires n <= |From(file, offset)|
    ensures From(file, offset + n) == From(file, offset)[n..]
  {
  }

  /** "buf" holds "text" at "at". */
  ghost predicate Holds(buf: array<char>, at: nat, text: string)
    reads buf
  {
    at + |text| <= buf.Length && forall j :: at <= j < at + |text| ==> buf[j] == text[j - at]
  }

  /** One pread: any positive number of bytes there are, up to "count"; none only at the end. */
  method Pread(file: string, buf: array<char>, at: nat, count: nat, offset: nat) returns (len: nat)
    requires at + count <= buf.Length
    modifies buf
    ensures len <= count && len <= |From(file, offset)|
    ensures len == 0 <==> count == 0 || From(file, offset) == ""
    ensures Holds(buf, at, From(file, offset)[..len])
    ensures forall i :: 0 <= i < buf.Length && !(at <= i < at + len) ==> buf[i] == old(buf[i])
  {
    var most := Min(count, |From(file, offset)|);
    len :| 0 <= len <= most && (most > 0 ==> len > 0);
    forall i | 0 <= i < len {
      buf[at + i] := From(file, offset)[i];
    }
  }

  /** However short the reads are, the buffer ends up with all there is, up to "count". */
  method ReadFromOffset(file: string, buf: array<char>, at: nat, count: nat, offset: nat) returns (n: nat)
    requires at + count <= buf.Length
    modifies buf
    ensures n == Min(count, |From(file, offset)|)
    ensures Holds(buf, at, From(file, offset)[..n])
    ensures forall i :: 0 <= i < buf.Length && !(at <= i < at + n) ==> buf[i] == old(buf[i])
  {
    hide From;
    ghost var all := From(file, offset);
    n := 0;
    while n < count
      invariant n <= count && n <= |all|
      invariant forall j :: at <= j < at + n ==> buf[j] == all[j - at]
      invariant forall i :: 0 <= i < buf.Length && !(at <= i < at + n) ==> buf[i] == old(buf[i])
      decreases count - n
    {
      FromLater(file, offset, n);
      var len := Pread(file, buf, at + n, count - n, offset + n);
      if len == 0 { break; }
      ghost var more := all[n..][..len];
      forall j | at <= j < at + n + len ensures buf[j] == all[j - at] {
        if j >= at + n { assert buf[j] == more[j - (at + n)]; }
      }
      n := n + len;
    }
  }

  // ---------------------------------------------------------------- lines as the file has them

  /** The first index of a line feed, or the length. */
  function LineFeed(s: string): (k: nat)
    ensures k <= |s| && (k < |s| ==> s[k] == '\n') && '\n' !in s[..k]
  {
    if s == "" || s[0] == '\n' then 0 else 1 + LineFeed(s[1..])
  }

  lemma {:induction false} LineFeedOf(a: string, b: string)
    ensures LineFeed(a + b) == if LineFeed(a) < |a| then LineFeed(a) else |a| + LineFeed(b)
  {
    if a == "" {
      assert a + b == b;
    } else if a[0] != '\n' {
      LineFeedOf(a[1..], b);
      assert (a + b)[1..] == a[1..] + b;
    }
  }

  lemma LineFeedOfNothing()
    ensures LineFeed("") == 0
  {
  }

  /** What a buffer starting with "a" and holding "cap" bytes tells of the next line of "a + b". */
  lemma LineFound(a: string, b: string, cap: nat)
    requires |a| <= cap && (LineFeed(a) < |a| || |a| == cap || b == "")
    ensures (LineFeed(a) < |a|) == (LineFeed(a + b) < |a + b| && LineFeed(a + b) + 1 <= cap)
    ensures LineFeed(a) < |a| ==> LineFeed(a + b) == LineFeed(a)
  {
    LineFeedOf(a, b);
  }

  lemma NoFeed(s: string)
    requires LineFeed(s) == |s|
    ensures SplitLines(s) == []
  {
  }

  /** One line off the front. */
  lemma FirstLine(s: string, cap: nat)
    ensures var k := LineFeed(s);
            FittingLines(SplitLines(s), cap) ==
              if k < |s| && k + 1 <= cap then [s[..k]] + FittingLines(SplitLines(s[k + 1..]), cap) else []
  {
    hide LineFeed, SplitLines;
    var k := LineFeed(s);
    if k < |s| { SplitFirst(s); } else { NoFeed(s); }
  }

  /** All lines that end in a line feed; what follows the last one is no line. */
  function SplitLines(s: string): seq<string>
    decreases |s|
  {
    var k := LineFeed(s);
    if k == |s| then [] else [s[..k]] + SplitLines(s[k + 1..])
  }

  /** The lines a buffer of "cap" bytes lets through: up to the first that does not fit with its feed. */
  function FittingLines(lines: seq<string>, cap: nat): seq<string> {
    if lines == [] || |lines[0]| + 1 > cap then [] else [lines[0]] + FittingLines(lines[1..], cap)
  }

  function Unlines(lines: seq<string>): string {
    if lines == [] then "" else lines[0] + "\n" + Unlines(lines[1..])
  }

  /** The lines of a text that has one. */
  lemma SplitFirst(s: string)
    requires LineFeed(s) < |s|
    ensures SplitLines(s) == [s[..LineFeed(s)]] + SplitLines(s[LineFeed(s) + 1..])
    ensures s == s[..LineFeed(s)] + "\n" + s[LineFeed(s) + 1..]
  {
    AtFeed(s, LineFeed(s));
  }

  lemma AtFeed(s: string, k: nat)
    requires k < |s| && s[k] == '\n'
    ensures s == s[..k] + "\n" + s[k + 1..]
  {
    assert s == s[..k] + [s[k]] + s[k + 1..];
  }

  lemma UnlinesFirst(line: string, lines: seq<string>)
    ensures Unlines([line] + lines) == line + "\n" + Unlines(lines)
  {
    assert ([line] + lines)[1..] == lines;
  }

  /** Splitting loses nothing: the lines, their feeds and a tail without one are the text. */
  lemma {:induction false} SplitLinesIsExact(s: string) returns (tail: string)
    ensures Unlines(SplitLines(s)) + tail == s && '\n' !in tail
    ensures forall line :: line in SplitLines(s) ==> '\n' !in line
    decreases |s|
  {
    hide LineFeed, Unlines;
    var k := LineFeed(s);
    if k == |s| {
      tail := s;
      assert s[..k] == s;
      assert Unlines([]) == "" by { NoLines(); }
    } else {
      var line, rest := s[..k], s[k + 1..];
      tail := SplitLinesIsExact(rest);
      SplitFirst(s);
      UnlinesFirst(line, SplitLines(rest));
      assert line + "\n" + Unlines(SplitLines(rest)) + tail == line + "\n" + (Unlines(SplitLines(rest)) + tail);
    }
  }

  lemma NoLines()
    ensures Unlines([]) == ""
  {
  }

  lemma CutLine(a: string, b: string, j: nat)
    requires j < |a|
    ensures (a + b)[..j] == a[..j] && (a + b)[j + 1..] == a[j + 1..] + b
  {
  }

  lemma CutSlice(s: string, lo: nat, k: nat, hi: nat)
    requires lo <= k < hi <= |s|
    ensures s[lo..hi][..k - lo] == s[lo..k] && s[lo..hi][k - lo + 1..] == s[k + 1..hi]
  {
  }

  // ---------------------------------------------------------------- the line reader

  class LineReader {
    const file: string
    const buf: array<char>
    var offset: nat
    var bol: nat
    var eol: nat
    var eod: nat
    ghost var failed: bool

    ghost predicate Valid()
      reads this
    {
      buf.Length >= 1 && (failed || bol == eol == eod == 0 || bol <= eol < eod <= buf.Length)
    }

    /** What is left to read: the rest of the buffer and the rest of the file. */
    ghost function Rest(): string
      reads this, buf
      requires Valid() && !failed
    {
      if eod == 0 then From(file, offset) else buf[eol + 1..eod] + From(file, offset)
    }

    constructor (file: string, buf: array<char>, offset: nat)
      requires buf.Length >= 1
      ensures Valid() && !failed && Rest() == From(file, offset) && this.buf == buf && this.file == file
    {
      this.file, this.buf, this.offset := file, buf, offset;
      bol, eol, eod, failed := 0, 0, 0, false;
    }

    method FindLineFeed() returns (k: nat)
      requires bol <= eod <= buf.Length
      ensures k == bol + LineFeed(buf[bol..eod])
    {
      k := bol;
      while k < eod && buf[k] != '\n'
        invariant bol <= k <= eod
        invariant LineFeed(buf[bol..eod]) == k - bol + LineFeed(buf[k..eod])
      {
        assert buf[k..eod][1..] == buf[k + 1..eod];
        k := k + 1;
      }
    }

    /** Reads on behind the "kept" bytes at the front of the buffer, until it is full or the file ends. */
    method Refill(kept: nat) returns (some: bool)
      requires kept < buf.Length
      modifies `offset, `eod, `bol, buf
      ensures some == (From(file, old(offset)) != "")
      ensures some ==> bol == 0 && kept <= eod <= buf.Length && eod > 0 && (eod == buf.Length || From(file, offset) == "")
      ensures some ==> buf[..eod] + From(file, offset) == old(buf[..kept]) + From(file, old(offset))
    {
      var n := ReadFromOffset(file, buf, kept, buf.Length - kept, offset);
      some := n > 0;
      if some {
        ghost var all := From(file, offset);
        assert buf[..kept + n] == old(buf[..kept]) + all[..n];
        assert From(file, offset + n) == all[n..];
        offset, eod, bol := offset + n, kept + n, 0;
      }
    }

    /** Brings the next line into the buffer: all of it, or as much as there is or fits. */
    method Advance() returns (some: bool)
      requires Valid() && !failed
      modifies this, buf
      ensures Valid() && failed
      ensures some ==>
                && bol <= eod <= buf.Length && old(Rest()) == buf[bol..eod] + From(file, offset)
                && (LineFeed(buf[bol..eod]) < eod - bol || (bol == 0 && (eod == buf.Length || From(file, offset) == "")))
      ensures !some ==> LineFeed(old(Rest())) == |old(Rest())|
    {
      hide LineFeed, From;
      ghost var rest := Rest();
      failed := true;
      some := true;
      if eod == 0 {
        some := Refill(0);
        if !some { LineFeedOfNothing(); }
      } else {
        bol := eol + 1;
        var k := FindLineFeed();
        if k == eod {
          var incomplete := eod - bol;
          ghost var line := buf[bol..eod];
          forall i | 0 <= i < incomplete {
            buf[i] := buf[bol + i];
          }
          assert buf[..incomplete] == line;
          some := Refill(incomplete);
          if !some { assert rest == line + "" == line; }
        }
      }
    }

    /** The next line and where it lies; after a failure the reader must not be asked again. */
    method ReadLine() returns (ok: bool)
      requires Valid() && !failed
      modifies this, buf
      ensures Valid() && failed == !ok
      ensures var k := LineFeed(old(Rest())); ok == (k < |old(Rest())| && k + 1 <= buf.Length)
      ensures var k := LineFeed(old(Rest()));
              ok ==> buf[bol..eol] == old(Rest())[..k] && buf[eol] == '\0' && Rest() == old(Rest())[k + 1..]
    {
      hide LineFeed, Rest, From;
      ghost var rest := Rest();
      ok := Advance();
      if ok {
        LineFound(buf[bol..eod], From(file, offset), buf.Length);
        var k := FindLineFeed();
        ok := k != eod;
        if ok {
          TakeLine(k, rest);
        }
      }
    }

    /** Ends the line found at "k" and leaves the rest for the next call. */
    method TakeLine(k: nat, ghost rest: string)
      requires buf.Length >= 1 && bol <= k < eod <= buf.Length && rest == buf[bol..eod] + From(file, offset)
      modifies `eol, `failed, buf
      ensures Valid() && !failed && eol == k && buf[bol..eol] == rest[..k - bol] && buf[eol] == '\0'
      ensures Rest() == rest[k - bol + 1..]
    {
      hide From;
      CutLine(buf[bol..eod], From(file, offset), k - bol);
      ghost var line, after := buf[bol..k], buf[k + 1..eod];
      CutSlice(buf[..], bol, k, eod);
      eol := k;
      buf[eol] := '\0';
      failed := false;
      assert buf[bol..k] == line && buf[k + 1..eod] == after;
    }
  }

  /** Every line the reader can deliver, in order. */
  method ReadAllLines(file: string, buf: array<char>, offset: nat) returns (lines: seq<string>)
    requires buf.Length >= 1
    modifies buf
    ensures lines == FittingLines(SplitLines(From(file, offset)), buf.Length)
  {
    hide SplitLines, FittingLines, LineFeed, LineReader.Rest, From;
    var reader := new LineReader(file, buf, offset);
    lines := [];
    var ok := true;
    while ok
      invariant reader.Valid() && reader.failed == !ok && reader.buf == buf && fresh(reader)
      invariant ok ==>
                  lines + FittingLines(SplitLines(reader.Rest()), buf.Length) ==
                    FittingLines(SplitLines(From(file, offset)), buf.Length)
      invariant !ok ==> lines == FittingLines(SplitLines(From(file, offset)), buf.Length)
      decreases if ok then |reader.Rest()| + 1 else 0
    {
      ghost var rest := reader.Rest();
      ok := reader.ReadLine();
      FirstLine(rest, buf.Length);
      if ok {
        var line := buf[reader.bol..reader.eol];
        ghost var more := FittingLines(SplitLines(reader.Rest()), buf.Length);
        assert lines + ([line] + more) == (lines + [line]) + more;
        lines := lines + [line];
      }
    }
  }
}

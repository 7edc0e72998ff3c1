/** Numbers as text: the in-place number printer and the hexadecimal reader of the symbolizer. */
module Numbers {
  const WORD: nat := 0x1_0000_0000_0000_0000

  predicate IsHex(c: char) { '0' <= c <= '9' || 'A' <= c <= 'F' || 'a' <= c <= 'f' }

  /** The value of a digit of either case. */
  function Digit(c: char): (d: nat)
    requires IsHex(c)
    ensures d < 16
  {
    if c < 'A' then c as nat - '0' as nat else c as nat % 16 + 9
  }

  function DigitChar(d: nat): (c: char)
    requires d < 16
    ensures IsHex(c) && Digit(c) == d
  {
    "0123456789abcdef"[d]
  }

  /** The sixteen digits by their characters, of either case, and no others. */
  lemma DigitsByCharacter(i: nat, c: char)
    requires i < 16
    ensures IsHex("0123456789abcdef"[i]) && Digit("0123456789abcdef"[i]) == i
    ensures IsHex("0123456789ABCDEF"[i]) && Digit("0123456789ABCDEF"[i]) == i
    ensures DigitChar(i) == "0123456789abcdef"[i]
    ensures IsHex(c) <==> c in "0123456789abcdef" || c in "0123456789ABCDEF"
  {
    OneOfSix(c);
  }

  lemma OneOfSix(c: char)
    ensures '0' <= c <= '9' <==> c in "0123456789"
    ensures 'a' <= c <= 'f' <==> c in "abcdef"
    ensures 'A' <= c <= 'F' <==> c in "ABCDEF"
  {
  }

  /** The longest run of hexadecimal digits at the front. */
  function HexRun(s: string): (n: nat)
    ensures n <= |s| && (forall i :: 0 <= i < n ==> IsHex(s[i])) && (n < |s| ==> !IsHex(s[n]))
  {
    if s == "" || !IsHex(s[0]) then 0 else 1 + HexRun(s[1..])
  }

  /** What digits mean in a base: the last counts ones. */
  function Value(s: string, base: nat): nat
    requires forall c :: c in s ==> IsHex(c)
  {
    if s == "" then 0 else Value(s[..|s| - 1], base) * base + Digit(s[|s| - 1])
  }

  /** Reads the run of digits; what does not fit into 64 bits is shifted out at the top. */
  method GetHex(text: string) returns (p: nat, hex: nat)
    ensures p == HexRun(text)
    ensures hex == Value(text[..p], 16) % WORD
  {
    p, hex := 0, 0;
    while p < |text| && IsHex(text[p])
      invariant p <= |text| && forall i :: 0 <= i < p ==> IsHex(text[i])
      invariant hex == Value(text[..p], 16) % WORD
    {
      assert text[..p + 1][..p] == text[..p];
      ShiftIn(Value(text[..p], 16), Digit(text[p]));
      hex := hex * 16 % WORD + Digit(text[p]);
      p := p + 1;
    }
    RunIs(text, p);
  }

  lemma WordRest(x: nat, q: nat, r: nat)
    requires x == q * WORD + r && r < WORD
    ensures x % WORD == r
  {
  }

  lemma ShiftIn(v: nat, d: nat)
    requires d < 16
    ensures v % WORD * 16 % WORD + d == (v * 16 + d) % WORD
  {
    var q, low, sixteenth := v / WORD, v % WORD, WORD / 16;
    var top, rest := low / sixteenth, low % sixteenth;
    assert v == q * WORD + low && low == top * sixteenth + rest;
    WordRest(low * 16, top, rest * 16);
    WordRest(v * 16 + d, q * 16 + top, rest * 16 + d);
  }

  lemma {:induction false} RunIs(s: string, n: nat)
    requires n <= |s| && (forall i :: 0 <= i < n ==> IsHex(s[i])) && (n < |s| ==> !IsHex(s[n]))
    ensures HexRun(s) == n
  {
    if n > 0 { RunIs(s[1..], n - 1); }
  }

  // ---------------------------------------------------------------- printing

  function Less1(n: nat): nat { if n == 0 then 0 else n - 1 }

  function LastDigit(v: nat, base: nat): (d: nat)
    requires 2 <= base
    ensures d < base
  {
    v % base
  }

  /** What is left to print behind the last digit. */
  function Front(v: nat, base: nat): (f: nat)
    requires 2 <= base
    ensures f * base + LastDigit(v, base) == v && (v > 0 ==> f < v) && (f == 0 <==> v < base)
  {
    Quotient(v, base, v / base, v % base);
    v / base
  }

  lemma Quotient(v: nat, base: nat, q: nat, r: nat)
    requires 2 <= base && v == q * base + r && r < base
    ensures (v > 0 ==> q < v) && (q == 0 <==> v < base)
  {
    if q > 0 { assert q * base >= q * 2; assert q * base >= base; }
  }

  /** A number in a base, with zeros in front up to "padding" digits. */
  function Numeral(v: nat, base: nat, padding: nat): (s: string)
    requires 2 <= base <= 16
    ensures s != "" && forall c :: c in s ==> IsHex(c)
    decreases v + padding
  {
    var last := [DigitChar(LastDigit(v, base))];
    if v < base && padding <= 1 then last else Numeral(Front(v, base), base, Less1(padding)) + last
  }

  /** How many digits a number needs. */
  function DigitCount(v: nat, base: nat): (n: nat)
    requires 2 <= base
    ensures n >= 1
  {
    if v < base then 1 else 1 + DigitCount(Front(v, base), base)
  }

  function Max(a: nat, b: nat): nat { if a < b then b else a }

  lemma {:induction false} NumeralLength(v: nat, base: nat, padding: nat)
    requires 2 <= base <= 16
    ensures |Numeral(v, base, padding)| == Max(DigitCount(v, base), padding)
    decreases v + padding
  {
    hide Front, LastDigit, DigitChar;
    if !(v < base && padding <= 1) { NumeralLength(Front(v, base), base, Less1(padding)); }
  }

  function Power(base: nat, n: nat): nat { if n == 0 then 1 else base * Power(base, n - 1) }

  /** "DigitCount" is the least number of digits that can hold the value. */
  lemma {:induction false} DigitCountIsLeast(v: nat, base: nat)
    requires 2 <= base
    ensures v < Power(base, DigitCount(v, base))
    ensures DigitCount(v, base) > 1 ==> Power(base, DigitCount(v, base) - 1) <= v
  {
    hide Front, LastDigit, DigitChar;
    if v >= base {
      DigitCountIsLeast(Front(v, base), base);
      var n := DigitCount(Front(v, base), base);
      Scaled(v, base, Power(base, n), Power(base, n - 1));
    }
  }

  lemma Scaled(v: nat, base: nat, above: nat, below: nat)
    requires 2 <= base && Front(v, base) < above
    ensures v < base * above
    ensures below <= Front(v, base) ==> base * below <= v
  {
    hide Front, LastDigit, DigitChar;
    var front := Front(v, base);
    assert base * (front + 1) <= base * above;
    if below <= front { assert base * below <= base * front; }
  }

  /** The numeral means the number, whatever the padding. */
  lemma {:induction false} NumeralMeans(v: nat, base: nat, padding: nat)
    requires 2 <= base <= 16
    ensures Value(Numeral(v, base, padding), base) == v
    decreases v + padding
  {
    hide Front, LastDigit, DigitChar;
    if v < base && padding <= 1 {
      assert Front(v, base) * base == 0;
      ValueSnoc("", DigitChar(LastDigit(v, base)), base);
    } else {
      NumeralMeans(Front(v, base), base, Less1(padding));
      ValueSnoc(Numeral(Front(v, base), base, Less1(padding)), DigitChar(LastDigit(v, base)), base);
    }
  }

  lemma ValueSnoc(s: string, c: char, base: nat)
    requires (forall d :: d in s ==> IsHex(d)) && IsHex(c)
    ensures Value(s + [c], base) == Value(s, base) * base + Digit(c)
  {
    assert (s + [c])[..|s|] == s;
  }

  /** Every 64-bit number printed in base 16 is read back, and reading stops where printing stopped. */
  lemma HexRoundTrip(v: nat, padding: nat, rest: string)
    requires v < WORD && (rest != "" ==> !IsHex(rest[0]))
    ensures var s := Numeral(v, 16, padding);
            HexRun(s + rest) == |s| && Value((s + rest)[..|s|], 16) % WORD == v
  {
    hide Numeral, HexRun, IsHex, Value;
    var s := Numeral(v, 16, padding);
    NumeralMeans(v, 16, padding);
    assert (s + rest)[..|s|] == s;
    forall i | 0 <= i < |s| ensures IsHex((s + rest)[i]) { assert (s + rest)[i] == s[i]; assert s[i] in s; }
    RunIs(s + rest, |s|);
  }

  // ---------------------------------------------------------------- the printer

  function Reversed(s: string): (r: string)
    ensures |r| == |s| && forall k :: 0 <= k < |s| ==> r[k] == s[|s| - 1 - k]
  {
    seq(|s|, k requires 0 <= k < |s| => s[|s| - 1 - k])
  }

  /** Swaps inwards from both ends of the first "n" characters. */
  method ReverseFront(buf: array<char>, n: nat)
    requires n <= buf.Length
    modifies buf
    ensures buf[..n] == Reversed(old(buf[..n]))
    ensures forall k :: n <= k < buf.Length ==> buf[k] == old(buf[k])
  {
    var start, ptr: int := 0, n - 1;
    while ptr > start
      invariant 0 <= start && ptr == n - 1 - start && ptr >= start - 1
      invariant forall k :: 0 <= k < start ==> buf[k] == old(buf[n - 1 - k]) && buf[n - 1 - k] == old(buf[k])
      invariant forall k :: start <= k <= ptr ==> buf[k] == old(buf[k])
      invariant forall k :: n <= k < buf.Length ==> buf[k] == old(buf[k])
    {
      buf[ptr], buf[start] := buf[start], buf[ptr];
      start, ptr := start + 1, ptr - 1;
    }
  }

  /** A numeral ends in its last digit. */
  lemma NumeralStep(v: nat, base: nat, padding: nat)
    requires 2 <= base <= 16
    ensures var front, pad := Front(v, base), Less1(padding);
            Numeral(v, base, padding) ==
              (if front > 0 || pad > 0 then Numeral(front, base, pad) else "") + [DigitChar(LastDigit(v, base))]
  {
  }

  /** One more digit behind those that are written back to front. */
  lemma ReversedSnoc(s: string, c: char)
    ensures Reversed(s + [c]) == [c] + Reversed(s)
  {
  }

  lemma ReversedTwice(s: string)
    ensures Reversed(Reversed(s)) == s
  {
  }

  /** Writes the digits, the last one first, while there is room for them and a terminator. */
  method WriteBackwards(i: nat, buf: array<char>, base: nat, padding: nat) returns (n: nat, ok: bool)
    requires buf.Length >= 1 && 2 <= base <= 16
    modifies buf
    ensures ok == (|Numeral(i, base, padding)| < buf.Length)
    ensures ok ==> n == |Numeral(i, base, padding)| && Reversed(buf[..n]) == Numeral(i, base, padding)
  {
    hide Front, LastDigit, Reversed, Numeral, DigitChar;
    var v: nat, pad: nat := i, padding;
    n := 0;
    ghost var s := Numeral(i, base, padding);
    var more := true;
    assert Reversed(buf[..0]) == "";
    while more
      invariant n < buf.Length
      invariant s == (if more then Numeral(v, base, pad) else "") + Reversed(buf[..n])
      decreases more, v + pad
    {
      if n + 2 > buf.Length { return n, false; }
      ghost var done := buf[..n];
      NumeralStep(v, base, pad);
      var c := DigitChar(LastDigit(v, base));
      buf[n] := c;
      ReversedSnoc(done, c);
      assert buf[..n + 1] == done + [c];
      v, pad, n := Front(v, base), Less1(pad), n + 1;
      more := v > 0 || pad > 0;
    }
    ok := true;
  }

  /** Digits come out last first, and the whole is turned round at the end. */
  method ItoaR(i: nat, buf: array<char>, base: nat, padding: nat) returns (ok: bool)
    modifies buf
    ensures 2 <= base <= 16 ==> ok == (Max(DigitCount(i, base), padding) + 1 <= buf.Length)
    ensures !(2 <= base <= 16) ==> !ok
    ensures ok ==> var s := Numeral(i, base, padding); |s| < buf.Length && buf[..|s|] == s && buf[|s|] == '\0'
    ensures !ok && buf.Length > 0 ==> buf[0] == '\0'
  {
    var sz := buf.Length;
    if 1 > sz { return false; }
    if base < 2 || base > 16 {
      buf[0] := '\0';
      return false;
    }
    NumeralLength(i, base, padding);
    ghost var s := Numeral(i, base, padding);
    var n;
    n, ok := WriteBackwards(i, buf, base, padding);
    if !ok {
      buf[0] := '\0';
      return;
    }
    buf[n] := '\0';
    ghost var back := buf[..n];
    assert Reversed(back) == s;
    ReverseFront(buf, n);
  }
}
